/**
 * The correlation engine of the notification consumer, as functions on its
 * state. The state is the consumer's three dictionaries: the last
 * Notification Source record per notification UID, the cached app attributes
 * per app identifier, and per app identifier the notification-attribute
 * responses waiting for that app's attributes. Each handler becomes one step
 * from a state to the next state, together with the Control Point requests it
 * issues and the Added, Modified and Removed events it raises, in order.
 *
 * Each handler changes the dictionaries only before its first `await`, so one
 * step covers everything a handler does to the state.
 */
module Correlation {
  import opened AncsTypes
  import opened NotificationSourceChannel

  /** A request sent through the Control Point characteristic. */
  datatype Request =
    | GetNotificationAttributes(uid: u32, attributeIds: seq<NotificationAttributeId>)
    | GetAppAttributes(appIdentifier: string, appAttributeIds: seq<AppAttributeId>)

  /** An event the consumer raises to its subscribers. */
  datatype Emitted =
    | NotificationAdded(source: NotificationSourceData, attributes: NotificationAttributeCollection)
    | NotificationModified(source: NotificationSourceData, attributes: NotificationAttributeCollection)
    | NotificationRemoved(source: NotificationSourceData)

  /** The consumer's three dictionaries. */
  datatype Engine = Engine(
    notifications: map<u32, NotificationSourceData>,
    applications: map<string, ApplicationAttributeCollection>,
    queues: map<string, seq<NotificationAttributeCollection>>)

  /**
   * What one handler does: the state afterwards, the requests it issued and the
   * events it raised, and whether it ended by throwing.
   */
  datatype Effect = Effect(engine: Engine, requests: seq<Request>, emitted: seq<Emitted>, faulted: bool)

  /** The state the consumer is constructed with. */
  const Initial: Engine := Engine(map[], map[], map[])

  /** A source record the consumer acts on: a non-zero UID and not PreExisting. */
  predicate Actionable(obj: NotificationSourceData) {
    obj.notificationUid != 0 && !HasFlag(obj.eventFlags, EventFlagPreExisting)
  }

  /** Every stored record sits under its own UID. */
  predicate KeyedByUid(n: map<u32, NotificationSourceData>) {
    forall u :: u in n ==> n[u].notificationUid == u
  }

  /**
   * What every reachable state satisfies: records sit under their UID and are
   * actionable Added or Modified (or unknown-kind) records, cached app
   * attributes sit under their app identifier, and every queued response sits
   * under the app identifier it carries.
   */
  ghost predicate Consistent(e: Engine) {
    && KeyedByUid(e.notifications)
    && (forall u :: u in e.notifications ==>
          Actionable(e.notifications[u]) && e.notifications[u].eventId != EventIdNotificationRemoved)
    && (forall a :: a in e.applications ==> e.applications[a].appIdentifier == a)
    && (forall a, i :: a in e.queues && 0 <= i < |e.queues[a]| ==> AppIdentifierOf(e.queues[a][i]) == Some(a))
  }

  /**
   * What holds as long as no drain has thrown: a queue exists only for an app
   * whose attributes are not cached, and it is never empty.
   */
  ghost predicate Settled(e: Engine) {
    && Consistent(e)
    && (forall a :: a in e.queues ==> a !in e.applications && e.queues[a] != [])
  }

  /**
   * The attributes asked for a new or modified notification: app identifier,
   * title and message, then the positive and the negative action label when
   * the record's flags announce those actions.
   */
  function RequestedAttributeIds(flags: byte): (ids: seq<NotificationAttributeId>)
    ensures 3 <= |ids| <= 5 && ids[..3] == [AppIdentifier, Title, Message]
    ensures PositiveActionLabel in ids <==> HasFlag(flags, EventFlagPositiveAction)
    ensures NegativeActionLabel in ids <==> HasFlag(flags, EventFlagNegativeAction)
    ensures forall i, j :: 0 <= i < j < |ids| ==> ids[i] != ids[j]
    ensures forall i, j :: 0 <= i < |ids| && 0 <= j < |ids| && ids[i] == NegativeActionLabel && ids[j] == PositiveActionLabel ==> j < i
    ensures forall x :: x in ids[3..] ==> x == PositiveActionLabel || x == NegativeActionLabel
  {
    [AppIdentifier, Title, Message]
    + (if HasFlag(flags, EventFlagPositiveAction) then [PositiveActionLabel] else [])
    + (if HasFlag(flags, EventFlagNegativeAction) then [NegativeActionLabel] else [])
  }

  /** The event raised for a stored record, chosen by the record's EventID alone. */
  function EmissionFor(sourceData: NotificationSourceData, attributes: NotificationAttributeCollection): seq<Emitted> {
    if Announced(sourceData) then [Announcement(sourceData, attributes)]
    else if sourceData.eventId == EventIdNotificationRemoved then [NotificationRemoved(sourceData)]
    else []
  }

  /** The stored record announces a notification the consumer raises Added or Modified for. */
  predicate Announced(sourceData: NotificationSourceData) {
    sourceData.eventId == EventIdNotificationAdded || sourceData.eventId == EventIdNotificationModified
  }

  /** The event raised for an announced record. */
  function Announcement(sourceData: NotificationSourceData, attributes: NotificationAttributeCollection): Emitted {
    if sourceData.eventId == EventIdNotificationAdded then NotificationAdded(sourceData, attributes)
    else NotificationModified(sourceData, attributes)
  }

  datatype Raised = Raised(notifications: map<u32, NotificationSourceData>, emitted: seq<Emitted>)

  /**
   * Raising the event for a response: look up the stored record (None when the
   * UID is absent, where the dictionary lookup throws), raise the event its
   * EventID names, and forget the record.
   */
  function Raise(n: map<u32, NotificationSourceData>, attributes: NotificationAttributeCollection): (r: Option<Raised>)
    ensures r.None? <==> attributes.notificationUid !in n
    ensures r.Some? ==> r.value.notifications.Keys <= n.Keys
    ensures r.Some? ==> forall u :: u in r.value.notifications ==> r.value.notifications[u] == n[u]
    ensures r.Some? && KeyedByUid(n) ==>
      && KeyedByUid(r.value.notifications)
      && r.value.notifications.Keys == n.Keys - {attributes.notificationUid}
    ensures r.Some? ==> |r.value.emitted| <= 1
    ensures r.Some? ==> forall ev :: ev in r.value.emitted ==> ev.source == n[attributes.notificationUid]
    ensures r.Some? && n[attributes.notificationUid].eventId == EventIdNotificationAdded ==>
      r.value.emitted == [NotificationAdded(n[attributes.notificationUid], attributes)]
    ensures r.Some? && n[attributes.notificationUid].eventId == EventIdNotificationModified ==>
      r.value.emitted == [NotificationModified(n[attributes.notificationUid], attributes)]
    ensures r.Some? && n[attributes.notificationUid].eventId == EventIdNotificationRemoved ==>
      r.value.emitted == [NotificationRemoved(n[attributes.notificationUid])]
    ensures r.Some? && n[attributes.notificationUid].eventId > EventIdNotificationRemoved ==>
      r.value.emitted == []
  {
    if attributes.notificationUid !in n then None
    else
      var sourceData := n[attributes.notificationUid];
      Some(Raised(n - {sourceData.notificationUid}, EmissionFor(sourceData, attributes)))
  }

  datatype DrainResult = DrainResult(
    notifications: map<u32, NotificationSourceData>,
    emitted: seq<Emitted>,
    remaining: seq<NotificationAttributeCollection>,
    faulted: bool)

  /**
   * Dequeuing and raising every queued response in FIFO order. The first
   * response whose UID is no longer stored makes the lookup throw: the drain
   * stops there, that response already dequeued, and `remaining` holds the
   * responses still in the queue.
   */
  function Drain(n: map<u32, NotificationSourceData>, queue: seq<NotificationAttributeCollection>): (d: DrainResult)
    ensures d.notifications.Keys <= n.Keys
    ensures forall u :: u in d.notifications ==> d.notifications[u] == n[u]
    ensures |d.emitted| <= |queue|
    ensures !d.faulted ==> d.remaining == []
    ensures d.faulted ==> |d.remaining| < |queue|
    decreases |queue|
  {
    if queue == [] then DrainResult(n, [], [], false)
    else
      match Raise(n, queue[0])
      case None => DrainResult(n, [], queue[1..], true)
      case Some(r) =>
        var d := Drain(r.notifications, queue[1..]);
        d.(emitted := r.emitted + d.emitted)
  }

  /** What a drain leaves in the queue is a suffix of it: the responses not yet dequeued. */
  lemma {:induction false} DrainLeavesSuffix(n: map<u32, NotificationSourceData>, queue: seq<NotificationAttributeCollection>)
    ensures var d := Drain(n, queue);
            |d.remaining| <= |queue| && d.remaining == queue[|queue| - |d.remaining|..]
    decreases |queue|
  {
    if queue != [] {
      match Raise(n, queue[0])
      case None =>
      case Some(r) =>
        DrainLeavesSuffix(r.notifications, queue[1..]);
        var rest := Drain(r.notifications, queue[1..]).remaining;
        assert queue[1..][|queue| - 1 - |rest|..] == queue[|queue| - |rest|..];
    }
  }

  /** Appending to a log in two steps appends the two parts together. */
  lemma AppendAssociative<T>(a: seq<T>, b: seq<T>, c: seq<T>)
    ensures a + b + c == a + (b + c)
  {
  }

  /**
   * `whole` is what draining gives when `prefix` has already been raised and
   * `rest` is the drain of what is left.
   */
  predicate DrainContinues(whole: DrainResult, prefix: seq<Emitted>, rest: DrainResult) {
    && whole.notifications == rest.notifications
    && whole.emitted == prefix + rest.emitted
    && whole.remaining == rest.remaining
    && whole.faulted == rest.faulted
  }

  /**
   * One dequeue of a drain in progress: a stored head is raised and moves its
   * events to the prefix; a head that is not stored ends the drain, faulted,
   * with the rest of the queue left.
   */
  lemma DrainAdvance(whole: DrainResult, prefix: seq<Emitted>, n: map<u32, NotificationSourceData>, queue: seq<NotificationAttributeCollection>)
    requires queue != [] && DrainContinues(whole, prefix, Drain(n, queue))
    ensures queue[0].notificationUid in n ==>
      var r := Raise(n, queue[0]).value;
      DrainContinues(whole, prefix + r.emitted, Drain(r.notifications, queue[1..]))
    ensures queue[0].notificationUid !in n ==>
      DrainContinues(whole, prefix, DrainResult(n, [], queue[1..], true))
  {
    if queue[0].notificationUid in n {
      var r := Raise(n, queue[0]).value;
      var rest := Drain(r.notifications, queue[1..]);
      assert Drain(n, queue) == rest.(emitted := r.emitted + rest.emitted) by {
        assert Raise(n, queue[0]) == Some(r);
      }
      AppendAssociative(prefix, r.emitted, rest.emitted);
    } else {
      assert Raise(n, queue[0]) == None;
    }
  }

  /** Every queued UID is stored, and no UID is queued twice. */
  predicate Drainable(n: map<u32, NotificationSourceData>, queue: seq<NotificationAttributeCollection>) {
    && (forall i :: 0 <= i < |queue| ==> queue[i].notificationUid in n)
    && (forall i, j :: 0 <= i < j < |queue| ==> queue[i].notificationUid != queue[j].notificationUid)
  }

  /** The UIDs of the queued responses. */
  function Uids(queue: seq<NotificationAttributeCollection>): set<u32> {
    set i | 0 <= i < |queue| :: queue[i].notificationUid
  }

  /** A drain throws exactly when some queued UID is not stored or is queued twice. */
  lemma {:induction false} DrainFaultsIff(n: map<u32, NotificationSourceData>, queue: seq<NotificationAttributeCollection>)
    requires KeyedByUid(n)
    ensures Drain(n, queue).faulted <==> !Drainable(n, queue)
    decreases |queue|
  {
    if queue != [] {
      var u := queue[0].notificationUid;
      DrainableCons(n, queue);
      if u in n {
        assert Raise(n, queue[0]).value.notifications == n - {u};
        DrainFaultsIff(n - {u}, queue[1..]);
      }
    }
  }

  lemma UidsCons(queue: seq<NotificationAttributeCollection>)
    requires queue != []
    ensures Uids(queue) == {queue[0].notificationUid} + Uids(queue[1..])
  {
    var tail := queue[1..];
    forall x | x in Uids(queue) ensures x in {queue[0].notificationUid} + Uids(tail) {
      var i :| 0 <= i < |queue| && queue[i].notificationUid == x;
      if i > 0 { assert queue[i] == tail[i - 1]; }
    }
    forall x | x in Uids(tail) ensures x in Uids(queue) {
      var i :| 0 <= i < |tail| && tail[i].notificationUid == x;
      assert queue[i + 1] == tail[i];
    }
  }

  /**
   * A queue is drainable exactly when its head's UID is stored and its tail is
   * drainable once that UID is forgotten.
   */
  lemma DrainableCons(n: map<u32, NotificationSourceData>, queue: seq<NotificationAttributeCollection>)
    requires queue != []
    ensures Drainable(n, queue) <==>
      queue[0].notificationUid in n && Drainable(n - {queue[0].notificationUid}, queue[1..])
  {
    var tail := queue[1..];
    var n' := n - {queue[0].notificationUid};
    if Drainable(n, queue) {
      forall i | 0 <= i < |tail| ensures tail[i].notificationUid in n' {
        assert tail[i] == queue[i + 1];
      }
      forall i, j | 0 <= i < j < |tail| ensures tail[i].notificationUid != tail[j].notificationUid {
        assert tail[i] == queue[i + 1] && tail[j] == queue[j + 1];
      }
    }
    if queue[0].notificationUid in n && Drainable(n', tail) {
      forall i | 0 <= i < |queue| ensures queue[i].notificationUid in n {
        if i > 0 { assert queue[i] == tail[i - 1]; }
      }
      forall i, j | 0 <= i < j < |queue| ensures queue[i].notificationUid != queue[j].notificationUid {
        assert queue[j] == tail[j - 1];
        if i > 0 { assert queue[i] == tail[i - 1]; }
      }
    }
  }

  /**
   * A drain of a drainable queue of announced records raises one event per
   * response, in queue order, each of the kind its stored record names.
   */
  lemma {:induction false} DrainRaisesInOrder(n: map<u32, NotificationSourceData>, queue: seq<NotificationAttributeCollection>)
    requires KeyedByUid(n) && Drainable(n, queue)
    requires forall i :: 0 <= i < |queue| ==> Announced(n[queue[i].notificationUid])
    ensures !Drain(n, queue).faulted
    ensures |Drain(n, queue).emitted| == |queue|
    ensures forall i :: 0 <= i < |queue| ==>
      Drain(n, queue).emitted[i] == Announcement(n[queue[i].notificationUid], queue[i])
    decreases |queue|
  {
    if queue != [] {
      var u := queue[0].notificationUid;
      var tail := queue[1..];
      var n' := n - {u};
      assert Raise(n, queue[0]) == Some(Raised(n', [Announcement(n[u], queue[0])]));
      DrainableCons(n, queue);
      forall i | 0 <= i < |tail| ensures Announced(n'[tail[i].notificationUid]) {
        assert tail[i] == queue[i + 1];
      }
      DrainRaisesInOrder(n', tail);
      var d' := Drain(n', tail);
      assert Drain(n, queue) == d'.(emitted := [Announcement(n[u], queue[0])] + d'.emitted);
      forall i | 0 <= i < |queue| ensures Drain(n, queue).emitted[i] == Announcement(n[queue[i].notificationUid], queue[i]) {
        if i > 0 {
          assert queue[i] == tail[i - 1];
          assert n'[tail[i - 1].notificationUid] == n[queue[i].notificationUid];
        }
      }
    }
  }

  /** A drain of a drainable queue forgets exactly the queued UIDs. */
  lemma {:induction false} DrainForgetsQueued(n: map<u32, NotificationSourceData>, queue: seq<NotificationAttributeCollection>)
    requires KeyedByUid(n) && Drainable(n, queue)
    ensures Drain(n, queue).notifications == n - Uids(queue)
    decreases |queue|
  {
    if queue == [] {
      assert Uids(queue) == {};
    } else {
      var u := queue[0].notificationUid;
      var tail := queue[1..];
      assert Raise(n, queue[0]).value.notifications == n - {u};
      DrainableCons(n, queue);
      DrainForgetsQueued(n - {u}, tail);
      assert Drain(n, queue).notifications == Drain(n - {u}, tail).notifications;
      UidsCons(queue);
      MinusCons(n, u, Uids(tail));
    }
  }

  lemma MinusCons(n: map<u32, NotificationSourceData>, u: u32, rest: set<u32>)
    ensures (n - {u}) - rest == n - ({u} + rest)
  {
  }

  /**
   * The events a queue of responses calls for: one `EmissionFor` per response,
   * in queue order, each chosen by the record stored under its UID in `n`.
   */
  function Emissions(n: map<u32, NotificationSourceData>, queue: seq<NotificationAttributeCollection>): seq<Emitted>
    requires forall i :: 0 <= i < |queue| ==> queue[i].notificationUid in n
    decreases |queue|
  {
    if queue == [] then []
    else EmissionFor(n[queue[0].notificationUid], queue[0]) + Emissions(n, queue[1..])
  }

  /** The events of a queue depend only on the records stored under its UIDs. */
  lemma {:induction false} EmissionsFrame(
    n: map<u32, NotificationSourceData>, m: map<u32, NotificationSourceData>, queue: seq<NotificationAttributeCollection>)
    requires forall i :: 0 <= i < |queue| ==> queue[i].notificationUid in m
    requires forall u :: u in m ==> u in n && m[u] == n[u]
    ensures Emissions(m, queue) == Emissions(n, queue)
    decreases |queue|
  {
    if queue != [] {
      EmissionsFrame(n, m, queue[1..]);
    }
  }

  /**
   * A drain of a drainable queue raises the events its responses call for, in
   * queue order, whatever the stored EventIDs.
   */
  lemma {:induction false} DrainEmitsAll(n: map<u32, NotificationSourceData>, queue: seq<NotificationAttributeCollection>)
    requires KeyedByUid(n) && Drainable(n, queue)
    ensures Drain(n, queue).emitted == Emissions(n, queue)
    decreases |queue|
  {
    if queue != [] {
      var u := queue[0].notificationUid;
      var tail := queue[1..];
      var n' := n - {u};
      assert Raise(n, queue[0]) == Some(Raised(n', EmissionFor(n[u], queue[0])));
      DrainableCons(n, queue);
      DrainEmitsAll(n', tail);
      EmissionsFrame(n, n', tail);
    }
  }

  /**
   * `d` is a drain of `queue` that threw at its response `j`: the `j`
   * responses before it form a drainable prefix whose events were raised in
   * order and whose UIDs were forgotten, response `j` names a UID no longer
   * stored once they are forgotten, and the responses after it are what the
   * queue keeps.
   */
  predicate FaultedAfter(
    n: map<u32, NotificationSourceData>, queue: seq<NotificationAttributeCollection>, d: DrainResult, j: nat)
  {
    && j < |queue|
    && d.faulted
    && d.remaining == queue[j + 1..]
    && Drainable(n, queue[..j])
    && d.notifications == n - Uids(queue[..j])
    && d.emitted == Emissions(n, queue[..j])
    && queue[j].notificationUid !in n - Uids(queue[..j])
  }

  /** A drain that throws has raised the events of, and forgotten, exactly the responses dequeued before the throw. */
  lemma {:induction false} DrainFaultedPrefix(n: map<u32, NotificationSourceData>, queue: seq<NotificationAttributeCollection>)
    requires KeyedByUid(n)
    ensures var d := Drain(n, queue);
            d.faulted ==> FaultedAfter(n, queue, d, |queue| - |d.remaining| - 1)
    decreases |queue|
  {
    if queue != [] {
      var u := queue[0].notificationUid;
      if u !in n {
        assert Drain(n, queue) == DrainResult(n, [], queue[1..], true) by {
          assert Raise(n, queue[0]) == None;
        }
        FaultedAtHead(n, queue);
      } else {
        var n' := n - {u};
        var d' := Drain(n', queue[1..]);
        assert Drain(n, queue) == d'.(emitted := EmissionFor(n[u], queue[0]) + d'.emitted) by {
          assert Raise(n, queue[0]) == Some(Raised(n', EmissionFor(n[u], queue[0])));
        }
        if d'.faulted {
          DrainFaultedPrefix(n', queue[1..]);
          FaultedAfterCons(n, queue, d', |queue| - |d'.remaining| - 2);
        }
      }
    }
  }

  /** A head whose UID is not stored throws before anything is raised or forgotten. */
  lemma FaultedAtHead(n: map<u32, NotificationSourceData>, queue: seq<NotificationAttributeCollection>)
    requires queue != [] && queue[0].notificationUid !in n
    ensures FaultedAfter(n, queue, DrainResult(n, [], queue[1..], true), 0)
  {
    assert queue[..0] == [];
    assert Uids(queue[..0]) == {};
  }

  /** A throw after `j` responses of the tail is a throw after `j + 1` once a stored head is raised first. */
  lemma FaultedAfterCons(
    n: map<u32, NotificationSourceData>, queue: seq<NotificationAttributeCollection>, d: DrainResult, j: nat)
    requires queue != [] && queue[0].notificationUid in n
    requires FaultedAfter(n - {queue[0].notificationUid}, queue[1..], d, j)
    ensures FaultedAfter(n, queue, d.(emitted := EmissionFor(n[queue[0].notificationUid], queue[0]) + d.emitted), j + 1)
  {
    var tailPrefix := queue[1..][..j];
    assert queue[..j + 1] == [queue[0]] + tailPrefix;
    PrefixCons(n, queue[0], tailPrefix);
    assert queue[j + 1] == queue[1..][j];
    assert queue[j + 2..] == queue[1..][j + 1..];
  }

  /** A drainable prefix grows by a stored head, with its forgotten UIDs and its events. */
  lemma PrefixCons(n: map<u32, NotificationSourceData>, head: NotificationAttributeCollection, p: seq<NotificationAttributeCollection>)
    requires head.notificationUid in n && Drainable(n - {head.notificationUid}, p)
    ensures Drainable(n, [head] + p)
    ensures (n - {head.notificationUid}) - Uids(p) == n - Uids([head] + p)
    ensures Emissions(n, [head] + p) == EmissionFor(n[head.notificationUid], head) + Emissions(n - {head.notificationUid}, p)
  {
    var q := [head] + p;
    assert q[1..] == p;
    DrainableCons(n, q);
    UidsCons(q);
    MinusCons(n, head.notificationUid, Uids(p));
    EmissionsFrame(n, n - {head.notificationUid}, p);
  }

  /**
   * NotificationSource ValueChanged: a record with UID 0 or the PreExisting flag
   * (even a removal) is ignored; a removal forgets the UID and raises one
   * Removed event, known UID or not; any other record is stored under its UID,
   * replacing the previous one, and its attributes are requested.
   */
  function OnSourceEvent(e: Engine, obj: NotificationSourceData): (r: Effect)
    ensures !r.faulted && r.engine.applications == e.applications && r.engine.queues == e.queues
    ensures !Actionable(obj) ==> r == Effect(e, [], [], false)
    ensures Actionable(obj) && obj.eventId == EventIdNotificationRemoved ==>
      && r.engine.notifications.Keys == e.notifications.Keys - {obj.notificationUid}
      && (forall u :: u in r.engine.notifications ==> r.engine.notifications[u] == e.notifications[u])
      && r.requests == []
      && r.emitted == [NotificationRemoved(obj)]
    ensures Actionable(obj) && obj.eventId != EventIdNotificationRemoved ==>
      && r.engine.notifications.Keys == e.notifications.Keys + {obj.notificationUid}
      && r.engine.notifications[obj.notificationUid] == obj
      && (forall u :: u in e.notifications && u != obj.notificationUid ==> r.engine.notifications[u] == e.notifications[u])
      && r.requests == [GetNotificationAttributes(obj.notificationUid, RequestedAttributeIds(obj.eventFlags))]
      && r.emitted == []
    ensures KeyedByUid(e.notifications) ==> KeyedByUid(r.engine.notifications)
    ensures Consistent(e) ==> Consistent(r.engine)
    ensures Settled(e) ==> Settled(r.engine)
  {
    var uid := obj.notificationUid;
    if uid == 0 || HasFlag(obj.eventFlags, EventFlagPreExisting) then
      Effect(e, [], [], false)
    else if obj.eventId == EventIdNotificationRemoved then
      Effect(e.(notifications := e.notifications - {uid}), [], [NotificationRemoved(obj)], false)
    else
      Effect(e.(notifications := e.notifications[uid := obj]),
             [GetNotificationAttributes(uid, RequestedAttributeIds(obj.eventFlags))], [], false)
  }

  /**
   * DataSource NotificationAttributesReceived: a response for a UID not stored
   * is ignored. A response naming an app whose attributes are not cached is
   * appended to that app's queue (created when absent) and the app's display
   * name is requested, on every such arrival. Otherwise the event for the
   * stored record is raised at once and the record forgotten.
   */
  function OnNotificationAttributes(e: Engine, attributes: NotificationAttributeCollection): (r: Effect)
    ensures !r.faulted && r.engine.applications == e.applications
    ensures attributes.notificationUid !in e.notifications ==> r == Effect(e, [], [], false)
    ensures attributes.notificationUid in e.notifications && AppIdentifierOf(attributes).Some?
            && AppIdentifierOf(attributes).value !in e.applications ==>
      var app := AppIdentifierOf(attributes).value;
      && r.engine.notifications == e.notifications
      && r.engine.queues.Keys == e.queues.Keys + {app}
      && r.engine.queues[app] == (if app in e.queues then e.queues[app] else []) + [attributes]
      && (forall a :: a in e.queues && a != app ==> r.engine.queues[a] == e.queues[a])
      && r.requests == [GetAppAttributes(app, [DisplayName])]
      && r.emitted == []
    ensures attributes.notificationUid in e.notifications
            && (AppIdentifierOf(attributes).None? || AppIdentifierOf(attributes).value in e.applications) ==>
      && r.engine.queues == e.queues
      && r.requests == []
      && r.emitted == EmissionFor(e.notifications[attributes.notificationUid], attributes)
      && (forall u :: u in r.engine.notifications ==> u in e.notifications && r.engine.notifications[u] == e.notifications[u])
      && (KeyedByUid(e.notifications) ==>
            r.engine.notifications.Keys == e.notifications.Keys - {attributes.notificationUid})
    ensures Consistent(e) ==> Consistent(r.engine)
    ensures Settled(e) ==> Settled(r.engine)
  {
    if attributes.notificationUid !in e.notifications then
      Effect(e, [], [], false)
    else if AppIdentifierOf(attributes).Some? && AppIdentifierOf(attributes).value !in e.applications then
      var app := AppIdentifierOf(attributes).value;
      var queue := if app in e.queues then e.queues[app] else [];
      Effect(e.(queues := e.queues[app := queue + [attributes]]), [GetAppAttributes(app, [DisplayName])], [], false)
    else
      var raised := Raise(e.notifications, attributes).value;
      Effect(e.(notifications := raised.notifications), [], raised.emitted, false)
  }

  /** A drain that throws leaves the invariant in place, the app cached and its queue cut to what was not dequeued. */
  lemma FaultedStateConsistent(e: Engine, app: ApplicationAttributeCollection, d: DrainResult)
    requires app.appIdentifier in e.queues && d == Drain(e.notifications, e.queues[app.appIdentifier])
    ensures Consistent(e) ==>
      Consistent(Engine(d.notifications, e.applications[app.appIdentifier := app], e.queues[app.appIdentifier := d.remaining]))
  {
    if Consistent(e) {
      var id := app.appIdentifier;
      DrainLeavesSuffix(e.notifications, e.queues[id]);
      DrainedRecordsConsistent(e, d);
      RemainingQueueConsistent(e, app, d);
      CachedAppConsistent(e.(notifications := d.notifications, queues := e.queues[id := d.remaining]), app);
    }
  }

  /** A drain that completes leaves the invariant in place, the app cached and its queue removed. */
  lemma DrainedStateConsistent(e: Engine, app: ApplicationAttributeCollection, d: DrainResult)
    requires app.appIdentifier in e.queues && d == Drain(e.notifications, e.queues[app.appIdentifier])
    ensures Consistent(e) ==>
      Consistent(Engine(d.notifications, e.applications[app.appIdentifier := app], e.queues - {app.appIdentifier}))
  {
    if Consistent(e) {
      DrainedRecordsConsistent(e, d);
      CachedAppConsistent(e.(notifications := d.notifications, queues := e.queues - {app.appIdentifier}), app);
    }
  }

  /** A drain that completes keeps every remaining queue non-empty and behind an uncached app. */
  lemma DrainedStateSettled(e: Engine, app: ApplicationAttributeCollection, d: DrainResult)
    requires app.appIdentifier in e.queues && d == Drain(e.notifications, e.queues[app.appIdentifier])
    ensures Settled(e) ==>
      Settled(Engine(d.notifications, e.applications[app.appIdentifier := app], e.queues - {app.appIdentifier}))
  {
    if Settled(e) {
      DrainedStateConsistent(e, app, d);
    }
  }

  lemma CachedAppConsistent(e: Engine, app: ApplicationAttributeCollection)
    requires Consistent(e)
    ensures Consistent(e.(applications := e.applications[app.appIdentifier := app]))
  {
  }

  lemma DrainedRecordsConsistent(e: Engine, d: DrainResult)
    requires Consistent(e)
    requires d.notifications.Keys <= e.notifications.Keys
    requires forall u :: u in d.notifications ==> d.notifications[u] == e.notifications[u]
    ensures Consistent(e.(notifications := d.notifications))
  {
  }

  lemma RemainingQueueConsistent(e: Engine, app: ApplicationAttributeCollection, d: DrainResult)
    requires Consistent(e) && app.appIdentifier in e.queues
    requires |d.remaining| <= |e.queues[app.appIdentifier]|
    requires d.remaining == e.queues[app.appIdentifier][|e.queues[app.appIdentifier]| - |d.remaining|..]
    ensures var q := e.queues[app.appIdentifier := d.remaining];
      forall a, i :: a in q && 0 <= i < |q[a]| ==> AppIdentifierOf(q[a][i]) == Some(a)
  {
    var queue := e.queues[app.appIdentifier];
    forall i | 0 <= i < |d.remaining| ensures AppIdentifierOf(d.remaining[i]) == Some(app.appIdentifier) {
      assert d.remaining[i] == queue[|queue| - |d.remaining| + i];
    }
  }

  /**
   * DataSource ApplicationAttributesReceived: cache the attributes under their
   * app identifier, replacing any earlier ones, then drain that app's queue and
   * remove it. When the drain throws, the app stays cached and its queue keeps
   * the responses not yet dequeued.
   */
  function OnAppAttributes(e: Engine, app: ApplicationAttributeCollection): (r: Effect)
    ensures r.requests == []
    ensures r.engine.applications.Keys == e.applications.Keys + {app.appIdentifier}
    ensures r.engine.applications[app.appIdentifier] == app
    ensures forall a :: a in e.applications && a != app.appIdentifier ==> r.engine.applications[a] == e.applications[a]
    ensures r.engine.queues.Keys <= e.queues.Keys
    ensures forall a :: a in e.queues && a != app.appIdentifier ==> a in r.engine.queues && r.engine.queues[a] == e.queues[a]
    ensures app.appIdentifier !in e.queues ==>
      r == Effect(e.(applications := r.engine.applications), [], [], false)
    ensures app.appIdentifier in e.queues && KeyedByUid(e.notifications) ==>
      (r.faulted <==> !Drainable(e.notifications, e.queues[app.appIdentifier]))
    ensures !r.faulted ==> app.appIdentifier !in r.engine.queues
    ensures Consistent(e) ==> Consistent(r.engine)
    ensures Settled(e) && !r.faulted ==> Settled(r.engine)
  {
    var id := app.appIdentifier;
    var applications := e.applications[id := app];
    if id !in e.queues then
      Effect(e.(applications := applications), [], [], false)
    else
      var d := Drain(e.notifications, e.queues[id]);
      assert KeyedByUid(e.notifications) ==> (d.faulted <==> !Drainable(e.notifications, e.queues[id])) by {
        if KeyedByUid(e.notifications) {
          DrainFaultsIff(e.notifications, e.queues[id]);
        }
      }
      FaultedStateConsistent(e, app, d);
      DrainedStateConsistent(e, app, d);
      DrainedStateSettled(e, app, d);
      if d.faulted then
        Effect(Engine(d.notifications, applications, e.queues[id := d.remaining]), [], d.emitted, true)
      else
        Effect(Engine(d.notifications, applications, e.queues - {id}), [], d.emitted, false)
  }

  /** The step for an app that has a queue, in terms of the drain of that queue. */
  lemma AppAttributesDrain(e: Engine, app: ApplicationAttributeCollection)
    requires app.appIdentifier in e.queues
    ensures var id := app.appIdentifier;
            var d := Drain(e.notifications, e.queues[id]);
            var queues := if d.faulted then e.queues[id := d.remaining] else e.queues - {id};
            OnAppAttributes(e, app) == Effect(Engine(d.notifications, e.applications[id := app], queues), [], d.emitted, d.faulted)
  {
  }

  /**
   * A removal does not purge the app queues: when a queued response's UID is
   * removed before its app's attributes arrive, the drain reaches that
   * response, the lookup throws, and the handler faults.
   */
  lemma RemovedWhileQueuedFaults(e: Engine, obj: NotificationSourceData, app: ApplicationAttributeCollection, i: nat)
    requires Consistent(e) && Actionable(obj) && obj.eventId == EventIdNotificationRemoved
    requires app.appIdentifier in e.queues && i < |e.queues[app.appIdentifier]|
    requires e.queues[app.appIdentifier][i].notificationUid == obj.notificationUid
    ensures OnAppAttributes(OnSourceEvent(e, obj).engine, app).faulted
  {
    var e1 := OnSourceEvent(e, obj).engine;
    var queue := e1.queues[app.appIdentifier];
    assert queue[i].notificationUid !in e1.notifications;
    assert !Drainable(e1.notifications, queue);
  }

  /**
   * There is no single-flight: two responses for the same notification that
   * arrive before its app's attributes each request the app's display name,
   * both are queued, and the drain then throws. When the app had no queue
   * before, the first of the two is raised and forgets the record, so the
   * lookup for the second is the one that throws, with nothing left queued.
   */
  lemma RepeatedResponsesBeforeAppResolution(e: Engine, attributes: NotificationAttributeCollection, app: ApplicationAttributeCollection)
    requires Consistent(e) && attributes.notificationUid in e.notifications
    requires AppIdentifierOf(attributes) == Some(app.appIdentifier) && app.appIdentifier !in e.applications
    ensures var first := OnNotificationAttributes(e, attributes);
            var second := OnNotificationAttributes(first.engine, attributes);
            && first.requests == [GetAppAttributes(app.appIdentifier, [DisplayName])]
            && second.requests == first.requests
            && OnAppAttributes(second.engine, app).faulted
    ensures app.appIdentifier !in e.queues ==>
            var second := OnNotificationAttributes(OnNotificationAttributes(e, attributes).engine, attributes);
            var drained := OnAppAttributes(second.engine, app);
            && second.engine.queues[app.appIdentifier] == [attributes, attributes]
            && drained.emitted == EmissionFor(e.notifications[attributes.notificationUid], attributes)
            && drained.engine.queues[app.appIdentifier] == []
  {
    var first := OnNotificationAttributes(e, attributes);
    var second := OnNotificationAttributes(first.engine, attributes);
    var queue := second.engine.queues[app.appIdentifier];
    var k := |queue| - 2;
    assert queue[k] == attributes && queue[k + 1] == attributes;
    assert !Drainable(second.engine.notifications, queue);
    if app.appIdentifier !in e.queues {
      var n := second.engine.notifications;
      var uid := attributes.notificationUid;
      assert queue == [attributes, attributes];
      assert Raise(n, attributes) == Some(Raised(n - {uid}, EmissionFor(n[uid], attributes)));
      assert queue[1..] == [attributes];
      assert Drain(n - {uid}, [attributes]) == DrainResult(n - {uid}, [], [], true);
      AppAttributesDrain(second.engine, app);
    }
  }

  /**
   * A new notification whose app is not yet known goes through the three
   * handlers in turn: its record is stored and its attributes requested, the
   * response is queued and the app requested, and the app's attributes raise
   * one event, whose kind is the one the record carried on the wire (a
   * Modified record is raised as Modified even though nothing was raised for
   * it before). Afterwards the record is gone, the app is cached and it has no
   * queue.
   */
  lemma NewNotificationOfUnknownApp(
    e: Engine, obj: NotificationSourceData, attributes: NotificationAttributeCollection, app: ApplicationAttributeCollection,
    s1: Effect, s2: Effect, s3: Effect)
    requires KeyedByUid(e.notifications) && Actionable(obj) && Announced(obj)
    requires attributes.notificationUid == obj.notificationUid
    requires AppIdentifierOf(attributes) == Some(app.appIdentifier)
    requires app.appIdentifier !in e.applications && app.appIdentifier !in e.queues
    requires s1 == OnSourceEvent(e, obj)
    requires s2 == OnNotificationAttributes(s1.engine, attributes)
    requires s3 == OnAppAttributes(s2.engine, app)
    ensures s1.requests == [GetNotificationAttributes(obj.notificationUid, RequestedAttributeIds(obj.eventFlags))]
    ensures s2.requests == [GetAppAttributes(app.appIdentifier, [DisplayName])] && s3.requests == []
    ensures s1.emitted == [] && s2.emitted == [] && s3.emitted == [Announcement(obj, attributes)]
    ensures !s3.faulted && obj.notificationUid !in s3.engine.notifications
    ensures app.appIdentifier in s3.engine.applications && s3.engine.applications[app.appIdentifier] == app
    ensures app.appIdentifier !in s3.engine.queues
  {
    QueuedBehindUnknownApp(s1.engine, obj, attributes, app);
    SingleQueuedResponseRaised(s2.engine, obj, attributes, app);
  }

  /** The response of a stored notification whose app is unknown and unqueued becomes that app's only queued response. */
  lemma QueuedBehindUnknownApp(
    e: Engine, obj: NotificationSourceData, attributes: NotificationAttributeCollection, app: ApplicationAttributeCollection)
    requires obj.notificationUid in e.notifications && e.notifications[obj.notificationUid] == obj
    requires attributes.notificationUid == obj.notificationUid
    requires AppIdentifierOf(attributes) == Some(app.appIdentifier)
    requires app.appIdentifier !in e.applications && app.appIdentifier !in e.queues
    ensures var s := OnNotificationAttributes(e, attributes);
            && s.requests == [GetAppAttributes(app.appIdentifier, [DisplayName])]
            && s.emitted == []
            && s.engine.notifications == e.notifications
            && s.engine.queues[app.appIdentifier] == [attributes]
  {
  }

  /** An app's attributes raise its only queued response as the stored record's kind and forget the record. */
  lemma SingleQueuedResponseRaised(
    e: Engine, obj: NotificationSourceData, attributes: NotificationAttributeCollection, app: ApplicationAttributeCollection)
    requires KeyedByUid(e.notifications) && Announced(obj)
    requires obj.notificationUid in e.notifications && e.notifications[obj.notificationUid] == obj
    requires attributes.notificationUid == obj.notificationUid
    requires app.appIdentifier in e.queues && e.queues[app.appIdentifier] == [attributes]
    ensures var s := OnAppAttributes(e, app);
            && s.requests == []
            && s.emitted == [Announcement(obj, attributes)]
            && !s.faulted
            && obj.notificationUid !in s.engine.notifications
            && s.engine.applications[app.appIdentifier] == app
            && app.appIdentifier !in s.engine.queues
  {
    DrainSingle(e.notifications, attributes);
  }

  /** Draining a one-response queue whose UID is stored raises that record's event and forgets it. */
  lemma DrainSingle(n: map<u32, NotificationSourceData>, attributes: NotificationAttributeCollection)
    requires KeyedByUid(n) && attributes.notificationUid in n
    ensures Drain(n, [attributes])
      == DrainResult(n - {attributes.notificationUid}, EmissionFor(n[attributes.notificationUid], attributes), [], false)
  {
    assert [attributes][1..] == [];
  }

}
