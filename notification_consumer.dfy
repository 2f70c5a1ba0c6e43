/**
 * The notification consumer object: its three dictionaries updated in place by
 * the handlers it attaches to the Notification Source and Data Source
 * wrappers, the Control Point requests it issues and the events it raises.
 * Each handler is proved to do to the dictionaries exactly what the matching
 * step of the correlation engine does to its state.
 */
module Consumer {
  import opened AncsTypes
  import opened NotificationSourceChannel
  import opened Correlation

  class NotificationConsumer {
    var notifications: map<u32, NotificationSourceData>
    var applications: map<string, ApplicationAttributeCollection>
    var applicationNotificationQueue: map<string, seq<NotificationAttributeCollection>>
    /** Every request sent through the Control Point, in order. */
    var requests: seq<Request>
    /** Every NotificationAdded, NotificationModified and NotificationRemoved event raised, in order. */
    var emitted: seq<Emitted>

    /** The dictionaries as a state of the correlation engine. */
    function State(): Engine
      reads this
    {
      Engine(notifications, applications, applicationNotificationQueue)
    }

    ghost predicate Valid()
      reads this
    {
      Consistent(State())
    }

    constructor ()
      ensures Valid() && State() == Initial
      ensures requests == [] && emitted == []
    {
      notifications := map[];
      applications := map[];
      applicationNotificationQueue := map[];
      requests := [];
      emitted := [];
    }

    /**
     * Looks up the stored record of a response, raises the event its EventID
     * names and forgets the record. The lookup of a UID that is not stored
     * throws: `thrown` reports it, and nothing has changed.
     */
    method RaiseNotificationEvent(attributes: NotificationAttributeCollection) returns (thrown: bool)
      modifies this`notifications, this`emitted
      ensures thrown <==> Raise(old(notifications), attributes).None?
      ensures thrown ==> notifications == old(notifications) && emitted == old(emitted)
      ensures !thrown ==>
        && notifications == Raise(old(notifications), attributes).value.notifications
        && emitted == old(emitted) + Raise(old(notifications), attributes).value.emitted
    {
      if attributes.notificationUid !in notifications {
        return true;
      }
      var sourceData := notifications[attributes.notificationUid];
      if sourceData.eventId == EventIdNotificationAdded {
        emitted := emitted + [NotificationAdded(sourceData, attributes)];
      } else if sourceData.eventId == EventIdNotificationModified {
        emitted := emitted + [NotificationModified(sourceData, attributes)];
      } else if sourceData.eventId == EventIdNotificationRemoved {
        emitted := emitted + [NotificationRemoved(sourceData)];
      }
      notifications := notifications - {sourceData.notificationUid};
      return false;
    }

    /**
     * Dequeues and raises the responses queued under `id` in order. Raising a
     * response whose UID is no longer stored throws, which ends the loop with
     * `faulted` set; the queue registered under `id` is then the one left after
     * the dequeues (nothing reads it while the loop runs, so it is written back
     * once, after the loop).
     */
    method DrainQueue(id: string) returns (faulted: bool)
      requires id in applicationNotificationQueue
      modifies this`applicationNotificationQueue, this`notifications, this`emitted
      ensures var d := Drain(old(notifications), old(applicationNotificationQueue)[id]);
        && notifications == d.notifications
        && emitted == old(emitted) + d.emitted
        && applicationNotificationQueue == old(applicationNotificationQueue)[id := d.remaining]
        && faulted == d.faulted
    {
      var queue := applicationNotificationQueue[id];
      ghost var d0 := Drain(notifications, queue);
      ghost var raisedSoFar: seq<Emitted> := [];
      faulted := false;
      while |queue| > 0
        invariant applicationNotificationQueue == old(applicationNotificationQueue)
        invariant emitted == old(emitted) + raisedSoFar
        invariant DrainContinues(d0, raisedSoFar, Drain(notifications, queue))
        decreases |queue|
      {
        var head := queue[0];
        DrainAdvance(d0, raisedSoFar, notifications, queue);
        ghost var raised := if head.notificationUid in notifications then Raise(notifications, head).value.emitted else [];
        queue := queue[1..];
        faulted := RaiseNotificationEvent(head);
        if faulted {
          break;
        }
        AppendAssociative(old(emitted), raisedSoFar, raised);
        raisedSoFar := raisedSoFar + raised;
      }
      if !faulted {
        assert Drain(notifications, queue) == DrainResult(notifications, [], [], false);
      }
      applicationNotificationQueue := applicationNotificationQueue[id := queue];
    }

    /**
     * Caches an app's attributes, then raises every response waiting for that
     * app and removes its queue. When raising a response throws, the handler
     * stops there: `faulted` reports it, and the queue stays registered with
     * the responses not yet dequeued.
     */
    method ApplicationAttributesReceived(obj: ApplicationAttributeCollection) returns (faulted: bool)
      modifies this`applications, this`applicationNotificationQueue, this`notifications, this`emitted
      ensures var effect := OnAppAttributes(old(State()), obj);
        && State() == effect.engine
        && faulted == effect.faulted
        && emitted == old(emitted) + effect.emitted
      ensures old(Valid()) ==> Valid()
    {
      ghost var e0 := State();
      var id := obj.appIdentifier;
      applications := applications[id := obj];
      faulted := false;
      if id in applicationNotificationQueue {
        AppAttributesDrain(e0, obj);
        faulted := DrainQueue(id);
        if !faulted {
          applicationNotificationQueue := applicationNotificationQueue - {id};
        }
      }
    }

    /**
     * A response for a stored notification: when it names an app whose
     * attributes are not cached it is queued behind that app and the app's
     * display name is requested; otherwise its event is raised at once.
     */
    method NotificationAttributesReceived(attributes: NotificationAttributeCollection)
      modifies this`applicationNotificationQueue, this`notifications, this`requests, this`emitted
      ensures var effect := OnNotificationAttributes(old(State()), attributes);
        && State() == effect.engine
        && requests == old(requests) + effect.requests
        && emitted == old(emitted) + effect.emitted
      ensures old(Valid()) ==> Valid()
    {
      if attributes.notificationUid !in notifications {
        return;
      }
      if AppIdentifier in attributes.attributes {
        var appIdentifier := attributes.attributes[AppIdentifier];
        if appIdentifier !in applications {
          if appIdentifier !in applicationNotificationQueue {
            applicationNotificationQueue := applicationNotificationQueue[appIdentifier := []];
          }
          applicationNotificationQueue := applicationNotificationQueue[appIdentifier := applicationNotificationQueue[appIdentifier] + [attributes]];
          requests := requests + [GetAppAttributes(appIdentifier, [DisplayName])];
          return;
        }
      }
      var thrown := RaiseNotificationEvent(attributes);
    }

    /**
     * A Notification Source record: ignored for UID 0 or PreExisting; a removal
     * forgets the UID and raises Removed; anything else is stored under its UID
     * and its attributes are requested.
     */
    method NotificationSourceValueChanged(obj: NotificationSourceData)
      modifies this`notifications, this`requests, this`emitted
      ensures var effect := OnSourceEvent(old(State()), obj);
        && State() == effect.engine
        && requests == old(requests) + effect.requests
        && emitted == old(emitted) + effect.emitted
      ensures old(Valid()) ==> Valid()
    {
      if obj.notificationUid == 0 {
        return;
      }
      if HasFlag(obj.eventFlags, EventFlagPreExisting) {
        return;
      }
      if obj.eventId == EventIdNotificationRemoved {
        if obj.notificationUid in notifications {
          notifications := notifications - {obj.notificationUid};
        }
        emitted := emitted + [NotificationRemoved(obj)];
        return;
      }
      notifications := notifications[obj.notificationUid := obj];
      var attributeIds := [AppIdentifier, Title, Message];
      if HasFlag(obj.eventFlags, EventFlagPositiveAction) {
        attributeIds := attributeIds + [PositiveActionLabel];
      }
      if HasFlag(obj.eventFlags, EventFlagNegativeAction) {
        attributeIds := attributeIds + [NegativeActionLabel];
      }
      assert attributeIds == RequestedAttributeIds(obj.eventFlags);
      requests := requests + [GetNotificationAttributes(obj.notificationUid, attributeIds)];
    }
  }
}
