# IPhoneNotifications ANCS client, modelled in Dafny

This project models the client side of the Apple Notification Center Service (ANCS) in
IPhoneNotifications: the code that reads an iPhone's notifications over Bluetooth LE. It proves
properties of three parts of the client:

- **The Notification Source wrapper** (`notification_source.dfy`).
  - The 8-byte Notification Source record: EventID, EventFlags, CategoryID, CategoryCount and a
    little-endian 32-bit NotificationUID. It has a decoder and its encoder, and a round trip is
    proved both ways.
  - The filter that drops records flagged PreExisting.
  - The wrapper object: its handler-registration flag and its subscribe and unsubscribe state
    machine.
- **The Data Source wrapper** (`data_source.dfy`).
  - Each response buffer is dispatched on its first byte, the CommandID.
  - The same subscribe state machine. Here a throwing CCCD write also detaches the handler.
- **The notification consumer** (`correlation.dfy`, `notification_consumer.dfy`).
  - It correlates Notification Source records, notification-attribute responses and
    app-attribute responses through three dictionaries:
    - the last record per UID;
    - the cached app attributes per app identifier;
    - the per-app queue of responses waiting for that app's attributes.
  - `correlation.dfy` states each handler as a function from a state to an `Effect`: the next
    state, the Control Point requests issued, the events raised, and whether the handler threw.
  - `notification_consumer.dfy` is the consumer as a class. Its three dictionaries are updated in
    place, and each handler method is proved to do exactly what the matching function does. The
    drain of an app's queue is a `while` loop proved against the recursive `Drain` function.

`ancs_types.dfy` holds the shared values: bytes, 32-bit UIDs and the ANCS codes.
`subscription.dfy` holds the CCCD write outcome and the handler attach/detach log.

ANCS codes used:

- EventID: Added 0, Modified 1, Removed 2.
- EventFlags bits: Silent 1, Important 2, PreExisting 4, PositiveAction 8, NegativeAction 16.
- CommandID: GetNotificationAttributes 0, GetAppAttributes 1, PerformNotificationAction 2.

The C# enum declarations are not part of this model, so these values are the ones the ANCS
specification assigns. EventID and EventFlags are kept as raw bytes, as a C# enum field can hold
any byte. `HasFlag` is `Enum.HasFlag`: every bit of the flag is set.

### Behaviour as the code has it

The model follows the consumer's code, including these behaviours, which a reader might expect
to be otherwise:

- **No single-flight.** Every response that arrives for an app whose attributes are not cached
  issues its own `GetAppAttributes` request (NotificationConsumer.cs:338-358).
  `Correlation.RepeatedResponsesBeforeAppResolution` shows the result: two responses for one
  notification both queue and both request, and the later drain throws. When the app had no queue
  before, the first response is raised and the lookup for the second one throws.
- **A removal does not purge the app queues.** It only forgets the UID
  (NotificationConsumer.cs:388-397). `Correlation.RemovedWhileQueuedFaults` shows the result: a
  queued response for a removed UID makes the next drain of that app throw.
- **A PreExisting Removed record is dropped** like any other PreExisting record
  (NotificationConsumer.cs:382-385).
- **The kind of event raised is the stored record's EventID.** A first surfaced event is not
  turned into Added (NotificationConsumer.cs:283-295). `Correlation.NewNotificationOfUnknownApp`
  raises a Modified record as Modified.
- **The lookup at NotificationConsumer.cs:281 throws for a UID that is not stored.** The model
  keeps that as an explicit `faulted` result. A drain that throws leaves exactly the state the
  exception leaves:
  - the app is cached;
  - the responses dequeued before the throw are raised and their records forgotten;
  - the queue stays registered with the responses not yet dequeued.

  `Correlation.DrainFaultedPrefix` proves the last two points about the drain, and
  `Correlation.OnAppAttributes` proves the first.

## Model

| member | source | states |
|---|---|---|
| NotificationSourceChannel.Decode | IPhoneNotifications/AppleNotificationCenterService/NotificationSource.cs:141-148 | a packet of at least 8 bytes decodes, from its first 8 bytes, to EventID = byte 0, EventFlags = byte 1, CategoryID = byte 2, CategoryCount = byte 3, and UID = b4 + 256·b5 + 65536·b6 + 16777216·b7 (the packed struct layout, little-endian UID) |
| NotificationSourceChannel.Encode | IPhoneNotifications/AppleNotificationCenterService/NotificationSource.cs:14-23 | a record is laid out as 8 bytes, the four one-byte header fields first, in declaration order |
| NotificationSourceChannel.DecodeEncode | IPhoneNotifications/AppleNotificationCenterService/NotificationSource.cs:14-23 | decoding the encoding of any record gives the record back |
| NotificationSourceChannel.EncodeDecode | IPhoneNotifications/AppleNotificationCenterService/NotificationSource.cs:141-148 | encoding the decoding of any packet of at least 8 bytes gives back its first 8 bytes, so the decoder loses nothing of the record |
| NotificationSourceChannel.LittleEndianRoundTrip | IPhoneNotifications/AppleNotificationCenterService/NotificationSource.cs:22 | reading back the n little-endian bytes written for a value below 256^n gives the value |
| NotificationSourceChannel.LittleEndianBytesRoundTrip | IPhoneNotifications/AppleNotificationCenterService/NotificationSource.cs:22 | writing back the value read from n bytes gives the same n bytes |
| NotificationSourceChannel.FromLittleEndian | IPhoneNotifications/AppleNotificationCenterService/NotificationSource.cs:22 | the value of n little-endian bytes is below 256^n, so four bytes fit a UInt32 |
| NotificationSourceChannel.Forwarded | IPhoneNotifications/AppleNotificationCenterService/NotificationSource.cs:63-75 | a packet is passed on at most once; nothing is passed on exactly when its flags byte has the PreExisting bit; what is passed on is the record held in the packet's first 8 bytes |
| NotificationSourceChannel.NotificationSource.constructor | IPhoneNotifications/AppleNotificationCenterService/NotificationSource.cs:25-43 | a new wrapper has its handler detached, nothing written and nothing raised |
| NotificationSourceChannel.NotificationSource.AddValueChangedHandler | IPhoneNotifications/AppleNotificationCenterService/NotificationSource.cs:45-52 | afterwards the flag is set; the handler is attached only on the unset-to-set transition, so it is never attached twice |
| NotificationSourceChannel.NotificationSource.RemoveValueChangedHandler | IPhoneNotifications/AppleNotificationCenterService/NotificationSource.cs:54-61 | afterwards the flag is clear; the handler is detached only on the set-to-clear transition |
| NotificationSourceChannel.NotificationSource.GattCharacteristicValueChanged | IPhoneNotifications/AppleNotificationCenterService/NotificationSource.cs:63-75 | the subscribers receive exactly `Forwarded(packet)` appended to what they received before |
| NotificationSourceChannel.NotificationSource.UnsubscribeAsync | IPhoneNotifications/AppleNotificationCenterService/NotificationSource.cs:77-98 | the handler ends detached and None is written to the CCCD; the result is false only for a write completing with a status other than Success, and a throwing write still returns true |
| NotificationSourceChannel.NotificationSource.SubscribeAsync | IPhoneNotifications/AppleNotificationCenterService/NotificationSource.cs:100-139 | without the Notify property nothing is written and false is returned; otherwise Notify is written, the result is true exactly when the write completes with Success, the handler is attached only then, and a failed or throwing write leaves the flag as it was |
| DataSourceChannel.Dispatch | IPhoneNotifications/AppleNotificationCenterService/DataSource.cs:114-129 | CommandID GetAppAttributes raises exactly one ApplicationAttributesReceived, GetNotificationAttributes exactly one NotificationAttributesReceived, and PerformNotificationAction or any other code nothing; each event carries the buffer |
| DataSourceChannel.DataSource.constructor | IPhoneNotifications/AppleNotificationCenterService/DataSource.cs:13-24 | a new wrapper has its handler detached, nothing written and nothing raised |
| DataSourceChannel.DataSource.AddValueChangedHandler | IPhoneNotifications/AppleNotificationCenterService/DataSource.cs:34-41 | afterwards the flag is set; the handler is attached only on the unset-to-set transition |
| DataSourceChannel.DataSource.RemoveValueChangedHandler | IPhoneNotifications/AppleNotificationCenterService/DataSource.cs:43-50 | afterwards the flag is clear; the handler is detached only on the set-to-clear transition |
| DataSourceChannel.DataSource.UnsubscribeAsync | IPhoneNotifications/AppleNotificationCenterService/DataSource.cs:52-73 | the handler ends detached and None is written; false only for a completed non-Success write |
| DataSourceChannel.DataSource.SubscribeAsync | IPhoneNotifications/AppleNotificationCenterService/DataSource.cs:75-112 | without Notify nothing is written and false is returned; true exactly for a Success write, which leaves the handler attached; a non-Success write leaves the flag unchanged; a throwing write detaches the handler |
| DataSourceChannel.DataSource.GattCharacteristicValueChanged | IPhoneNotifications/AppleNotificationCenterService/DataSource.cs:114-129 | the subscribers receive exactly `Dispatch(buffer)` appended to what they received before |
| Correlation.RequestedAttributeIds | IPhoneNotifications/AppleNotificationCenterService/NotificationConsumer.cs:410-423 | the attributes requested start with AppIdentifier, Title, Message; PositiveActionLabel is among them iff the PositiveAction flag is set, NegativeActionLabel iff the NegativeAction flag is set, the negative label after the positive one, no attribute twice, and nothing after the first three but the two action labels |
| Correlation.Raise | IPhoneNotifications/AppleNotificationCenterService/NotificationConsumer.cs:279-299 | the lookup fails exactly when the UID is not stored; otherwise the other records are kept, and for records keyed by UID that UID and only it is forgotten; at most one event is raised: Added for a stored Added record, Modified for a stored Modified record, Removed for a stored Removed record, none for any other EventID, always about the stored record |
| Correlation.Drain | IPhoneNotifications/AppleNotificationCenterService/NotificationConsumer.cs:313-318 | a drain only forgets records and keeps the others unchanged, raises at most one event per queued response, empties the queue unless it throws, and a throw happens after at least one dequeue |
| Correlation.DrainLeavesSuffix | IPhoneNotifications/AppleNotificationCenterService/NotificationConsumer.cs:313-318 | what a drain leaves in the queue is the queue's own tail: the responses not yet dequeued, in order |
| Correlation.DrainFaultsIff | IPhoneNotifications/AppleNotificationCenterService/NotificationConsumer.cs:279-318 | for records keyed by UID, a drain throws exactly when some queued UID is not stored or two queued responses carry the same UID |
| Correlation.DrainRaisesInOrder | IPhoneNotifications/AppleNotificationCenterService/NotificationConsumer.cs:313-318 | a drain of stored, distinct, announced UIDs does not throw and raises one event per response, in queue order, each of the kind its stored record names |
| Correlation.DrainForgetsQueued | IPhoneNotifications/AppleNotificationCenterService/NotificationConsumer.cs:279-318 | a drain of stored, distinct UIDs forgets exactly the queued UIDs and keeps every other record |
| Correlation.DrainEmitsAll | IPhoneNotifications/AppleNotificationCenterService/NotificationConsumer.cs:279-318 | for records keyed by UID, a drain of stored, distinct UIDs raises, in queue order, the event each response's stored record calls for (Added, Modified, Removed, or none for another EventID), chosen from the records as they were before the drain |
| Correlation.DrainFaultedPrefix | IPhoneNotifications/AppleNotificationCenterService/NotificationConsumer.cs:279-318 | for records keyed by UID, a drain that throws has dequeued some prefix of the queue and one more response: the prefix has stored, distinct UIDs, its events are raised in order and exactly its UIDs forgotten, the response after it names a UID no longer stored, and the queue keeps the rest |
| Correlation.OnSourceEvent | IPhoneNotifications/AppleNotificationCenterService/NotificationConsumer.cs:372-434 | a record with UID 0 or the PreExisting flag, even a removal, changes nothing and issues and raises nothing; a removal forgets its UID, known or not, keeps the other records and raises exactly one Removed with no request; any other record is stored under its UID, keeps the other records and issues exactly one GetNotificationAttributes for the requested attributes; the app cache and queues never change; one record per UID, the consistency invariant and the settled invariant are preserved |
| Correlation.OnNotificationAttributes | IPhoneNotifications/AppleNotificationCenterService/NotificationConsumer.cs:324-365 | a response for a UID not stored changes nothing; one naming an app that is not cached is appended to that app's queue, the queue created empty when absent, other queues unchanged, and one GetAppAttributes(app, [DisplayName]) is issued on every such arrival; otherwise the stored record's event is raised at once, its UID forgotten and every other record kept unchanged; the invariants are preserved |
| Correlation.OnAppAttributes | IPhoneNotifications/AppleNotificationCenterService/NotificationConsumer.cs:301-322 | the app's attributes are cached, replaced or added, other apps unchanged; without a queue nothing else changes; with one, the drain throws exactly when a queued UID is missing or repeated, a completed drain removes the app's queue, other queues are unchanged, and the invariant is preserved (the settled invariant when nothing throws) |
| Correlation.FaultedStateConsistent | IPhoneNotifications/AppleNotificationCenterService/NotificationConsumer.cs:301-322 | the state a throwing drain leaves (app cached, queue cut to the responses not dequeued) keeps the consistency invariant |
| Correlation.DrainedStateConsistent | IPhoneNotifications/AppleNotificationCenterService/NotificationConsumer.cs:301-322 | the state a completed drain leaves (app cached, queue removed) keeps the consistency invariant |
| Correlation.DrainedStateSettled | IPhoneNotifications/AppleNotificationCenterService/NotificationConsumer.cs:301-322 | after a completed drain every remaining queue is still non-empty and waits for an app that is not cached |
| Correlation.RemovedWhileQueuedFaults | IPhoneNotifications/AppleNotificationCenterService/NotificationConsumer.cs:388-397 | since a removal does not purge the queues, removing a UID that has a queued response makes the next drain of that app throw |
| Correlation.RepeatedResponsesBeforeAppResolution | IPhoneNotifications/AppleNotificationCenterService/NotificationConsumer.cs:338-358 | two responses for one notification before its app resolves each issue GetAppAttributes (no single-flight), and the drain then throws; when the app had no queue before, the first response is raised and the lookup for the second throws, leaving nothing queued |
| Correlation.QueuedBehindUnknownApp | IPhoneNotifications/AppleNotificationCenterService/NotificationConsumer.cs:338-358 | the response of a stored notification whose app is neither cached nor queued becomes that app's only queued response, with one app request and no event |
| Correlation.SingleQueuedResponseRaised | IPhoneNotifications/AppleNotificationCenterService/NotificationConsumer.cs:301-322 | an app's attributes raise its single queued response as the stored record's kind, forget the record, cache the app and remove its queue, without throwing |
| Correlation.DrainSingle | IPhoneNotifications/AppleNotificationCenterService/NotificationConsumer.cs:313-318 | draining one response whose UID is stored raises that record's event, forgets the UID and leaves nothing queued |
| Correlation.NewNotificationOfUnknownApp | IPhoneNotifications/AppleNotificationCenterService/NotificationConsumer.cs:301-434 | a new Added or Modified notification of an unknown app, taken through the three handlers, issues GetNotificationAttributes, then GetAppAttributes, then raises exactly one event of the record's own kind; afterwards the record is forgotten, the app cached and no queue left |
| Consumer.NotificationConsumer.constructor | IPhoneNotifications/AppleNotificationCenterService/NotificationConsumer.cs:43-50 | the consumer starts with three empty dictionaries, which satisfy the invariant |
| Consumer.NotificationConsumer.RaiseNotificationEvent | IPhoneNotifications/AppleNotificationCenterService/NotificationConsumer.cs:279-299 | the dictionary and the event log change exactly as `Raise` says; a UID that is not stored throws and changes nothing |
| Consumer.NotificationConsumer.DrainQueue | IPhoneNotifications/AppleNotificationCenterService/NotificationConsumer.cs:313-318 | the `while` loop dequeues and raises exactly as `Drain` says: records, events, remaining queue and throw |
| Consumer.NotificationConsumer.ApplicationAttributesReceived | IPhoneNotifications/AppleNotificationCenterService/NotificationConsumer.cs:301-322 | the dictionaries, the event log and the throw are exactly those of `OnAppAttributes`, and the invariant is kept |
| Consumer.NotificationConsumer.NotificationAttributesReceived | IPhoneNotifications/AppleNotificationCenterService/NotificationConsumer.cs:324-365 | the dictionaries, the request log and the event log change exactly as `OnNotificationAttributes` says, and the invariant is kept |
| Consumer.NotificationConsumer.NotificationSourceValueChanged | IPhoneNotifications/AppleNotificationCenterService/NotificationConsumer.cs:372-434 | the dictionaries, the request log and the event log change exactly as `OnSourceEvent` says, and the invariant is kept |

## Left out

- Device connection and teardown are transport I/O over the Bluetooth LE device and GATT APIs.
  Not modelled: `Connect`, `ClearBluetoothLEDevice`, `BluetoothLeDevice_ConnectionStatusChanged`
  and the `subscribedForNotifications` flag (NotificationConsumer.cs:58-254).
- Toast activation is a UI entry point that relies on an external query-string library. Not
  modelled: `OnToastNotificationReceived` and the static `OnToastNotification` delegate
  (NotificationConsumer.cs:39, 256-277), and with them the PerformNotificationAction request.
- Service and characteristic GUIDs, `Debug.WriteLine` logging, and the `GCHandle` pinning around
  the struct read carry no behaviour to prove.
- ControlPoint.cs, NotificationAttributeCollection.cs and ApplicationAttributeCollection.cs are not
  part of this model.
  - An attribute response is a UID or app identifier plus a map from attribute to string; the TLV
    parsing of a Data Source buffer is not modelled.
  - A Control Point request is appended to a log. The encoding of the command is not modelled, and
    neither is the GattCommunicationStatus the code awaits and discards. A failing request is
    caught and logged, so the log records every request issued.
- `async`/`await`, WinRT events and thread interleaving are not modelled. Each handler changes the
  dictionaries only before its first `await`, so each handler is modelled as one atomic step.
- Event delivery to subscribers is not modelled. A raised event is appended to a log whether or
  not any subscriber is attached, and exceptions thrown by subscribers are not modelled.
- The outcome of a CCCD write and the characteristic's Notify property are inputs, because the GATT
  characteristic is not part of this model.
- NotificationSourceChannel.Decode: requires at least 8 bytes, the size of an ANCS Notification
  Source record. The struct read never checks the length: a longer buffer is read for its first
  8 bytes, which the model does, and a shorter one is read past its end, which the model cannot
  represent.
- DataSourceChannel.Dispatch: requires a non-empty buffer, because `GetByte(0)` on an empty buffer
  throws and that exception is not modelled.
- The local `applicationAttributes` (NotificationConsumer.cs:332, 361) is assigned and never read,
  so the model has no counterpart.
- Consumer.NotificationConsumer.DrainQueue: the queue is a value, not a shared `Queue` object.
  - The method writes the shrunk queue back under its app identifier once, after the loop, rather
    than on every dequeue. Nothing reads the queue while the loop runs, so the final state is the
    same.
  - Object identity of the queue is not modelled.
