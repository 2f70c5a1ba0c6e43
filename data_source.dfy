/**
 * The Data Source characteristic of ANCS: responses to Control Point commands
 * arrive here, and the wrapper routes each one by its first byte, the
 * CommandID, to the subscribers of notification attributes or of app
 * attributes.
 */
module DataSourceChannel {
  import opened AncsTypes
  import opened Subscription

  /**
   * An event the wrapper raises for one response, with the buffer the
   * attribute collection is built from.
   */
  datatype DataSourceEvent =
    | NotificationAttributesReceived(buffer: seq<byte>)
    | ApplicationAttributesReceived(buffer: seq<byte>)

  /**
   * The events raised for one response buffer: exactly one, of the kind named
   * by its CommandID, for the two attribute commands, and none for
   * PerformNotificationAction or any other code.
   */
  function Dispatch(buffer: seq<byte>): (r: seq<DataSourceEvent>)
    requires |buffer| > 0
    ensures buffer[0] == CommandIdGetAppAttributes ==> r == [ApplicationAttributesReceived(buffer)]
    ensures buffer[0] == CommandIdGetNotificationAttributes ==> r == [NotificationAttributesReceived(buffer)]
    ensures buffer[0] != CommandIdGetAppAttributes && buffer[0] != CommandIdGetNotificationAttributes ==> r == []
    ensures forall ev :: ev in r ==> ev.buffer == buffer
  {
    var commandId := buffer[0];
    if commandId == CommandIdGetAppAttributes then [ApplicationAttributesReceived(buffer)]
    else if commandId == CommandIdGetNotificationAttributes then [NotificationAttributesReceived(buffer)]
    else []
  }

  /**
   * The wrapper around the Data Source characteristic. Attaching and detaching
   * its handler goes through one flag, as for the Notification Source.
   */
  class DataSource {
    /** Whether the characteristic's properties include Notify. */
    const notifyProperty: bool
    var isValueChangedHandlerRegistered: bool
    /** Every attach and detach of the handler on the characteristic, in order. */
    var handlerOps: seq<HandlerOp>
    /** Every value written to the characteristic's CCCD, in order. */
    var cccdWrites: seq<CccdValue>
    /** Every event raised to the wrapper's subscribers, in order. */
    var raised: seq<DataSourceEvent>

    ghost predicate Valid()
      reads this
    {
      Alternating(handlerOps) && isValueChangedHandlerRegistered == AttachedAfter(handlerOps)
    }

    constructor (notifyProperty: bool)
      ensures Valid() && this.notifyProperty == notifyProperty
      ensures !isValueChangedHandlerRegistered
      ensures handlerOps == [] && cccdWrites == [] && raised == []
    {
      this.notifyProperty := notifyProperty;
      isValueChangedHandlerRegistered := false;
      handlerOps := [];
      cccdWrites := [];
      raised := [];
    }

    method AddValueChangedHandler()
      requires Valid()
      modifies this`isValueChangedHandlerRegistered, this`handlerOps
      ensures Valid() && isValueChangedHandlerRegistered
      ensures handlerOps == if old(isValueChangedHandlerRegistered) then old(handlerOps) else old(handlerOps) + [Attach]
    {
      if !isValueChangedHandlerRegistered {
        handlerOps := handlerOps + [Attach];
        isValueChangedHandlerRegistered := true;
      }
    }

    method RemoveValueChangedHandler()
      requires Valid()
      modifies this`isValueChangedHandlerRegistered, this`handlerOps
      ensures Valid() && !isValueChangedHandlerRegistered
      ensures handlerOps == if old(isValueChangedHandlerRegistered) then old(handlerOps) + [Detach] else old(handlerOps)
    {
      if isValueChangedHandlerRegistered {
        handlerOps := handlerOps + [Detach];
        isValueChangedHandlerRegistered := false;
      }
    }

    /**
     * Detaches the handler, then writes None to the CCCD. Only a write that
     * completes with a status other than Success reports failure; a write that
     * throws is logged and reported as success.
     */
    method UnsubscribeAsync(outcome: WriteOutcome) returns (ok: bool)
      requires Valid()
      modifies this`isValueChangedHandlerRegistered, this`handlerOps, this`cccdWrites
      ensures Valid() && !isValueChangedHandlerRegistered
      ensures ok <==> !(outcome.Completed? && outcome.status != Success)
      ensures handlerOps == if old(isValueChangedHandlerRegistered) then old(handlerOps) + [Detach] else old(handlerOps)
      ensures cccdWrites == old(cccdWrites) + [CccdNone]
    {
      RemoveValueChangedHandler();
      cccdWrites := cccdWrites + [CccdNone];
      if outcome.Completed? && outcome.status != Success {
        return false;
      }
      return true;
    }

    /**
     * Writes Notify to the CCCD when the characteristic supports it and
     * attaches the handler once the write succeeds. A write completing with
     * another status leaves the handler as it was; a write that throws
     * detaches it.
     */
    method SubscribeAsync(outcome: WriteOutcome) returns (ok: bool)
      requires Valid()
      modifies this`isValueChangedHandlerRegistered, this`handlerOps, this`cccdWrites
      ensures Valid()
      ensures ok <==> notifyProperty && outcome == Completed(Success)
      ensures cccdWrites == if notifyProperty then old(cccdWrites) + [CccdNotify] else old(cccdWrites)
      ensures isValueChangedHandlerRegistered
        == if ok then true
           else if notifyProperty && outcome.Threw? then false
           else old(isValueChangedHandlerRegistered)
      ensures handlerOps
        == if ok && !old(isValueChangedHandlerRegistered) then old(handlerOps) + [Attach]
           else if notifyProperty && outcome.Threw? && old(isValueChangedHandlerRegistered) then old(handlerOps) + [Detach]
           else old(handlerOps)
    {
      if !notifyProperty {
        return false;
      }
      cccdWrites := cccdWrites + [CccdNotify];
      match outcome {
        case Threw =>
          RemoveValueChangedHandler();
          return false;
        case Completed(status) =>
          if status != Success {
            return false;
          }
          AddValueChangedHandler();
      }
      return true;
    }

    /**
     * The handler the characteristic runs for each notified response while the
     * handler is attached.
     */
    method GattCharacteristicValueChanged(buffer: seq<byte>)
      requires Valid() && isValueChangedHandlerRegistered
      requires |buffer| > 0
      modifies this`raised
      ensures raised == old(raised) + Dispatch(buffer)
    {
      var commandId := buffer[0];
      if commandId == CommandIdGetAppAttributes {
        raised := raised + [ApplicationAttributesReceived(buffer)];
      } else if commandId == CommandIdGetNotificationAttributes {
        raised := raised + [NotificationAttributesReceived(buffer)];
      }
    }
  }
}
