/**
 * What the Notification Source and Data Source wrappers share: the outcome of
 * a write to a characteristic's Client Characteristic Configuration
 * Descriptor (CCCD), the two values they write to it, and the record of
 * attaching and detaching their handler on the GATT characteristic's
 * ValueChanged event.
 */
module Subscription {

  /** GattCommunicationStatus, the result of a completed GATT write. */
  datatype GattCommunicationStatus = Success | Unreachable | ProtocolError | AccessDenied

  /** How a CCCD write ends: it completes with a status, or it throws. */
  datatype WriteOutcome = Completed(status: GattCommunicationStatus) | Threw

  /** The values written to the CCCD: notifications off, or on. */
  datatype CccdValue = CccdNone | CccdNotify

  /** One `+=` or `-=` of the wrapper's handler on the characteristic's ValueChanged event. */
  datatype HandlerOp = Attach | Detach

  /**
   * The handler log alternates Attach, Detach, Attach, ...: the handler is never
   * attached while already attached and never detached while absent.
   */
  ghost predicate Alternating(ops: seq<HandlerOp>) {
    forall i :: 0 <= i < |ops| ==> ops[i] == (if i % 2 == 0 then Attach else Detach)
  }

  /** After an alternating log the handler is attached iff the log has odd length. */
  ghost predicate AttachedAfter(ops: seq<HandlerOp>) {
    |ops| % 2 == 1
  }
}
