/**
 * The Notification Source characteristic of ANCS: the fixed 8-byte record
 * announcing that a notification was added, modified or removed, its decoding,
 * the filter that drops pre-existing notifications, and the wrapper object
 * that subscribes to the characteristic.
 */
module NotificationSourceChannel {
  import opened AncsTypes
  import opened Subscription

  /**
   * One Notification Source record, laid out without padding:
   * EventID, EventFlags, CategoryID, CategoryCount (one byte each), then the
   * notification's UID as a little-endian 32-bit unsigned integer.
   */
  datatype NotificationSourceData = NotificationSourceData(
    eventId: byte,
    eventFlags: byte,
    categoryId: byte,
    categoryCount: byte,
    notificationUid: u32)

  /** Size of a record on the wire. */
  const RecordLength: nat := 8

  function Pow256(n: nat): (p: nat)
    ensures p > 0
  {
    if n == 0 then 1 else 256 * Pow256(n - 1)
  }

  lemma Pow256Four()
    ensures Pow256(4) == 0x1_0000_0000
  {
  }

  /** The unsigned integer whose little-endian bytes are `bs` (least significant first). */
  function FromLittleEndian(bs: seq<byte>): (x: nat)
    ensures x < Pow256(|bs|)
  {
    if bs == [] then 0 else bs[0] as nat + 256 * FromLittleEndian(bs[1..])
  }

  /** The `n` little-endian bytes of `x`, least significant first. */
  function ToLittleEndian(x: nat, n: nat): (bs: seq<byte>)
    ensures |bs| == n
  {
    if n == 0 then [] else [(x % 256) as byte] + ToLittleEndian(x / 256, n - 1)
  }

  /** Reading back the `n` bytes written for a value that fits in them gives the value. */
  lemma {:induction false} LittleEndianRoundTrip(x: nat, n: nat)
    requires x < Pow256(n)
    ensures FromLittleEndian(ToLittleEndian(x, n)) == x
  {
    if n > 0 {
      var bs := ToLittleEndian(x, n);
      assert bs[1..] == ToLittleEndian(x / 256, n - 1);
      LittleEndianRoundTrip(x / 256, n - 1);
    }
  }

  /** Writing back the value read from some bytes gives the same bytes. */
  lemma {:induction false} LittleEndianBytesRoundTrip(bs: seq<byte>)
    ensures ToLittleEndian(FromLittleEndian(bs), |bs|) == bs
  {
    if bs != [] {
      var x := FromLittleEndian(bs);
      var rest := FromLittleEndian(bs[1..]);
      assert x == bs[0] as nat + 256 * rest;
      assert x % 256 == bs[0] as nat && x / 256 == rest;
      LittleEndianBytesRoundTrip(bs[1..]);
    }
  }

  /** A 4-byte little-endian value written out as a sum of weighted bytes. */
  lemma FromLittleEndianFour(bs: seq<byte>)
    requires |bs| == 4
    ensures FromLittleEndian(bs)
      == bs[0] as int + 0x100 * bs[1] as int + 0x1_0000 * bs[2] as int + 0x100_0000 * bs[3] as int
  {
    assert bs[1..][1..][1..][1..] == [];
    calc {
      FromLittleEndian(bs);
      bs[0] as int + 256 * FromLittleEndian(bs[1..]);
      bs[0] as int + 256 * (bs[1] as int + 256 * FromLittleEndian(bs[1..][1..]));
      bs[0] as int + 256 * (bs[1] as int + 256 * (bs[2] as int + 256 * FromLittleEndian(bs[1..][1..][1..])));
      bs[0] as int + 256 * (bs[1] as int + 256 * (bs[2] as int + 256 * (bs[3] as int + 256 * FromLittleEndian(bs[1..][1..][1..][1..]))));
    }
  }

  /**
   * Reinterprets the first 8 bytes of a packet as a record, as the
   * pinned-memory structure read of the wrapper does; bytes past the record
   * are ignored. The source never checks the length, so a packet shorter than
   * a record is read past its end, which is outside what the model can state.
   */
  function Decode(packet: seq<byte>): (d: NotificationSourceData)
    requires |packet| >= RecordLength
    ensures d.eventId == packet[0] && d.eventFlags == packet[1]
    ensures d.categoryId == packet[2] && d.categoryCount == packet[3]
    ensures d.notificationUid as int
      == packet[4] as int + 0x100 * packet[5] as int + 0x1_0000 * packet[6] as int + 0x100_0000 * packet[7] as int
  {
    var uidBytes := packet[4..8];
    Pow256Four();
    FromLittleEndianFour(uidBytes);
    NotificationSourceData(packet[0], packet[1], packet[2], packet[3], FromLittleEndian(uidBytes) as u32)
  }

  /** The 8 bytes of a record, in the layout Decode reads. */
  function Encode(d: NotificationSourceData): (packet: seq<byte>)
    ensures |packet| == RecordLength
    ensures packet[..4] == [d.eventId, d.eventFlags, d.categoryId, d.categoryCount]
  {
    [d.eventId, d.eventFlags, d.categoryId, d.categoryCount] + ToLittleEndian(d.notificationUid as nat, 4)
  }

  lemma DecodeEncode(d: NotificationSourceData)
    ensures Decode(Encode(d)) == d
  {
    var packet := Encode(d);
    assert packet[4..8] == ToLittleEndian(d.notificationUid as nat, 4);
    Pow256Four();
    LittleEndianRoundTrip(d.notificationUid as nat, 4);
  }

  /** Encoding the decoded record gives back the record's bytes of the packet. */
  lemma EncodeDecode(packet: seq<byte>)
    requires |packet| >= RecordLength
    ensures Encode(Decode(packet)) == packet[..RecordLength]
  {
    var uidBytes := packet[4..8];
    LittleEndianBytesRoundTrip(uidBytes);
    assert packet[..RecordLength] == packet[..4] + uidBytes;
  }

  /**
   * The records the wrapper passes on to its ValueChanged subscribers for one
   * packet: none when the record is flagged PreExisting, otherwise the decoded
   * record itself, once.
   */
  function Forwarded(packet: seq<byte>): (r: seq<NotificationSourceData>)
    requires |packet| >= RecordLength
    ensures |r| <= 1
    ensures r == [] <==> HasFlag(packet[1], EventFlagPreExisting)
    ensures forall d :: d in r ==> Encode(d) == packet[..RecordLength]
  {
    var d := Decode(packet);
    EncodeDecode(packet);
    if HasFlag(d.eventFlags, EventFlagPreExisting) then [] else [d]
  }

  /**
   * The wrapper around the Notification Source characteristic. Its handler on
   * the characteristic's ValueChanged event is attached and detached through
   * one flag, so that it is never attached twice.
   */
  class NotificationSource {
    /** Whether the characteristic's properties include Notify. */
    const notifyProperty: bool
    var isValueChangedHandlerRegistered: bool
    /** Every attach and detach of the handler on the characteristic, in order. */
    var handlerOps: seq<HandlerOp>
    /** Every value written to the characteristic's CCCD, in order. */
    var cccdWrites: seq<CccdValue>
    /** Every record passed to the ValueChanged subscribers, in order. */
    var raised: seq<NotificationSourceData>

    ghost predicate Valid()
      reads this
    {
      Alternating(handlerOps) && isValueChangedHandlerRegistered == AttachedAfter(handlerOps)
    }

    constructor (notifyProperty: bool)
      ensures Valid() && this.notifyProperty == notifyProperty
      ensures !isValueChangedHandlerRegistered
      ensures handlerOps == [] && cccdWrites == [] && raised == []
    {
      this.notifyProperty := notifyProperty;
      isValueChangedHandlerRegistered := false;
      handlerOps := [];
      cccdWrites := [];
      raised := [];
    }

    method AddValueChangedHandler()
      requires Valid()
      modifies this`isValueChangedHandlerRegistered, this`handlerOps
      ensures Valid() && isValueChangedHandlerRegistered
      ensures handlerOps == if old(isValueChangedHandlerRegistered) then old(handlerOps) else old(handlerOps) + [Attach]
    {
      if !isValueChangedHandlerRegistered {
        handlerOps := handlerOps + [Attach];
        isValueChangedHandlerRegistered := true;
      }
    }

    method RemoveValueChangedHandler()
      requires Valid()
      modifies this`isValueChangedHandlerRegistered, this`handlerOps
      ensures Valid() && !isValueChangedHandlerRegistered
      ensures handlerOps == if old(isValueChangedHandlerRegistered) then old(handlerOps) + [Detach] else old(handlerOps)
    {
      if isValueChangedHandlerRegistered {
        handlerOps := handlerOps + [Detach];
        isValueChangedHandlerRegistered := false;
      }
    }

    /**
     * The handler the characteristic runs for each notified value while the
     * handler is attached.
     */
    method GattCharacteristicValueChanged(packet: seq<byte>)
      requires Valid() && isValueChangedHandlerRegistered
      requires |packet| >= RecordLength
      modifies this`raised
      ensures raised == old(raised) + Forwarded(packet)
    {
      var dat := Decode(packet);
      if HasFlag(dat.eventFlags, EventFlagPreExisting) {
        return;
      }
      raised := raised + [dat];
    }

    /**
     * Detaches the handler, then writes None to the CCCD. Only a write that
     * completes with a status other than Success reports failure; a write that
     * throws is logged and reported as success.
     */
    method UnsubscribeAsync(outcome: WriteOutcome) returns (ok: bool)
      requires Valid()
      modifies this`isValueChangedHandlerRegistered, this`handlerOps, this`cccdWrites
      ensures Valid() && !isValueChangedHandlerRegistered
      ensures ok <==> !(outcome.Completed? && outcome.status != Success)
      ensures handlerOps == if old(isValueChangedHandlerRegistered) then old(handlerOps) + [Detach] else old(handlerOps)
      ensures cccdWrites == old(cccdWrites) + [CccdNone]
    {
      RemoveValueChangedHandler();
      cccdWrites := cccdWrites + [CccdNone];
      if outcome.Completed? && outcome.status != Success {
        return false;
      }
      return true;
    }

    /**
     * Writes Notify to the CCCD when the characteristic supports it and
     * attaches the handler once the write succeeds. A failed or throwing write
     * reports false and leaves the handler as it was.
     */
    method SubscribeAsync(outcome: WriteOutcome) returns (ok: bool)
      requires Valid()
      modifies this`isValueChangedHandlerRegistered, this`handlerOps, this`cccdWrites
      ensures Valid()
      ensures ok <==> notifyProperty && outcome == Completed(Success)
      ensures cccdWrites == if notifyProperty then old(cccdWrites) + [CccdNotify] else old(cccdWrites)
      ensures isValueChangedHandlerRegistered == (ok || old(isValueChangedHandlerRegistered))
      ensures handlerOps == if ok && !old(isValueChangedHandlerRegistered) then old(handlerOps) + [Attach] else old(handlerOps)
    {
      if !notifyProperty {
        return false;
      }
      cccdWrites := cccdWrites + [CccdNotify];
      match outcome {
        case Threw =>
          return false;
        case Completed(status) =>
          if status != Success {
            return false;
          }
          AddValueChangedHandler();
      }
      return true;
    }
  }
}
