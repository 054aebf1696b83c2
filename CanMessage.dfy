/**
 * The bus frame (`CANMessage` of the ACAN_ESP32 driver) and the driver's
 * non-blocking transmit primitive.
 */
module CanMessage {
  import opened Bits

  /** Payload capacity of a classic CAN frame. */
  const PAYLOAD: nat := 8

  /**
   * A bus frame: identifier, extended/standard flag, remote/data flag, the
   * number of meaningful payload bytes and the eight payload bytes.
   */
  datatype Message = Message(id: UInt32, ext: bool, rtr: bool, len: Byte, data: seq<Byte>)

  /** Frames as the driver hands them out: always eight payload bytes, at most eight of them meaningful. */
  type Frame = m: Message | |m.data| == PAYLOAD && m.len <= PAYLOAD
    witness Message(0, false, false, 0, [0, 0, 0, 0, 0, 0, 0, 0])

  /** `CANMessage{}`: the value-initialised frame, all fields zero. */
  function Empty(): (f: Frame)
    ensures f.id == 0 && !f.ext && !f.rtr && f.len == 0
    ensures forall i :: 0 <= i < PAYLOAD ==> f.data[i] == 0
  {
    Message(0, false, false, 0, [0, 0, 0, 0, 0, 0, 0, 0])
  }

  /**
   * `now - since` on 32-bit unsigned millisecond counters: the time elapsed
   * since `since`, counted across a wrap of the counter.
   */
  function Elapsed(now: UInt32, since: UInt32): (d: UInt32)
    ensures (since + d) % WORD32 == now
    ensures since <= now ==> d == now - since
  {
    (now - since) % WORD32
  }

  /**
   * The transmit side of the driver (`ACAN_ESP32::can.tryToSend`). Whether
   * the driver accepts a frame depends on its buffers, which are not part of
   * this model, so the driver's verdict is an input; every frame handed to
   * it is recorded in `attempts` and the accepted ones in `sent`.
   */
  class Transport {
    var attempts: seq<Frame>
    var sent: seq<Frame>

    constructor ()
      ensures attempts == [] && sent == []
    {
      attempts, sent := [], [];
    }

    method TryToSend(f: Frame, accepted: bool) returns (ok: bool)
      modifies this
      ensures ok == accepted
      ensures attempts == old(attempts) + [f]
      ensures sent == old(sent) + (if accepted then [f] else [])
    {
      attempts := attempts + [f];
      if accepted {
        sent := sent + [f];
      }
      ok := accepted;
    }
  }
}
