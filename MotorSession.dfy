/**
 * The `Motor` session: one motor on the bus, addressed by its CAN
 * identifier. It owns an outgoing command frame that the setters repack in
 * place, re-sends that frame on a 1 ms cadence while running, decodes the
 * motor's status frame from the receive cache, and sends the special
 * start/stop/re-zero frames (seven 0xFF bytes and a command byte).
 */
module MotorSession {
  import opened Bits
  import opened CanMessage
  import opened MotorCodec
  import opened CanCache

  /** Last byte of the "enter MIT mode" frame. */
  const START_CODE: Byte := 0xFC
  /** Last byte of the "stop motor" frame. */
  const STOP_CODE: Byte := 0xFD
  /** Last byte of the "re-zero position" frame. */
  const REZERO_CODE: Byte := 0xFE

  /** Timeout `isOnline` passes to the cache. */
  const ONLINE_TIMEOUT: UInt32 := 600

  /** A standard eight-byte data frame to `id`: seven 0xFF bytes, then `code`. */
  function Sentinel(id: UInt16, code: Byte): Frame
  {
    Message(id, false, false, 8, seq(7, _ => 0xFF) + [code])
  }

  /**
   * The frame `start`, `stop` and `reZero` each build: fill bytes 0-6
   * with 0xFF in a loop, then set byte 7.
   */
  method BuildSentinel(id: UInt16, code: Byte) returns (f: Frame)
    ensures f.id == id && !f.ext && !f.rtr && f.len == 8
    ensures forall i :: 0 <= i < 7 ==> f.data[i] == 0xFF
    ensures f.data[7] == code
    ensures f == Sentinel(id, code)
  {
    var data := new Byte[8];
    for i := 0 to 7
      invariant forall j :: 0 <= j < i ==> data[j] == 0xFF
    {
      data[i] := 0xFF;
    }
    data[7] := code;
    assert data[..] == seq(7, _ => 0xFF) + [code];
    f := Message(id, false, false, 8, data[..]);
  }

  /**
   * The sentinels are not reserved by the command encoding: a command at
   * the top of every range, with a torque just below its maximum, packs to
   * exactly the payload of the start frame.
   */
  lemma CommandCanSpellStart(id: UInt16)
    ensures PackCommand(P_MAX, V_MAX, KP_MAX, KD_MAX, T_MIN + 4092.0 * (T_MAX - T_MIN) / 4095.0)
         == Sentinel(id, START_CODE).data
  {
    var c := Quantise(P_MAX, V_MAX, KP_MAX, KD_MAX, T_MIN + 4092.0 * (T_MAX - T_MIN) / 4095.0);
    assert c == Command(0xFFFF, 0xFFF, 0xFFF, 0xFFF, 0xFFC);
    PackedBytes(c);
  }

  /** The control modes of `CAN_PACKET_ID`, in declaration order. */
  datatype CanPacketId =
    | SetDuty | SetCurrent | SetCurrentBrake | SetRpm | SetPos | SetOriginHere | SetPosSpd

  datatype Option<T> = None | Some(value: T)

  /** The enumerator's value: its position in the declaration, counting from 0. */
  function PacketCode(p: CanPacketId): (n: nat)
    ensures n <= 6
  {
    match p
    case SetDuty => 0
    case SetCurrent => 1
    case SetCurrentBrake => 2
    case SetRpm => 3
    case SetPos => 4
    case SetOriginHere => 5
    case SetPosSpd => 6
  }

  /** The enumerator with value n, if any. */
  function PacketOf(n: nat): (p: Option<CanPacketId>)
    ensures n <= 6 <==> p.Some?
  {
    if n == 0 then Some(SetDuty)
    else if n == 1 then Some(SetCurrent)
    else if n == 2 then Some(SetCurrentBrake)
    else if n == 3 then Some(SetRpm)
    else if n == 4 then Some(SetPos)
    else if n == 5 then Some(SetOriginHere)
    else if n == 6 then Some(SetPosSpd)
    else None
  }

  /** The values 0..6 name the seven modes one to one. */
  lemma PacketCodeRoundTrip(p: CanPacketId, n: nat)
    ensures PacketOf(PacketCode(p)) == Some(p)
    ensures PacketOf(n) == Some(p) ==> PacketCode(p) == n
  {
  }

  class Motor {
    const canId: UInt16
    /** The shared receive cache, borrowed by reference. */
    const handler: CanHandler
    /** The driver's transmit side. */
    const bus: Transport

    /** Position, velocity and torque from the last decoded status frame. */
    var pOut: real
    var vOut: real
    var iOut: real
    /** Declared and reported, but no operation ever writes them. */
    const temperature: int := 0
    const errorCode: Byte := 0

    var isStopped: bool
    /** The outgoing command frame, owned by the motor. */
    var latestFrame: Frame
    var lastSendTime: UInt32
    const sendInterval: int

    /**
     * The cache is well formed, and every reading lies in its range: the
     * readings start at 0 and are only ever written by decoding a payload.
     */
    predicate Valid()
      reads this, handler
    {
      && handler.Valid()
      && P_MIN <= pOut <= P_MAX && V_MIN <= vOut <= V_MAX && T_MIN <= iOut <= T_MAX
    }

    /** The three decoded readings. */
    function Telemetry(): Feedback
      reads this
    {
      Feedback(pOut, vOut, iOut)
    }

    /** `getPosition()`: the last decoded position, within the position range. */
    function GetPosition(): (r: real)
      reads this, handler
      ensures r == Telemetry().position
      ensures Valid() ==> P_MIN <= r <= P_MAX
    {
      pOut
    }

    /** `getVelocity()`: the last decoded velocity, within the velocity range. */
    function GetVelocity(): (r: real)
      reads this, handler
      ensures r == Telemetry().velocity
      ensures Valid() ==> V_MIN <= r <= V_MAX
    {
      vOut
    }

    /** `getTorque()`: the last decoded torque, within the torque range. */
    function GetTorque(): (r: real)
      reads this, handler
      ensures r == Telemetry().torque
      ensures Valid() ==> T_MIN <= r <= T_MAX
    {
      iOut
    }

    /** `getTemperature()`: always 0, since nothing writes the field. */
    function GetTemperature(): (r: int)
      ensures r == 0
    {
      temperature
    }

    /** `getErrorCode()`: always 0, since nothing writes the field. */
    function GetErrorCode(): (r: Byte)
      ensures r == 0
    {
      errorCode
    }

    /**
     * `Motor(ID, canHandler, Debug)`: readings 0, cadence state 0 and 1 ms,
     * and the outgoing frame preset to the start frame (all eight bytes
     * filled with 0xFF, then byte 7 set to 0xFC). `isStopped` has no
     * initialiser and is left unknown.
     */
    constructor (id: UInt16, handler: CanHandler, bus: Transport)
      requires handler.Valid()
      ensures Valid()
      ensures canId == id && this.handler == handler && this.bus == bus
      ensures pOut == 0.0 && vOut == 0.0 && iOut == 0.0 && temperature == 0 && errorCode == 0
      ensures lastSendTime == 0 && sendInterval == 1
      ensures latestFrame == Sentinel(id, START_CODE)
    {
      canId := id;
      this.handler := handler;
      this.bus := bus;
      pOut, vOut, iOut := 0.0, 0.0, 0.0;
      isStopped := *;
      lastSendTime, sendInterval := 0, 1;
      var data := new Byte[8];
      for i := 0 to 8
        invariant forall j :: 0 <= j < i ==> data[j] == 0xFF
      {
        data[i] := 0xFF;
      }
      data[7] := START_CODE;
      assert data[..] == seq(7, _ => 0xFF) + [START_CODE];
      latestFrame := Message(id, false, false, 8, data[..]);
    }

    /** `start()`: mark running, then offer the start frame to the driver. */
    method Start(accepted: bool)
      modifies this, bus
      ensures !isStopped
      ensures bus.attempts == old(bus.attempts) + [Sentinel(canId, START_CODE)]
      ensures bus.sent == old(bus.sent) + (if accepted then [Sentinel(canId, START_CODE)] else [])
      ensures Telemetry() == old(Telemetry()) && latestFrame == old(latestFrame) && lastSendTime == old(lastSendTime)
    {
      isStopped := false;
      var frame := BuildSentinel(canId, START_CODE);
      var ok := bus.TryToSend(frame, accepted);
    }

    /** `stop()`: offer the stop frame, then mark stopped whether or not the driver took it. */
    method Stop(accepted: bool)
      modifies this, bus
      ensures isStopped
      ensures bus.attempts == old(bus.attempts) + [Sentinel(canId, STOP_CODE)]
      ensures bus.sent == old(bus.sent) + (if accepted then [Sentinel(canId, STOP_CODE)] else [])
      ensures Telemetry() == old(Telemetry()) && latestFrame == old(latestFrame) && lastSendTime == old(lastSendTime)
    {
      var frame := BuildSentinel(canId, STOP_CODE);
      var ok := bus.TryToSend(frame, accepted);
      isStopped := true;
    }

    /** `reZero()`: offer the re-zero frame; the running state is untouched. */
    method ReZero(accepted: bool)
      modifies bus
      ensures bus.attempts == old(bus.attempts) + [Sentinel(canId, REZERO_CODE)]
      ensures bus.sent == old(bus.sent) + (if accepted then [Sentinel(canId, REZERO_CODE)] else [])
    {
      var frame := BuildSentinel(canId, REZERO_CODE);
      var ok := bus.TryToSend(frame, accepted);
    }

    /** `sendCommand`: repack the payload of the outgoing frame; nothing is transmitted. */
    method SendCommand(p: real, v: real, kp: real, kd: real, t: real)
      modifies this
      ensures latestFrame == old(latestFrame).(data := PackCommand(p, v, kp, kd, t))
      ensures isStopped == old(isStopped) && Telemetry() == old(Telemetry()) && lastSendTime == old(lastSendTime)
    {
      latestFrame := latestFrame.(data := PackCommand(p, v, kp, kd, t));
    }

    /** `setPosition(pos, kp, kd)` is `sendCommand(pos, 0, kp, kd, 0)`. */
    method SetPosition(pos: real, kp: real, kd: real)
      modifies this
      ensures latestFrame == old(latestFrame).(data := PackCommand(pos, 0.0, kp, kd, 0.0))
      ensures isStopped == old(isStopped) && Telemetry() == old(Telemetry()) && lastSendTime == old(lastSendTime)
    {
      SendCommand(pos, 0.0, kp, kd, 0.0);
    }

    /** `setVelocity(vel, kd)` holds the last measured position: `sendCommand(getPosition(), vel, 0, kd, 0)`. */
    method SetVelocity(vel: real, kd: real)
      modifies this
      ensures latestFrame == old(latestFrame).(data := PackCommand(old(pOut), vel, 0.0, kd, 0.0))
      ensures isStopped == old(isStopped) && Telemetry() == old(Telemetry()) && lastSendTime == old(lastSendTime)
    {
      var currentPos := GetPosition();
      SendCommand(currentPos, vel, 0.0, kd, 0.0);
    }

    /** `setTorque(torque)` is `sendCommand(0, 0, 0, 0, torque)`. */
    method SetTorque(torque: real)
      modifies this
      ensures latestFrame == old(latestFrame).(data := PackCommand(0.0, 0.0, 0.0, 0.0, torque))
      ensures isStopped == old(isStopped) && Telemetry() == old(Telemetry()) && lastSendTime == old(lastSendTime)
    {
      SendCommand(0.0, 0.0, 0.0, 0.0, torque);
    }

    /** `unpackCommand`: a frame shorter than eight bytes is ignored; otherwise only the three readings change. */
    method UnpackCommand(msg: Frame)
      modifies this
      ensures msg.len < 8 ==> Telemetry() == old(Telemetry())
      ensures msg.len >= 8 ==> Telemetry() == DecodeFeedback(msg.data)
      ensures msg.len >= 8 ==> P_MIN <= pOut <= P_MAX && V_MIN <= vOut <= V_MAX && T_MIN <= iOut <= T_MAX
      ensures isStopped == old(isStopped) && latestFrame == old(latestFrame) && lastSendTime == old(lastSendTime)
    {
      if msg.len < 8 {
        return;
      }
      var c := UnpackInts(msg.data);
      pOut := UIntToFloat(c.p, P_MIN, P_MAX, 16);
      vOut := UIntToFloat(c.v, V_MIN, V_MAX, 12);
      iOut := UIntToFloat(c.t, T_MIN, T_MAX, 12);
    }

    /**
     * `update()` at time `now`: nothing while stopped; otherwise decode the
     * cached status frame carrying this motor's identifier, if there is one
     * with a non-zero identifier, and re-send the command frame when
     * strictly more than `sendInterval` ms have passed since the last
     * attempt. The attempt time is recorded whether or not the driver took
     * the frame.
     */
    method Update(now: UInt32, accepted: bool)
      requires Valid()
      modifies this, bus
      ensures Valid()
      ensures old(isStopped) ==>
        && Telemetry() == old(Telemetry()) && lastSendTime == old(lastSendTime)
        && bus.attempts == old(bus.attempts) && bus.sent == old(bus.sent)
      ensures !old(isStopped) ==>
        var fb := FirstMatch(handler.latestFrame[..], canId);
        Telemetry() == (if fb.id != 0 && fb.len >= 8 then DecodeFeedback(fb.data) else old(Telemetry()))
      ensures !old(isStopped) ==>
        var due := Elapsed(now, old(lastSendTime)) > sendInterval;
        && lastSendTime == (if due then now else old(lastSendTime))
        && bus.attempts == old(bus.attempts) + (if due then [latestFrame] else [])
        && bus.sent == old(bus.sent) + (if due && accepted then [latestFrame] else [])
      ensures isStopped == old(isStopped) && latestFrame == old(latestFrame)
    {
      if isStopped {
        return;
      }
      var feedback := handler.GetLatestMessage(canId);
      if feedback.id != 0 {
        UnpackCommand(feedback);
      }
      if Elapsed(now, lastSendTime) > sendInterval {
        lastSendTime := now;
        var ok := bus.TryToSend(latestFrame, accepted);
      }
    }

    /** `isOnline()`: some cache slot holds a frame with this motor's identifier stamped within 600 ms. */
    method IsOnline(now: UInt32) returns (online: bool)
      requires Valid()
      ensures online <==> exists i :: 0 <= i < SLOTS && handler.latestFrame[i].id == canId
                                      && HeardWithin(handler.lastReceivedTime[i], now, ONLINE_TIMEOUT)
    {
      online := handler.IsMessageOnline(canId, ONLINE_TIMEOUT, now);
    }
  }
}
