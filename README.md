# Motor control over CAN: command codec, motor session, receive cache and acceptance filters

This project models the CAN-bus layer of an exoskeleton's motor control firmware (ESP32, C++) in Dafny and proves properties of the model. It has three parts.

- **The MIT-style motor command codec and the `Motor` session.**
  - Codec: five setpoints (position, velocity, kp, kd, feed-forward torque) are clamped to fixed ranges. Each is quantised by truncation, to 16 bits for position and 12 bits for the others. The integers are bit-packed big-endian into an eight-byte payload. The same layout is read back from the motor's status frames.
  - Session: `Motor` owns its outgoing command frame, which the setters repack in place. While the motor runs, the frame is re-sent whenever strictly more than 1 ms has passed since the last attempt. The session decodes the motor's status frame from the receive cache. It also sends start, stop and re-zero frames: seven 0xFF bytes followed by 0xFC, 0xFD or 0xFE.
- **The four-slot receive cache `CANHandler`.**
  - Each `update()` takes up to five frames from the driver's receive queue and stores the first four in slots 0..3, in arrival order. It starts again at slot 0 on every call and stamps each slot it writes.
  - Lookups go by slot, or by the first slot whose frame carries a given identifier.
  - Liveness compares `now - stamp`, in wrapping 32-bit millisecond arithmetic, against an inclusive timeout.
- **The SJA1000 acceptance-filter register encoder `ACAN_ESP32_Filter`.** Its factories turn 11-bit or 29-bit identifiers and don't-care masks into the four ACR and four AMR registers.

## Modules

| file | module | contents |
|---|---|---|
| `Bits.dfy` | `Bits` | The C++ bit operations on unbounded integers: `>>` is division by a power of two, `& (2^n-1)` is a remainder, `uint8_t(x)` is `Trunc8`, a `uint32_t` shift left is `Shl32`, and `\|` is `BitOr`. It also holds the lemmas that turn an OR of disjoint bit fields into addition. |
| `CanMessage.dfy` | `CanMessage` | The bus frame, the zeroed frame, wrapping elapsed time, and the driver's transmit side (`Transport`). |
| `AcceptanceFilters.dfy` | `AcceptanceFilters` | The filter factories as pure functions returning a register record. |
| `MotorCodec.dfy` | `MotorCodec` | Clamping, quantisation, payload layout and decoding. |
| `CanCache.dfy` | `CanCache` | The `CanHandler` class: two four-element arrays that `Update` overwrites in place, with sequence-level specification functions. |
| `MotorSession.dfy` | `MotorSession` | The `Motor` class: readings, run state, outgoing frame and send cadence. |

### Modelling conventions

- **Floats.** `float` is modelled as `real`. The truncating `static_cast<unsigned int>` of a non-negative value is `Floor`. The code truncates; it does not round.
- **Receive queue.** The driver's receive queue is an input sequence. Each successful `receive` removes its head, and `CanHandler.Update` returns what is left. The driver's verdict on `tryToSend` is an input `accepted`. Every frame offered is appended to `Transport.attempts`, and every accepted frame to `Transport.sent`.
- **Clock.** `millis()` is a parameter `now`.
- **Start-up state.** `isStopped` has no initialiser in the C++, so the constructor leaves it unknown.
- **Fields nothing writes.** `temperature` and `errorCode` are never written by any operation, so they are `const` fields fixed at their default of 0. The header comment of `unpackCommand` (suit-code/suit_control_V2/Motor.h:298-302) says it also updates them, but the code does not. The model follows the code.
- **Slot order.** A cache slot's index is arrival order, not a device number. This differs from the comments at testing-hardware/read_motor_test/CANHandler.h:12 and suit-code/gravity_comp_only/CANHandler.h:134, which speak of "the most recent frame for motor IDs 1-4" and "the 4 most recent CAN messages". `SlotHoldsArrival` and `NotTheLastFour` state what the code does.
- **First match.** `getLatestMessage` returns the lowest matching slot. Within one poll, that is the earliest arrival with that identifier.
- **Length check.** `unpackCommand` rejects only payloads with `len < 8`.

## Model

| member | source | states |
|---|---|---|
| CanMessage.Empty | testing-hardware/read_motor_test/CANHandler.cpp:81 | `CANMessage{}` has identifier 0, both flags false, length 0 and all eight bytes 0 |
| CanMessage.Elapsed | testing-hardware/read_motor_test/CANHandler.cpp:68 | the unsigned difference `now - since` is the d with since + d ≡ now (mod 2^32); it is the plain difference when the clock has not wrapped |
| CanMessage.Transport.TryToSend | testing-hardware/read_motor_test/Motor.cpp:218 | every frame offered to the driver is recorded; it is recorded as sent exactly when the driver accepts it, and the result is that verdict |
| AcceptanceFilters.Default | suit-code/suit_control_V2/ACAN_ESP32_AcceptanceFilters.h:89-100 | the private constructor: every acceptance register 0, every mask register 0xFF (nothing compared), both formats, dual mode off |
| AcceptanceFilters.AcceptAll | suit-code/suit_control_V2/ACAN_ESP32_AcceptanceFilters.h:89-117 | the default filter: every mask register 0xFF (nothing compared), both formats, dual mode off |
| AcceptanceFilters.AcceptStandardFrames | suit-code/suit_control_V2/ACAN_ESP32_AcceptanceFilters.h:131-135 | differs from `AcceptAll` only in accepting the standard format |
| AcceptanceFilters.AcceptExtendedFrames | suit-code/suit_control_V2/ACAN_ESP32_AcceptanceFilters.h:149-153 | differs from `AcceptAll` only in accepting the extended format |
| AcceptanceFilters.StdLowRegister | suit-code/suit_control_V2/ACAN_ESP32_AcceptanceFilters.h:183 | `uint8_t(mask << 5) \| 0x0F` puts the mask's low three bits on top and sets the low nibble |
| AcceptanceFilters.StdAcceptanceLow | suit-code/suit_control_V2/ACAN_ESP32_AcceptanceFilters.h:181-193 | ACR1 of a standard filter: the identifier's low three bits on top, a clear low nibble, and bit 0x10 set iff the remote-frame bit is asked for |
| AcceptanceFilters.StdMaskLow | suit-code/suit_control_V2/ACAN_ESP32_AcceptanceFilters.h:183-193 | AMR1 of a standard filter: the mask's low three bits on top, low nibble 0x0F, and bit 0x10 set iff the frame type is a don't-care |
| AcceptanceFilters.SetStdTypeBit | suit-code/suit_control_V2/ACAN_ESP32_AcceptanceFilters.h:184-193 | OR-ing 0x10 into a register whose bit 4 is clear adds 0x10 |
| AcceptanceFilters.ExtLowRegister | suit-code/suit_control_V2/ACAN_ESP32_AcceptanceFilters.h:225 | `uint8_t(id << 3)` on a 32-bit value keeps the identifier's low five bits, shifted up by three |
| AcceptanceFilters.SetExtTypeBit | suit-code/suit_control_V2/ACAN_ESP32_AcceptanceFilters.h:232-241 | OR-ing 0x04 into a register whose low three bits are clear adds 0x04 |
| AcceptanceFilters.SingleStandardFilter | suit-code/suit_control_V2/ACAN_ESP32_AcceptanceFilters.h:174-195 | single mode, standard format; ACR0·8 + ACR1/32 is the identifier's low 11 bits and AMR0·8 + AMR1/32 is the mask's; AMR1's low nibble is 0x0F and ACR1's is 0; bit 0x10 of ACR1 is set iff remote and bit 0x10 of AMR1 is set iff data-and-remote; registers 2-3 keep their defaults |
| AcceptanceFilters.SingleExtendedFilter | suit-code/suit_control_V2/ACAN_ESP32_AcceptanceFilters.h:216-243 | single mode, extended format; ACR0·2^21 + ACR1·2^13 + ACR2·2^5 + ACR3/8 is the identifier's low 29 bits, and the same holds for the mask; bit 0x04 of ACR3 is set iff remote and of AMR3 iff data-and-remote, and bits 0-1 are clear |
| AcceptanceFilters.DualStandardFilter | suit-code/suit_control_V2/ACAN_ESP32_AcceptanceFilters.h:266-306 | dual mode, standard format; registers 0-1 are byte for byte the single standard encoding of filter 0, and registers 2-3 that of filter 1 |
| AcceptanceFilters.DualExtendedFilter | suit-code/suit_control_V2/ACAN_ESP32_AcceptanceFilters.h:327-346 | as written: registers 0-1 carry bits 28..13 of identifier 0 and of mask 0; ACR2/AMR2 carry bits 28..21 of identifier 1 and of mask 1; ACR3 and AMR3 are always 0 |
| AcceptanceFilters.DualExtendedFilterCorrected | suit-code/suit_control_V2/ACAN_ESP32_AcceptanceFilters.h:327-346 | registers 0-1 carry bits 28..13 of identifier 0 and mask 0, and registers 2-3 those of identifier 1 and mask 1 |
| AcceptanceFilters.ShiftedByte13IsZero | suit-code/suit_control_V2/ACAN_ESP32_AcceptanceFilters.h:341 | `uint8_t(x << 13)` is 0 for every 32-bit x |
| AcceptanceFilters.DualExtendedFilterIgnoresId1LowBits | suit-code/suit_control_V2/ACAN_ESP32_AcceptanceFilters.h:340-343 | as written, filter 1's registers depend only on bits 28..21 of its identifier and mask |
| AcceptanceFilters.DualExtendedFilterCounterexample | suit-code/suit_control_V2/ACAN_ESP32_AcceptanceFilters.h:341-343 | identifiers 0 and 0x2000 in filter 1 give identical registers as written, but different ones in the corrected layout |
| AcceptanceFilters.SingleStandardTypeBitOnly | suit-code/suit_control_V2/ACAN_ESP32_AcceptanceFilters.h:184-193 | the remote filter differs from the data filter only by 0x10 in ACR1, and the data-and-remote filter only by 0x10 in AMR1 |
| AcceptanceFilters.SingleExtendedTypeBitOnly | suit-code/suit_control_V2/ACAN_ESP32_AcceptanceFilters.h:232-241 | the remote filter differs from the data filter only by 0x04 in ACR3, and the data-and-remote filter only by 0x04 in AMR3 |
| MotorCodec.Constrain | testing-hardware/read_motor_test/Motor.cpp:136-140 | the result is in [lo, hi]; it is x when x is inside, lo below and hi above |
| MotorCodec.FloatToUInt | testing-hardware/read_motor_test/Motor.cpp:101-114 | for widths 12 and 16 the code lies in [0, 2^bits - 1] and is the truncation of (x - xMin)·(2^bits - 1)/(xMax - xMin): at most it, less than it plus one; any other width gives 0 |
| MotorCodec.UIntToFloat | testing-hardware/read_motor_test/Motor.cpp:116-129 | a code in range maps back into [xMin, xMax]; any other width gives 0 |
| MotorCodec.PackInts | testing-hardware/read_motor_test/Motor.cpp:150-157 | the payload has eight bytes; `PackedBytes` gives each byte as arithmetic on the fields, and `PackUnpackRoundTrip`/`UnpackPackRoundTrip` show the layout loses and wastes no bit |
| MotorCodec.PackCommand | testing-hardware/read_motor_test/Motor.cpp:133-158 | the payload has eight bytes; `PackCommandClamps`, `PackCommandRoundTrip` and `FeedbackOfCommand` state what it encodes: the clamped setpoints, truncated to their steps |
| MotorCodec.UnpackInts | testing-hardware/read_motor_test/Motor.cpp:177-182 | the position read back fits 16 bits, and velocity, gains and torque fit 12 bits |
| MotorCodec.Quantise | testing-hardware/read_motor_test/Motor.cpp:136-147 | the clamped, quantised setpoints fit their widths, so the packed bytes never lose bits |
| MotorCodec.DecodeFeedback | testing-hardware/read_motor_test/Motor.cpp:177-197 | decoded position, velocity and torque always lie within their ranges |
| MotorCodec.PackedBytes | testing-hardware/read_motor_test/Motor.cpp:150-157 | each packed byte is in 0..255, and each OR joins disjoint bit fields (arithmetic form of the layout) |
| MotorCodec.UnpackedInts | testing-hardware/read_motor_test/Motor.cpp:177-182 | each unpacked integer is its bytes joined by addition (arithmetic form of the layout) |
| MotorCodec.PackUnpackRoundTrip | testing-hardware/read_motor_test/Motor.cpp:150-182 | for p < 2^16 and v, kp, kd, t < 2^12, unpacking the packed payload gives back all five integers |
| MotorCodec.UnpackPackRoundTrip | testing-hardware/read_motor_test/Motor.cpp:150-182 | every eight-byte payload is the packing of what it unpacks to: the layout uses all 64 bits |
| MotorCodec.PackCommandClamps | testing-hardware/read_motor_test/Motor.cpp:136-140 | each input is packed exactly as its clamped value, so an out-of-range position gives the bytes of the nearest bound |
| MotorCodec.QuantiseRoundTrip | testing-hardware/read_motor_test/Motor.cpp:101-129 | quantising then dequantising yields y with y <= x < y + span/(2^bits - 1): truncation, at most one step down |
| MotorCodec.PackCommandRoundTrip | testing-hardware/read_motor_test/Motor.cpp:133-197 | a packed command unpacks to its quantised setpoints, each read back within one step below the clamped input |
| MotorCodec.FeedbackOfCommand | testing-hardware/read_motor_test/Motor.cpp:133-197 | a command payload decodes to the clamped position, velocity and torque, each truncated to its quantisation step |
| CanCache.FirstMatch | testing-hardware/read_motor_test/CANHandler.cpp:75-82 | the result is the zeroed frame or a cached frame carrying the identifier |
| CanCache.FirstMatchIsLowest | testing-hardware/read_motor_test/CANHandler.cpp:75-82 | the lookup returns the lowest slot whose identifier matches |
| CanCache.FirstMatchNone | suit-code/gravity_comp_only/CANHandler.h:104-110 | with no matching slot the lookup returns the zeroed frame |
| CanCache.CanHandler.constructor | testing-hardware/read_motor_test/CANHandler.h:35-44 | four zeroed frames, every timestamp 0 |
| CanCache.CanHandler.Update | testing-hardware/read_motor_test/CANHandler.cpp:45-62 | slots 0..k-1 get the first k = min(n, 4) waiting frames stamped `now`, the other slots and stamps are unchanged, and min(n, 5) frames leave the queue; an empty queue changes nothing |
| CanCache.CanHandler.GetIsOnline | testing-hardware/read_motor_test/CANHandler.cpp:67-69 | for id in 1..4: online iff `now` is at most 600 ms after slot id-1's stamp on the wrapping clock |
| CanCache.CanHandler.GetLatestFrame | testing-hardware/read_motor_test/CANHandler.cpp:71-73 | for id in 1..4, the frame cached in slot id-1, whatever its identifier (`SlotHoldsArrival` says which arrival that is) |
| CanCache.CanHandler.GetLatestMessage | testing-hardware/read_motor_test/CANHandler.cpp:75-82 | returns the frame in the lowest slot with that identifier, else the zeroed frame; the cache is not changed |
| CanCache.CanHandler.IsMessageOnline | testing-hardware/read_motor_test/CANHandler.cpp:84-93 | true iff some slot, not only the first, carries the identifier and was stamped at most `timeout` ms before `now`; the cache is not changed |
| CanCache.ElapsedWithin | testing-hardware/read_motor_test/CANHandler.cpp:88 | `now - stamp <= timeout` in unsigned arithmetic iff `now` is within `timeout` ms after the stamp, across a wrap of the counter |
| CanCache.OnlineBoundary | testing-hardware/read_motor_test/CANHandler.cpp:88 | the timeout is inclusive: online exactly `timeout` ms after the stamp, offline one ms later |
| CanCache.FreshCacheOnline | testing-hardware/read_motor_test/CANHandler.h:41-44 | with all stamps 0, every device reads online iff now <= 600, even before any frame arrives |
| CanCache.SlotHoldsArrival | testing-hardware/read_motor_test/CANHandler.cpp:49-51 | after a poll, slot k holds the k-th waiting frame whatever its identifier, or keeps its old frame |
| CanCache.LaterPollHides | testing-hardware/read_motor_test/CANHandler.cpp:45-62 | a poll storing at least as many frames as the previous one erases every trace of it |
| CanCache.NotTheLastFour | suit-code/gravity_comp_only/CANHandler.h:131-137 | polls of four frames and then one leave [e, b, c, d]: the cache does not hold the last four arrivals |
| CanCache.FifthFrameDropped | testing-hardware/read_motor_test/CANHandler.cpp:49 | with five or more waiting, the first four are stored and the fifth is removed from the queue and lost |
| MotorSession.BuildSentinel | testing-hardware/read_motor_test/Motor.cpp:21-29 | a standard data frame to the motor, length 8, bytes 0-6 equal to 0xFF and byte 7 the command code |
| MotorSession.CommandCanSpellStart | testing-hardware/read_motor_test/Motor.cpp:143-157 | the command (40, 50, 500, 5, -25 + 4092·50/4095) packs to the start frame's payload: command payloads can coincide with the sentinels |
| MotorSession.PacketCode | testing-hardware/read_motor_test/Motor.h:9-17 | each control mode's value is at most 6 |
| MotorSession.PacketOf | suit-code/suit_control_V2/Motor.h:26-34 | exactly the values 0..6 name a control mode |
| MotorSession.PacketCodeRoundTrip | suit-code/suit_control_V2/Motor.h:26-34 | the values 0..6 name the seven modes one to one, in declaration order |
| MotorSession.Motor.constructor | testing-hardware/read_motor_test/Motor.cpp:3-16 | given a well-formed cache, establishes the class invariant `Valid()` (readings within their ranges); readings, temperature and error code 0; `lastSendTime` 0 and `sendInterval` 1; the outgoing frame is the start frame |
| MotorSession.Motor.Start | testing-hardware/read_motor_test/Motor.cpp:18-35 | marks running and offers the start frame (0xFC) once; readings, outgoing frame and cadence are unchanged |
| MotorSession.Motor.Stop | testing-hardware/read_motor_test/Motor.cpp:37-54 | offers the stop frame (0xFD) and marks stopped whether or not the driver took it |
| MotorSession.Motor.ReZero | testing-hardware/read_motor_test/Motor.cpp:78-97 | offers the re-zero frame (0xFE) and changes no motor state |
| MotorSession.Motor.SendCommand | testing-hardware/read_motor_test/Motor.cpp:73-76 | only the payload of the outgoing frame changes, to the packed command; nothing is transmitted |
| MotorSession.Motor.SetPosition | testing-hardware/read_motor_test/Motor.cpp:56-59 | equals `sendCommand(pos, 0, kp, kd, 0)` |
| MotorSession.Motor.SetVelocity | testing-hardware/read_motor_test/Motor.cpp:61-66 | equals `sendCommand(position read so far, vel, 0, kd, 0)` |
| MotorSession.Motor.SetTorque | testing-hardware/read_motor_test/Motor.cpp:68-71 | equals `sendCommand(0, 0, 0, 0, torque)` |
| MotorSession.Motor.UnpackCommand | testing-hardware/read_motor_test/Motor.cpp:162-200 | a frame with len < 8 changes nothing; otherwise only position, velocity and torque change, to the decoded values, which lie within their ranges |
| MotorSession.Motor.Update | testing-hardware/read_motor_test/Motor.cpp:204-222 | keeps `Valid()`; stopped: nothing changes and nothing is sent; running: decodes the first cached frame with the motor's identifier if its identifier is non-zero; re-sends the outgoing frame and sets `lastSendTime := now` exactly when `now - lastSendTime > 1`, even if the send fails |
| MotorSession.Motor.GetPosition | testing-hardware/read_motor_test/Motor.cpp:226 | the last decoded position, which under `Valid()` lies within [-40, 40] |
| MotorSession.Motor.GetVelocity | testing-hardware/read_motor_test/Motor.cpp:227 | the last decoded velocity, which under `Valid()` lies within [-50, 50] |
| MotorSession.Motor.GetTorque | testing-hardware/read_motor_test/Motor.cpp:228 | the last decoded torque, which under `Valid()` lies within [-25, 25] |
| MotorSession.Motor.GetTemperature | testing-hardware/read_motor_test/Motor.cpp:229 | always 0: no operation writes the temperature |
| MotorSession.Motor.GetErrorCode | testing-hardware/read_motor_test/Motor.cpp:230 | always 0: no operation writes the error code |
| MotorSession.Motor.IsOnline | testing-hardware/read_motor_test/Motor.cpp:232-235 | true iff some cache slot carries the motor's identifier stamped at most 600 ms before `now` |

## Left out

- **Driver set-up and transmit wrapper.** `setupCAN` and `sendCANMessage` (testing-hardware/read_motor_test/CANHandler.cpp:14-40) configure and call the vendor driver, which is not part of this model. `sendCANMessage` is `tryToSend` plus a log line.
- **Frame fields.** `CANMessage` is not part of this model beyond the fields the code uses. The frame has exactly those fields; the library's other fields, such as `idx`, are omitted.
- **Logging.** `debugI`, `Debug.printf`, `Serial` and `RemoteDebug` are I/O without effect on the state, and are left out.
- **Dead code.** The commented-out debug loops (testing-hardware/read_motor_test/CANHandler.cpp:55-57 and Motor.cpp:186-188) are left out. So are the decoded gains `kp_int` and `kd_int`, which are never used.
- **Floating point.** IEEE `float` rounding is not modelled: the arithmetic is exact over `real`. The quantisation bounds and round trips hold for the exact arithmetic only.
- FloatToUInt: requires `xMin < xMax` and `xMin <= x <= xMax`. Its only caller clamps first, and the unsigned cast of a negative value is undefined in C++.
- UIntToFloat: the range guarantee is stated only for codes in [0, 2^bits - 1], which are the only codes the decoder produces.
- **Clock reads.** `millis()` is read once per call: a poll stamps all its frames with the same `now`, and `Motor.Update` uses one `now` for both its reads.
- **Unknown start-up state.** `isStopped` is unknown until `Start` or `Stop` is called, as in the C++, where it is uninitialised.
- **Undefined operation.** `setCurrentBrake` is declared (testing-hardware/read_motor_test/Motor.h:36) but never defined, so there is nothing to model.
- **Filter semantics.** Which frames the SJA1000 accepts under given registers is not modelled; only the register encoding is.
- **Other implementations.** The implementations behind suit-code/suit_control_V2/Motor.h and suit-code/gravity_comp_only/CANHandler.h are not part of this model. The testing-hardware implementations are the behaviour; those headers only document it.

## Findings

| source | as written | input that shows it | evidently intended | confidence | as-written member | corrected member |
|---|---|---|---|---|---|---|
| suit-code/suit_control_V2/ACAN_ESP32_AcceptanceFilters.h:341-343 | `mACR3 = uint8_t(inIdentifier1 << 13)` and `mAMR3 = uint8_t(inDontCareMask1 << 13)` keep none of the value's bits, so ACR3 and AMR3 are always 0 | identifier 1 = 0x2000 against identifier 1 = 0: identical registers, although dual mode compares bit 13 | `uint8_t(x >> 13)`, so that filter 1 holds bits 28..13 like filter 0 does in lines 335-338 | high; not executed | AcceptanceFilters.DualExtendedFilter, AcceptanceFilters.DualExtendedFilterCounterexample | AcceptanceFilters.DualExtendedFilterCorrected |
