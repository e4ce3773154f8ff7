# MKS SERVO42 serial codec, modelled in Dafny

This project models `mks_servo42_rs`, a codec for the serial protocol of the
MKS SERVO42 closed-loop stepper driver. It covers both directions of the protocol.

- **Commands.** A `Driver` holds a target address (any byte; the parsers accept
  0xE0..0xE9) and a ten-byte
  scratch buffer. Each command builder writes `[address, opcode, payload…]`
  into that buffer, follows it with a checksum and hands back the prefix. The
  checksum is the wrapping sum of the bytes. Some builders first range-check
  their argument and fail with `InvalidValue`.
- **Responses.** Five decoders scan a received byte buffer for the first
  offset where a frame starts. At that offset there must be an address byte,
  enough bytes for the frame, and a byte equal to the checksum of the bytes
  before it. The angle-error frame must also end in a trailing 0x00. The
  decoder then reads a big-endian integer or a status byte off that frame.
- **Wire codes.** Direction, the configuration enums and the generic
  success/failure reply byte.

Modules follow the source files:

| module | file | models |
|---|---|---|
| `Wrappers` | wrappers.dfy | `Option` and `Result` |
| `Bytes` | bytes.dfy | integer widths, wrapping add, bitwise or, byte sums, big-endian `to_be_bytes`/`from_be_bytes` |
| `Errors` | errors.dfy | `src/errors.rs` |
| `Directions` | direction.dfy | `src/direction.rs` and the speed-and-direction byte |
| `Enums` | enums.dfy | `src/enums.rs`, plus `ShaftStatus` and `SaveClearStatus` |
| `Responses` | response.dfy | `src/response.rs` |
| `Servo42` | servo42.dfy | `src/lib.rs`: constants, `calculate_checksum`, `Driver` and its builders |
| `Frames` | frames.dfy | the shared "first matching offset" specification of the decoders |
| `Helpers` | helpers.dfy | `src/helpers.rs`: value types, conversions, the five scan loops |
| `HelpersProps` | helpers_props.dfy | prefix tolerance, build-then-parse round trips, rejections, the encoder bound finding |
| `HelpersVectors` | helpers_vectors.dfy | the worked examples of the unit tests in `src/helpers.rs` |

## How it is modelled

- **The driver.** `Driver` is a class with `const address` and
  `const buffer: array<uint8>` of length 10, which no builder replaces.
  - Every builder `modifies buffer`. It returns the frame and promises
    `frame == Command(cmd)`.
  - The twostate predicate `Emitted(frame)` says the buffer now begins with
    the frame and every later cell is unchanged.
  - A range-checked builder returns `Result<seq<uint8>, Error>`. It fails
    exactly when the argument is above its limit, and then the buffer is
    unchanged.
  - `Command(cmd)` is the command followed by `Sum(cmd) % 256`.
- **The decoders.** `Frames.FrameAt(shape, data, i)` states when a frame of
  a given shape starts at offset `i`. A shape is a length, a checksum span and
  whether a trailing 0x00 is needed. `Frames.FirstFrame` is the lowest such
  offset.
  - Each decoder has a specification function: `Helpers.EncoderResponse`,
    `AngleErrorResponse`, `ShaftAngleResponse`, `EnPinResponse` and
    `ShaftStatusResponse`. Each decodes the first frame or returns
    `InvalidPacket`.
  - Each Rust scan loop is a method with the loop invariant "no earlier offset
    holds a frame", and it proves `r == <its specification>(data)`.
- **Integer widths.** Integers are `int` subset types (`uint8`, `uint16`,
  `uint32`, `int16`, `int32`). The signed decodes are the two's complement
  reading of the unsigned big-endian value.
- **Checksums in the decoders.** The parsers' `u32` sums followed by `as u8`
  are `Sum(window) % 256`. At most seven bytes are summed, so the `u32` never
  overflows.

## Model

| member | source | states |
|---|---|---|
| `Bytes.WrappingAdd` | src/helpers.rs:237 | `u8::wrapping_add` is the sum modulo 256 |
| `Bytes.BitOr` | src/lib.rs:130 | the bitwise or of two bytes, through the `OrBits` recursion: or-ing in 0x00 leaves a byte unchanged, and or-ing 0x80 into a byte below 0x80 adds 0x80 |
| `Bytes.ToBigEndian` | src/lib.rs:159 | `to_be_bytes`: exactly `n` bytes, most significant first; `Bytes.FromToBigEndian` proves they read back to the value |
| `Bytes.FromToBigEndian` | src/lib.rs:159 | reading back the big-endian bytes of `x` gives `x` |
| `Bytes.ToFromBigEndian` | src/helpers.rs:64 | writing out the value read from `n` bytes gives the same `n` bytes |
| `Bytes.Uint16FromBytes` | src/helpers.rs:64 | `u16::from_be_bytes` is `b0 * 256 + b1` |
| `Bytes.Uint32FromBytes` | src/lib.rs:159 | the four-byte big-endian value, most significant byte first |
| `Bytes.Int16FromBytes` | src/helpers.rs:120 | `i16::from_be_bytes`: the unsigned value, minus 65536 when bit 15 is set |
| `Bytes.Int32FromBytes` | src/helpers.rs:160-165 | `i32::from_be_bytes`: the four-byte unsigned value, minus 2^32 when bit 31 is set |
| `Bytes.Uint16RoundTrip` | src/lib.rs:256 | `u16::from_be_bytes(to_be_bytes(v)) == v` |
| `Bytes.Uint32RoundTrip` | src/lib.rs:159 | `u32::from_be_bytes(to_be_bytes(v)) == v` |
| `Bytes.Int16RoundTrip` | src/helpers.rs:120 | the i16 decode inverts the two's complement encoding of every `i16` |
| `Bytes.Int32RoundTrip` | src/helpers.rs:160-165 | the i32 decode inverts the two's complement encoding of every `i32` |
| `Directions.SplitSpeedByte` | src/direction.rs:3-6 | the speed part of a split speed byte fits in seven bits |
| `Directions.Code` | src/direction.rs:3-6 | Forward is 0x80 and Reverse is 0x00, each code belonging to exactly one direction |
| `Directions.SpeedByte` | src/lib.rs:130 | `speed OR direction`: Reverse leaves every speed byte as it is, and for a speed up to 0x7F the byte is speed plus the direction code |
| `Directions.SpeedByteRoundTrip` | src/lib.rs:127-130 | for a speed up to 0x7F, direction and speed are both recovered from the speed byte |
| `Directions.CodeInjective` | src/direction.rs:3-6 | Forward and Reverse have different codes (0x80, 0x00) |
| `Enums.MotorTypeCode` | src/enums.rs:3-6 | `as u8` of MotorType: at most 0x01, and 0x00 exactly for Deg09 |
| `Enums.WorkModeCode` | src/enums.rs:10-14 | `as u8` of WorkMode: at most 0x02, 0x00 exactly for Open and 0x01 exactly for Vfoc |
| `Enums.EnLogicCode` | src/enums.rs:18-22 | `as u8` of EnLogic: at most 0x02, 0x00 exactly for Low and 0x01 exactly for High |
| `Enums.BaudRateCode` | src/enums.rs:26-33 | `as u8` of BaudRate: within 0x01..0x06, 0x01 exactly for 9600 and 0x06 exactly for 115200; `Enums.BaudRateCodesRise` orders the rest |
| `Enums.ZeroModeCode` | src/enums.rs:37-41 | `as u8` of ZeroMode: at most 0x02, 0x00 exactly for Disable and 0x01 exactly for DirMode |
| `Enums.ShaftStatusCode` | src/helpers.rs:239-246 | the status byte of each shaft state: at most 0x02, 0x00 exactly for Error and 0x01 exactly for Blocked |
| `Enums.SaveClearStatusCode` | src/lib.rs:143 | `as u8` of SaveClearStatus: 0xCA for Clear |
| `Enums.SmallCodesInjective` | src/enums.rs:3-41 | each MotorType, WorkMode, EnLogic and ZeroMode variant has its declared code (0x00, 0x01, 0x02 in declaration order), so the codes are pairwise distinct; ShaftStatus is Error 0, Blocked 1, Unblocked 2 |
| `Enums.BaudRateCodesRise` | src/enums.rs:26-33 | baud codes lie in 0x01..0x06, rise strictly with the line speed, and determine the variant |
| `Responses.Code` | src/response.rs:10-15 | `r as u8` is at most 0x01, and is 0x01 exactly for Success |
| `Responses.Response.IsSuccess` | src/response.rs:31-33 | holds exactly when the reply's code is 0x01 |
| `Responses.Response.IsFailure` | src/response.rs:36-38 | holds exactly when the reply's code is 0x00 |
| `Responses.TryFrom` | src/response.rs:20-26 | `Ok` exactly for 0x00 and 0x01, with the code of the variant; every other byte gives `InvalidResponse` |
| `Responses.TryFromCode` | src/response.rs:10-15 | `try_from(r as u8) == Ok(r)` for both variants |
| `Responses.TryFromExamples` | src/response.rs:46-67 | 0x00 is Failure, 0x01 is Success, 0x02 is rejected |
| `Responses.SuccessXorFailure` | src/response.rs:29-39 | exactly one of `is_success` and `is_failure` holds, and `is_success` means code 0x01 |
| `Servo42.FromBool` | src/lib.rs:119 | `u8::from(b)` is 1 for true and 0 for false |
| `Servo42.ChecksumFromIsSum` | src/lib.rs:341-343 | the wrapping fold from any accumulator is the accumulator plus the byte sum, modulo 256 |
| `Servo42.CalculateChecksum` | src/lib.rs:341-343 | the checksum is the sum of the bytes modulo 256 |
| `Servo42.ChecksumExample` | src/lib.rs:350-352 | `[E0, F6, 01]` has checksum 0xD7 |
| `Servo42.Command` | src/lib.rs:333-338 | the frame is the command followed by one byte, its sum modulo 256 |
| `Servo42.CommandChecksum` | src/lib.rs:333-338 | the last byte of every frame is the checksum of all the bytes before it |
| `Servo42.RunPositionPulses` | src/lib.rs:150-169 | the run-position frame has 8 bytes, and its bytes 3..6 read big-endian give the pulse count |
| `Servo42.TwoByteSetterValue` | src/lib.rs:255-288 | the two-byte setters emit 5 bytes with `byte2 * 256 + byte3 == value` |
| `Servo42.Driver.Default` | src/lib.rs:97-105 | address 0xE0 and a zeroed ten-byte buffer |
| `Servo42.Driver.WithAddress` | src/lib.rs:110-115 | any byte is stored as the address, unchecked |
| `Servo42.Driver.BuildCommand` | src/lib.rs:333-338 | for a command shorter than 10 bytes it returns `cmd` plus its checksum, written at the start of the buffer, with later cells untouched |
| `Servo42.Driver.EnableMotor` | src/lib.rs:118-120 | frame `[addr, F3, u8(enable)]` plus checksum |
| `Servo42.Driver.RunSpeed` | src/lib.rs:126-131 | `InvalidValue` exactly when speed > 0x7F, buffer unchanged; otherwise `[addr, F6, speed or dir]` plus checksum |
| `Servo42.Driver.Stop` | src/lib.rs:134-136 | frame `[addr, F7]` plus checksum |
| `Servo42.Driver.SaveClearStatus` | src/lib.rs:142-144 | frame `[addr, FF, code]` plus checksum |
| `Servo42.Driver.RunPosition` | src/lib.rs:150-169 | `InvalidValue` exactly when speed > 0x7F, buffer unchanged; otherwise `[addr, FD, speed or dir]`, then the big-endian pulses, then the checksum |
| `Servo42.Driver.CalibrateEncoder` | src/lib.rs:172-174 | frame `[addr, 80, 00]` plus checksum |
| `Servo42.Driver.SetCurrentLimit` | src/lib.rs:180-185 | `InvalidValue` exactly when index > 0x0F, buffer unchanged; otherwise `[addr, 83, index]` plus checksum |
| `Servo42.Driver.SetSubdivision` | src/lib.rs:191-196 | `InvalidValue` exactly when index > 0x08, buffer unchanged; otherwise `[addr, 84, index]` plus checksum |
| `Servo42.Driver.SetEnableLogic` | src/lib.rs:199-201 | frame `[addr, 85, logic]` plus checksum |
| `Servo42.Driver.SetDirection` | src/lib.rs:204-206 | frame `[addr, 86, u8(!clockwise)]` plus checksum |
| `Servo42.Driver.SetAutoScreenOff` | src/lib.rs:209-211 | frame `[addr, 87, u8(!enable)]` plus checksum |
| `Servo42.Driver.SetStallProtection` | src/lib.rs:214-216 | frame `[addr, 88, u8(!enable)]` plus checksum |
| `Servo42.Driver.SetInterpolation` | src/lib.rs:219-221 | frame `[addr, 89, u8(!enable)]` plus checksum |
| `Servo42.Driver.SetZeroMode` | src/lib.rs:224-226 | frame `[addr, 90, mode]` plus checksum |
| `Servo42.Driver.SetCurrentAsZero` | src/lib.rs:229-231 | frame `[addr, 91, 00]` plus checksum |
| `Servo42.Driver.SetZeroSpeed` | src/lib.rs:237-242 | `InvalidValue` exactly when speed > 0x04, buffer unchanged; otherwise `[addr, 92, speed]` plus checksum |
| `Servo42.Driver.GoToZero` | src/lib.rs:245-247 | frame `[addr, 94, 00]` plus checksum |
| `Servo42.Driver.SetZeroDirection` | src/lib.rs:250-252 | frame `[addr, 93, u8(!clockwise)]` plus checksum |
| `Servo42.Driver.SetPositionKp` | src/lib.rs:255-258 | frame `[addr, A1]`, then the big-endian value, then the checksum |
| `Servo42.Driver.SetPositionKi` | src/lib.rs:261-264 | frame `[addr, A2]`, then the big-endian value, then the checksum |
| `Servo42.Driver.SetPositionKd` | src/lib.rs:267-270 | frame `[addr, A3]`, then the big-endian value, then the checksum |
| `Servo42.Driver.SetAcceleration` | src/lib.rs:273-276 | frame `[addr, A4]`, then the big-endian value, then the checksum |
| `Servo42.Driver.SetMaxTorque` | src/lib.rs:282-288 | `InvalidValue` exactly when value > 0x4B0, buffer unchanged; otherwise `[addr, A5]`, then the big-endian value, then the checksum |
| `Servo42.Driver.ReadShaftStatus` | src/lib.rs:291-293 | frame `[addr, 3E]` plus checksum |
| `Servo42.Driver.ReadEncoderValue` | src/lib.rs:296-298 | frame `[addr, 30]` plus checksum |
| `Servo42.Driver.ReadPulseCount` | src/lib.rs:301-303 | frame `[addr, 33]` plus checksum |
| `Servo42.Driver.ReadMotorShaftAngle` | src/lib.rs:309-311 | frame `[addr, 36]` plus checksum |
| `Servo42.Driver.ReadEnPinStatus` | src/lib.rs:319-321 | frame `[addr, 3A]` plus checksum |
| `Servo42.Driver.ReadMotorShaftAngleError` | src/lib.rs:324-326 | frame `[addr, 39]` plus checksum |
| `Servo42.Driver.ReadReleaseStatus` | src/lib.rs:329-331 | frame `[addr, 3D]` plus checksum |
| `Servo42.SpeedBoundary` | src/lib.rs:126-131 | on a default driver, speed 0x7F gives the exact frame `[E0, F6, FF, D5]`; speed 0x80 gives `InvalidValue` |
| `Servo42.TorqueBoundary` | src/lib.rs:282-288 | on a default driver, torque 0x4B0 gives the exact frame `[E0, A5, 04, B0, 39]`; torque 0x4B1 gives `InvalidValue` |
| `Frames.ScanFrom` | src/helpers.rs:47-70 | the offset found from `from` holds a frame and no offset between `from` and it does; `None` means no offset from `from` on holds one |
| `Frames.FirstFrame` | src/helpers.rs:47-72 | the lowest offset holding a frame; `None` exactly when no offset holds one |
| `Frames.PrefixTolerance` | src/helpers.rs:297-302 | prepending bytes that are not addresses shifts the first frame by the prefix length and keeps its bytes |
| `Frames.LoneWindow` | src/helpers.rs:305-309 | a buffer no longer than one frame holds a frame only at offset 0 |
| `Helpers.EncoderValue.ToDegrees` | src/helpers.rs:20-23 | the degrees of carry `c` lie in `[360c, 360(c+1))` |
| `Helpers.ShaftErrValue.ToDegrees` | src/helpers.rs:85-87 | the degrees times 360 are the raw value |
| `Helpers.MotorShaftAngle.ToDegrees` | src/helpers.rs:139-141 | the degrees times 65536 are the raw value times 360 |
| `Helpers.EncoderValToDegrees` | src/helpers.rs:38-40 | a value in `[0, 360)`, exactly 360/65536 of the raw value |
| `Helpers.AngleToSteps` | src/helpers.rs:28-34 | the pulse count nearest to `angle / 360 * 200 * microsteps`, halves rounding up, saturating at 0 and `u32::MAX` |
| `Helpers.SaturatingRound` | src/helpers.rs:28-34 | `(x + 0.5) as u32`: the floor inside the u32 range, 0 below it, `u32::MAX` above it |
| `Helpers.DecodeEncoder` | src/helpers.rs:55-65 | the carry re-encodes to bytes 1..4 and the value to bytes 5..6 (big-endian), and the carry is negative exactly when byte 1 has bit 7 set |
| `Helpers.DecodeAngleError` | src/helpers.rs:119-120 | the error re-encodes to bytes 1..2 (big-endian), and is negative exactly when byte 1 has bit 7 set |
| `Helpers.DecodeShaftAngle` | src/helpers.rs:159-165 | the angle re-encodes to bytes 1..4 (big-endian), and is negative exactly when byte 1 has bit 7 set |
| `Helpers.EnPinStatusCode` | src/helpers.rs:205-207 | the status byte of each EN pin state: at most 0x02, 0x00 exactly for Error and 0x01 exactly for Enabled |
| `Helpers.DecodeEnPin` | src/helpers.rs:201-209 | `Ok` exactly for status 0x00..0x02, with that status code; otherwise `InvalidPacket` |
| `Helpers.DecodeShaftStatus` | src/helpers.rs:239-246 | `Ok` exactly for status 0x00..0x02, with that status code; otherwise `InvalidPacket` |
| `Helpers.ParseEncoderResponse` | src/helpers.rs:46-73 | the decode of the first encoder frame (8 bytes, checksum over 7), else `InvalidPacket`; uses the guard `idx + 7 < len` |
| `Helpers.ParseMotorShaftAngleError` | src/helpers.rs:100-127 | the decode of the first angle-error frame (trailing 0x00, checksum over 3), else `InvalidPacket` |
| `Helpers.ParseMotorShaftAngleResponse` | src/helpers.rs:153-173 | the decode of the first shaft-angle frame (6 bytes, checksum over 5), else `InvalidPacket` |
| `Helpers.ParseEnPinStatusResponse` | src/helpers.rs:194-216 | the status of the first status frame, where a bad status byte fails at once; else `InvalidPacket` |
| `Helpers.ParseShaftStatusResponse` | src/helpers.rs:226-249 | the same first-frame result, reached through the length check and the `windows(3)` scan with `wrapping_add` |
| `HelpersProps.EncoderIgnoresNoise` | src/helpers.rs:297-302 | a prefix of non-address bytes does not change the encoder result |
| `HelpersProps.AngleErrorIgnoresNoise` | src/helpers.rs:343-349 | a prefix of non-address bytes does not change the angle-error result |
| `HelpersProps.ShaftAngleIgnoresNoise` | src/helpers.rs:415-421 | a prefix of non-address bytes does not change the shaft-angle result |
| `HelpersProps.StatusIgnoresNoise` | src/helpers.rs:567-572 | a prefix of non-address bytes changes neither status result |
| `HelpersProps.EncoderRoundTrip` | src/helpers.rs:53-66 | parsing an address, the big-endian carry and value, and the checksum gives back that carry and value |
| `HelpersProps.ShaftAngleRoundTrip` | src/helpers.rs:153-172 | parsing an address, a big-endian i32 and the checksum gives the i32, for every address and value |
| `HelpersProps.AngleErrorRoundTrip` | src/helpers.rs:108-121 | parsing an address, a big-endian i16, the checksum and 0x00 gives the i16 |
| `HelpersProps.StatusRoundTrip` | src/helpers.rs:202-209 | parsing an address, a status code and the checksum gives that status, for both parsers |
| `HelpersProps.ShortBuffersRejected` | src/helpers.rs:227-229 | a buffer shorter than a frame gives `InvalidPacket` in every parser |
| `HelpersProps.NonAddressRejected` | src/helpers.rs:376-381 | a buffer of at most one frame that starts with a non-address gives `InvalidPacket` |
| `HelpersProps.BadChecksumRejected` | src/helpers.rs:305-309 | a frame with any wrong checksum byte gives `InvalidPacket` |
| `HelpersProps.TrailingByteRequired` | src/helpers.rs:108-112 | an angle-error frame whose fifth byte is not 0x00 gives `InvalidPacket` |
| `HelpersProps.StatusParsersAgree` | src/helpers.rs:201-202 | the two status parsers accept the same buffers with the same status code, and both reject buffers under 3 bytes |
| `HelpersProps.FirstStatusWindowDecides` | src/helpers.rs:558-563 | a first frame with status 0x03 fails even though a good frame follows |
| `HelpersProps.EncoderScanAsWritten` | src/helpers.rs:46-73 | `parse_encoder_response` with its guard as written: it panics exactly when an address byte sits six or seven bytes before the end and no complete frame comes earlier |
| `HelpersProps.AsWrittenAgreesFrom` | src/helpers.rs:47-72 | the scan with the guard as written either panics or returns what the corrected scan returns |
| `HelpersProps.EncoderAsWrittenAgrees` | src/helpers.rs:47-72 | from offset 0, the scan as written panics or equals `EncoderResponse` |
| `HelpersProps.EncoderGuardPanics` | src/helpers.rs:51-54 | two buffers on which the guard as written indexes past the end, while the corrected parser returns `InvalidPacket` |
| `HelpersVectors.EncoderVectors` | src/helpers.rs:288-302 | the encoder test vectors: value 0x4000 (90 degrees), also after a noise prefix |
| `HelpersVectors.EncoderChecksumVector` | src/helpers.rs:305-309 | the encoder frame with checksum 0x21 instead of 0x20 is rejected |
| `HelpersVectors.AngleErrorVectors` | src/helpers.rs:312-349 | the angle-error test vectors 183 and 0, and 183 after a noise prefix |
| `HelpersVectors.AngleErrorExtremeVectors` | src/helpers.rs:319-339 | the angle-error test vectors -182 (two's complement) and 32767 |
| `HelpersVectors.AngleErrorRejections` | src/helpers.rs:352-381 | bad checksum, trailing 0x01, 4 bytes, and address 0xDF are all rejected |
| `HelpersVectors.ShaftAngleVectors` | src/helpers.rs:384-421 | 0x4000 is 90 degrees, also after a noise prefix |
| `HelpersVectors.ShaftAngleZeroVector` | src/helpers.rs:391-396 | `[E0, 00, 00, 00, 00, E0]` is angle 0 |
| `HelpersVectors.ShaftAngleHalfTurnVectors` | src/helpers.rs:398-403 | 0x8000 is 180 degrees |
| `HelpersVectors.ShaftAngleNegativeVectors` | src/helpers.rs:405-411 | `[E0, FF, FF, C0, 00, 9E]` is -16384, which is -90 degrees |
| `HelpersVectors.ShaftAngleRejections` | src/helpers.rs:424-445 | bad checksum, 5 bytes, and address 0xDF are all rejected |
| `HelpersVectors.StatusVectors` | src/helpers.rs:448-572 | status bytes 1, 2 and 0 map to Enabled/Blocked, Disabled/Unblocked and Error, in both parsers also after a noise prefix |
| `HelpersVectors.StatusRejections` | src/helpers.rs:476-564 | bad checksum, bad status 0x03, 2 bytes, the empty buffer, and address 0xDF are all rejected, in both parsers |
| `HelpersVectors.ConversionVectors` | src/helpers.rs:256-285 | the tested points of `angle_to_steps`, `encoder_val_to_degrees` and `EncoderValue::to_degrees` |

## Where the model departs from the documentation

- **Angle-error byte order.** The doc comment of
  `parse_motor_shaft_angle_error` calls the value bytes low byte, then high
  byte. The code and its tests read them big-endian
  (src/helpers.rs:93, 120, 312-317). The model follows the code.
- **`ShaftErrValue::to_degrees`.** It divides the raw value by 360
  (src/helpers.rs:86). The decoder's comment speaks of 65536/360 units per
  degree (src/helpers.rs:99). The model keeps the division as written.
- **Missing enums.** `ShaftStatus` and `SaveClearStatus` are re-exported
  from `src/enums.rs` (src/lib.rs:15) but not defined there.
  - `ShaftStatus` follows its use in `parse_shaft_status_response`
    (src/helpers.rs:241-245): Error 0x00, Blocked 0x01, Unblocked 0x02.
  - `SaveClearStatus` has only `Clear`, code 0xCA (tests/integration.rs:772).
- **API mismatch.** The integration tests and the example program call
  operations that `src/lib.rs` does not define, such as
  `run_with_constant_speed`, `run_motor`, `RotationDirection` and an
  enum-taking `set_direction`. The model follows `src/lib.rs`:
  `run_speed`, `run_position`, `direction::Direction` and
  `set_direction(bool)`.
- **`Error::Checksum`** is declared, but no operation produces it
  (errors.dfy).

## Findings

| source | as written | input that shows it | evidently intended | confidence | as-written member | corrected member |
|---|---|---|---|---|---|---|
| src/helpers.rs:51-54 | the encoder scan accepts an address when `idx + 5 < data.len()`, then reads `data[idx..idx + 7]` and `data[idx + 7]` | `[E0, 00, 00, 00, 00, 00, 00]` (7 bytes) and `[00, E0, 00, 00, 00, 00, 00, 00]`: an address 6 or 7 bytes from the end indexes past the buffer and panics | `idx + 7 < data.len()`, so such a buffer yields `Err(InvalidPacket)` | high (not executed) | `HelpersProps.EncoderGuardPanics` | `Helpers.ParseEncoderResponse` |

The scan as written is `HelpersProps.EncoderScanAsWritten`. Its outcome is
`Panicked` where Rust would panic. `HelpersProps.EncoderAsWrittenAgrees`
proves that wherever it does not panic, it returns what the corrected
`Helpers.EncoderResponse` returns. The corrected guard is therefore the only
change.

## Left out

- Serial I/O, timing and the hardware test harness (tests/test_utils.rs,
  tests/integration.rs, examples/base.rs). The harness reads and drains the
  port, sleeps and loads the environment, and the tests call operations that
  `src/lib.rs` does not have.
- The test-policy helpers of tests/safety.rs. They are not part of the codec.
- `Error::as_str`. It is a string table with no logic. `Error` is a plain datatype.
- `SaveClearStatus::Save` and any `ShaftStatus` code beyond 0x00..0x02. No
  source file gives their byte values.
- `Driver`'s `Copy`/`Clone`. A Rust copy duplicates the buffer. The model
  has one driver object per allocation and does not model copies.
- Returned slices are values. A builder returns the frame as a `seq`, the
  contents of the borrowed `&self.buffer[..=len]` at return time. The borrow
  itself is not modelled.
- Helpers.AngleToSteps: f32 arithmetic is idealised over `real`. Rust's f32
  rounding is not modelled, so the contract is the exact-arithmetic rounding;
  at the tested points, where f32 is exact, the results are proved
  (`HelpersVectors.ConversionVectors`). `as u32` truncation and saturation
  are `Helpers.SaturatingRound`. NaN, which `as u32` maps to 0, has no `real`
  counterpart.
- Helpers.EncoderValue.ToDegrees: idealised over `real`, as above. The
  contract only bounds the result to `[360 carry, 360 (carry + 1))`; the exact
  value is pinned down only at the tested points
  (`HelpersVectors.ConversionVectors`).
- Helpers.ShaftErrValue.ToDegrees: idealised over `real`, as above.
- Helpers.MotorShaftAngle.ToDegrees: idealised over `real`, as above.
- Helpers.EncoderValToDegrees: idealised over `real`, as above.
