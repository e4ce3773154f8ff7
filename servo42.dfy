/**
 * The command encoder (src/lib.rs): the protocol constants, the checksum, and
 * `Driver`, which packs `[address, opcode, payload..., checksum]` into its own
 * ten-byte scratch buffer and hands back the filled prefix.
 */
module Servo42 {
  import opened Bytes
  import opened Wrappers
  import opened Errors
  import opened Directions
  import opened Enums

  const DEFAULT_ADDRESS: uint8 := 0xE0
  const MIN_ADDRESS: uint8 := 0xE0
  const MAX_ADDRESS: uint8 := 0xE9

  const MAX_SPEED: uint8 := 0x7F
  const MAX_CURRENT_INDEX: uint8 := 0x0F
  const MAX_SUBDIVISION_INDEX: uint8 := 0x08
  const MAX_ZERO_SPEED: uint8 := 0x04
  const CURRENT_STEP_MA: uint16 := 200
  const MAX_TORQUE_LIMIT: uint16 := 0x4B0

  const CMD_BUFFER_SIZE: nat := 10

  // Opcodes.
  const READ_ENCODER_VALUE: uint8 := 0x30
  const READ_PULSE_COUNT: uint8 := 0x33
  const READ_MOTOR_SHAFT_ANGLE: uint8 := 0x36
  const READ_MOTOR_SHAFT_ANGLE_ERROR: uint8 := 0x39
  const READ_EN_PIN_STATUS: uint8 := 0x3A
  const READ_RELEASE_STATUS: uint8 := 0x3D
  const READ_SHAFT_STATUS: uint8 := 0x3E
  const SAVE_CLEAR_STATUS: uint8 := 0xFF
  const CALIBRATE_ENCODER: uint8 := 0x80
  const SET_CURRENT_LIMIT: uint8 := 0x83
  const SET_SUBDIVISION: uint8 := 0x84
  const SET_EN_LOGIC: uint8 := 0x85
  const SET_DIRECTION: uint8 := 0x86
  const SET_AUTO_SCREEN_OFF: uint8 := 0x87
  const SET_PROTECTION: uint8 := 0x88
  const SET_INTERPOLATION: uint8 := 0x89
  const SET_ZERO_MODE: uint8 := 0x90
  const SET_CURRENT_AS_ZERO: uint8 := 0x91
  const SET_ZERO_SPEED: uint8 := 0x92
  const SET_ZERO_DIRECTION: uint8 := 0x93
  const GO_TO_ZERO: uint8 := 0x94
  const SET_POSITION_KP: uint8 := 0xA1
  const SET_POSITION_KI: uint8 := 0xA2
  const SET_POSITION_KD: uint8 := 0xA3
  const SET_ACCELERATION: uint8 := 0xA4
  const SET_MAX_TORQUE: uint8 := 0xA5
  const ENABLE_MOTOR: uint8 := 0xF3
  const RUN_SPEED: uint8 := 0xF6
  const STOP: uint8 := 0xF7
  const RUN_POSITION: uint8 := 0xFD

  /** `u8::from(b)`. */
  function FromBool(b: bool): (r: uint8)
    ensures r <= 1 && (r == 1 <==> b)
  {
    if b then 1 else 0
  }

  /** The left fold of `calculate_checksum`, from the accumulator `acc`. */
  function ChecksumFrom(acc: uint8, bytes: seq<uint8>): uint8
    decreases |bytes|
  {
    if bytes == [] then acc else ChecksumFrom(WrappingAdd(acc, bytes[0]), bytes[1..])
  }

  lemma {:induction false} ChecksumFromIsSum(acc: uint8, bytes: seq<uint8>)
    ensures ChecksumFrom(acc, bytes) == (acc + Sum(bytes)) % 0x100
    decreases |bytes|
  {
    if bytes != [] {
      ChecksumFromIsSum(WrappingAdd(acc, bytes[0]), bytes[1..]);
    }
  }

  /** `calculate_checksum`: the wrapping byte fold is the sum of the bytes modulo 256. */
  function CalculateChecksum(bytes: seq<uint8>): (cs: uint8)
    ensures cs == Sum(bytes) % 0x100
  {
    ChecksumFromIsSum(0, bytes);
    ChecksumFrom(0, bytes)
  }

  lemma ChecksumExample()
    ensures CalculateChecksum([0xE0, 0xF6, 0x01]) == 0xD7
  {
  }

  /** The frame `build_command(cmd)` hands back: the command followed by its checksum. */
  function Command(cmd: seq<uint8>): (frame: seq<uint8>)
    ensures |frame| == |cmd| + 1 && frame[..|cmd|] == cmd
    ensures frame[|cmd|] == Sum(cmd) % 0x100
  {
    cmd + [CalculateChecksum(cmd)]
  }

  /** Every frame's checksum byte is the wrapping sum of all the bytes before it. */
  lemma {:induction false} CommandChecksum(cmd: seq<uint8>)
    ensures var f := Command(cmd); f[|f| - 1] == Sum(f[..|f| - 1]) % 0x100
  {
  }

  /** run_position's pulse bytes are the big-endian count, so reading them back gives the count. */
  lemma RunPositionPulses(address: uint8, d: Direction, speed: uint8, pulses: uint32)
    ensures var f := Command([address, RUN_POSITION, SpeedByte(d, speed)] + ToBigEndian(pulses, 4));
      |f| == 8 && f[7] == Sum(f[..7]) % 0x100 && Uint32FromBytes(f[3..7]) == pulses
  {
    var f := Command([address, RUN_POSITION, SpeedByte(d, speed)] + ToBigEndian(pulses, 4));
    assert f[3..7] == ToBigEndian(pulses, 4);
    Uint32RoundTrip(pulses);
  }

  /** The five two-byte setters put `value` big-endian into bytes 2 and 3 of a five-byte frame. */
  lemma TwoByteSetterValue(address: uint8, opcode: uint8, value: uint16)
    ensures var f := Command([address, opcode] + ToBigEndian(value, 2));
      |f| == 5 && f[2] as int * 0x100 + f[3] == value
  {
    var f := Command([address, opcode] + ToBigEndian(value, 2));
    assert f[2..4] == ToBigEndian(value, 2);
    Uint16RoundTrip(value);
  }

  /** `Driver`: the target address and the scratch buffer every builder writes into. */
  class Driver {
    const address: uint8
    const buffer: array<uint8>

    ghost predicate Valid()
      reads this
    {
      buffer.Length == CMD_BUFFER_SIZE
    }

    /**
     * The buffer now starts with `frame` and every cell after it holds what it
     * held before the call.
     */
    twostate predicate Emitted(frame: seq<uint8>)
      reads this, buffer
    {
      && |frame| <= buffer.Length
      && buffer[..|frame|] == frame
      && forall i :: |frame| <= i < buffer.Length ==> buffer[i] == old(buffer[i])
    }

    /** `Driver::default()`: address 0xE0 and a zeroed buffer. */
    constructor Default()
      ensures Valid() && fresh(buffer)
      ensures address == DEFAULT_ADDRESS
      ensures forall i :: 0 <= i < buffer.Length ==> buffer[i] == 0
    {
      address := DEFAULT_ADDRESS;
      buffer := new uint8[CMD_BUFFER_SIZE](_ => 0);
    }

    /** `Driver::with_address(address)`: any byte is stored, in range or not. */
    constructor WithAddress(address: uint8)
      ensures Valid() && fresh(buffer)
      ensures this.address == address
      ensures forall i :: 0 <= i < buffer.Length ==> buffer[i] == 0
    {
      this.address := address;
      buffer := new uint8[CMD_BUFFER_SIZE](_ => 0);
    }

    /** `build_command`: copy the command into the buffer, append its checksum, hand back the prefix. */
    method BuildCommand(cmd: seq<uint8>) returns (frame: seq<uint8>)
      requires Valid() && |cmd| < CMD_BUFFER_SIZE
      modifies buffer
      ensures Valid()
      ensures frame == Command(cmd)
      ensures Emitted(frame)
    {
      var len := |cmd|;
      forall i | 0 <= i < len {
        buffer[i] := cmd[i];
      }
      buffer[len] := CalculateChecksum(cmd);
      frame := buffer[..len + 1];
    }

    /** `enable_motor`: payload 1 to enable, 0 to disable. */
    method EnableMotor(enable: bool) returns (frame: seq<uint8>)
      requires Valid()
      modifies buffer
      ensures Valid()
      ensures frame == Command([address, ENABLE_MOTOR, FromBool(enable)])
      ensures Emitted(frame)
    {
      frame := BuildCommand([address, ENABLE_MOTOR, FromBool(enable)]);
    }

    /** `run_speed`: rejects a speed above MAX_SPEED; otherwise direction in bit 7 of the speed byte. */
    method RunSpeed(direction: Direction, speed: uint8) returns (r: Result<seq<uint8>, Error>)
      requires Valid()
      modifies buffer
      ensures Valid()
      ensures r.Err? <==> speed > MAX_SPEED
      ensures r.Err? ==> r.error == InvalidValue && unchanged(buffer)
      ensures r.Ok? ==> r.value == Command([address, RUN_SPEED, SpeedByte(direction, speed)]) && Emitted(r.value)
    {
      if speed > MAX_SPEED {
        return Err(InvalidValue);
      }
      var frame := BuildCommand([address, RUN_SPEED, SpeedByte(direction, speed)]);
      return Ok(frame);
    }

    /** `stop`. */
    method Stop() returns (frame: seq<uint8>)
      requires Valid()
      modifies buffer
      ensures Valid()
      ensures frame == Command([address, STOP])
      ensures Emitted(frame)
    {
      frame := BuildCommand([address, STOP]);
    }

    /** `save_clear_status`. */
    method SaveClearStatus(operation: Enums.SaveClearStatus) returns (frame: seq<uint8>)
      requires Valid()
      modifies buffer
      ensures Valid()
      ensures frame == Command([address, SAVE_CLEAR_STATUS, SaveClearStatusCode(operation)])
      ensures Emitted(frame)
    {
      frame := BuildCommand([address, SAVE_CLEAR_STATUS, SaveClearStatusCode(operation)]);
    }

    /** `run_position`: rejects a speed above MAX_SPEED; otherwise the speed byte, then the pulse count big-endian. */
    method RunPosition(direction: Direction, speed: uint8, pulses: uint32) returns (r: Result<seq<uint8>, Error>)
      requires Valid()
      modifies buffer
      ensures Valid()
      ensures r.Err? <==> speed > MAX_SPEED
      ensures r.Err? ==> r.error == InvalidValue && unchanged(buffer)
      ensures r.Ok? ==> r.value == Command([address, RUN_POSITION, SpeedByte(direction, speed)] + ToBigEndian(pulses, 4)) && Emitted(r.value)
    {
      if speed > MAX_SPEED {
        return Err(InvalidValue);
      }
      var frame := BuildCommand([address, RUN_POSITION, SpeedByte(direction, speed)] + ToBigEndian(pulses, 4));
      return Ok(frame);
    }

    /** `calibrate_encoder`. */
    method CalibrateEncoder() returns (frame: seq<uint8>)
      requires Valid()
      modifies buffer
      ensures Valid()
      ensures frame == Command([address, CALIBRATE_ENCODER, 0x00])
      ensures Emitted(frame)
    {
      frame := BuildCommand([address, CALIBRATE_ENCODER, 0x00]);
    }

    /** `set_current_limit`: rejects an index above MAX_CURRENT_INDEX. */
    method SetCurrentLimit(index: uint8) returns (r: Result<seq<uint8>, Error>)
      requires Valid()
      modifies buffer
      ensures Valid()
      ensures r.Err? <==> index > MAX_CURRENT_INDEX
      ensures r.Err? ==> r.error == InvalidValue && unchanged(buffer)
      ensures r.Ok? ==> r.value == Command([address, SET_CURRENT_LIMIT, index]) && Emitted(r.value)
    {
      if index > MAX_CURRENT_INDEX {
        return Err(InvalidValue);
      }
      var frame := BuildCommand([address, SET_CURRENT_LIMIT, index]);
      return Ok(frame);
    }

    /** `set_subdivision`: rejects an index above MAX_SUBDIVISION_INDEX. */
    method SetSubdivision(stepIndex: uint8) returns (r: Result<seq<uint8>, Error>)
      requires Valid()
      modifies buffer
      ensures Valid()
      ensures r.Err? <==> stepIndex > MAX_SUBDIVISION_INDEX
      ensures r.Err? ==> r.error == InvalidValue && unchanged(buffer)
      ensures r.Ok? ==> r.value == Command([address, SET_SUBDIVISION, stepIndex]) && Emitted(r.value)
    {
      if stepIndex > MAX_SUBDIVISION_INDEX {
        return Err(InvalidValue);
      }
      var frame := BuildCommand([address, SET_SUBDIVISION, stepIndex]);
      return Ok(frame);
    }

    /** `set_enable_logic`. */
    method SetEnableLogic(logic: EnLogic) returns (frame: seq<uint8>)
      requires Valid()
      modifies buffer
      ensures Valid()
      ensures frame == Command([address, SET_EN_LOGIC, EnLogicCode(logic)])
      ensures Emitted(frame)
    {
      frame := BuildCommand([address, SET_EN_LOGIC, EnLogicCode(logic)]);
    }

    /** `set_direction`: payload 0 for clockwise, 1 otherwise. */
    method SetDirection(clockwise: bool) returns (frame: seq<uint8>)
      requires Valid()
      modifies buffer
      ensures Valid()
      ensures frame == Command([address, SET_DIRECTION, FromBool(!clockwise)])
      ensures Emitted(frame)
    {
      frame := BuildCommand([address, SET_DIRECTION, FromBool(!clockwise)]);
    }

    /** `set_auto_screen_off`: payload 0 to enable, 1 to disable. */
    method SetAutoScreenOff(enable: bool) returns (frame: seq<uint8>)
      requires Valid()
      modifies buffer
      ensures Valid()
      ensures frame == Command([address, SET_AUTO_SCREEN_OFF, FromBool(!enable)])
      ensures Emitted(frame)
    {
      frame := BuildCommand([address, SET_AUTO_SCREEN_OFF, FromBool(!enable)]);
    }

    /** `set_stall_protection`: payload 0 to enable, 1 to disable. */
    method SetStallProtection(enable: bool) returns (frame: seq<uint8>)
      requires Valid()
      modifies buffer
      ensures Valid()
      ensures frame == Command([address, SET_PROTECTION, FromBool(!enable)])
      ensures Emitted(frame)
    {
      frame := BuildCommand([address, SET_PROTECTION, FromBool(!enable)]);
    }

    /** `set_interpolation`: payload 0 to enable, 1 to disable. */
    method SetInterpolation(enable: bool) returns (frame: seq<uint8>)
      requires Valid()
      modifies buffer
      ensures Valid()
      ensures frame == Command([address, SET_INTERPOLATION, FromBool(!enable)])
      ensures Emitted(frame)
    {
      frame := BuildCommand([address, SET_INTERPOLATION, FromBool(!enable)]);
    }

    /** `set_zero_mode`. */
    method SetZeroMode(mode: ZeroMode) returns (frame: seq<uint8>)
      requires Valid()
      modifies buffer
      ensures Valid()
      ensures frame == Command([address, SET_ZERO_MODE, ZeroModeCode(mode)])
      ensures Emitted(frame)
    {
      frame := BuildCommand([address, SET_ZERO_MODE, ZeroModeCode(mode)]);
    }

    /** `set_current_as_zero`. */
    method SetCurrentAsZero() returns (frame: seq<uint8>)
      requires Valid()
      modifies buffer
      ensures Valid()
      ensures frame == Command([address, SET_CURRENT_AS_ZERO, 0x00])
      ensures Emitted(frame)
    {
      frame := BuildCommand([address, SET_CURRENT_AS_ZERO, 0x00]);
    }

    /** `set_zero_speed`: rejects a speed index above MAX_ZERO_SPEED. */
    method SetZeroSpeed(speed: uint8) returns (r: Result<seq<uint8>, Error>)
      requires Valid()
      modifies buffer
      ensures Valid()
      ensures r.Err? <==> speed > MAX_ZERO_SPEED
      ensures r.Err? ==> r.error == InvalidValue && unchanged(buffer)
      ensures r.Ok? ==> r.value == Command([address, SET_ZERO_SPEED, speed]) && Emitted(r.value)
    {
      if speed > MAX_ZERO_SPEED {
        return Err(InvalidValue);
      }
      var frame := BuildCommand([address, SET_ZERO_SPEED, speed]);
      return Ok(frame);
    }

    /** `go_to_zero`. */
    method GoToZero() returns (frame: seq<uint8>)
      requires Valid()
      modifies buffer
      ensures Valid()
      ensures frame == Command([address, GO_TO_ZERO, 0x00])
      ensures Emitted(frame)
    {
      frame := BuildCommand([address, GO_TO_ZERO, 0x00]);
    }

    /** `set_zero_direction`: payload 0 for clockwise, 1 otherwise. */
    method SetZeroDirection(clockwise: bool) returns (frame: seq<uint8>)
      requires Valid()
      modifies buffer
      ensures Valid()
      ensures frame == Command([address, SET_ZERO_DIRECTION, FromBool(!clockwise)])
      ensures Emitted(frame)
    {
      frame := BuildCommand([address, SET_ZERO_DIRECTION, FromBool(!clockwise)]);
    }

    /** `set_position_kp`: the coefficient big-endian. */
    method SetPositionKp(value: uint16) returns (frame: seq<uint8>)
      requires Valid()
      modifies buffer
      ensures Valid()
      ensures frame == Command([address, SET_POSITION_KP] + ToBigEndian(value, 2))
      ensures Emitted(frame)
    {
      frame := BuildCommand([address, SET_POSITION_KP] + ToBigEndian(value, 2));
    }

    /** `set_position_ki`: the coefficient big-endian. */
    method SetPositionKi(value: uint16) returns (frame: seq<uint8>)
      requires Valid()
      modifies buffer
      ensures Valid()
      ensures frame == Command([address, SET_POSITION_KI] + ToBigEndian(value, 2))
      ensures Emitted(frame)
    {
      frame := BuildCommand([address, SET_POSITION_KI] + ToBigEndian(value, 2));
    }

    /** `set_position_kd`: the coefficient big-endian. */
    method SetPositionKd(value: uint16) returns (frame: seq<uint8>)
      requires Valid()
      modifies buffer
      ensures Valid()
      ensures frame == Command([address, SET_POSITION_KD] + ToBigEndian(value, 2))
      ensures Emitted(frame)
    {
      frame := BuildCommand([address, SET_POSITION_KD] + ToBigEndian(value, 2));
    }

    /** `set_acceleration`: the value big-endian. */
    method SetAcceleration(value: uint16) returns (frame: seq<uint8>)
      requires Valid()
      modifies buffer
      ensures Valid()
      ensures frame == Command([address, SET_ACCELERATION] + ToBigEndian(value, 2))
      ensures Emitted(frame)
    {
      frame := BuildCommand([address, SET_ACCELERATION] + ToBigEndian(value, 2));
    }

    /** `set_max_torque`: rejects a value above MAX_TORQUE_LIMIT; otherwise the value big-endian. */
    method SetMaxTorque(value: uint16) returns (r: Result<seq<uint8>, Error>)
      requires Valid()
      modifies buffer
      ensures Valid()
      ensures r.Err? <==> value > MAX_TORQUE_LIMIT
      ensures r.Err? ==> r.error == InvalidValue && unchanged(buffer)
      ensures r.Ok? ==> r.value == Command([address, SET_MAX_TORQUE] + ToBigEndian(value, 2)) && Emitted(r.value)
    {
      if value > MAX_TORQUE_LIMIT {
        return Err(InvalidValue);
      }
      var frame := BuildCommand([address, SET_MAX_TORQUE] + ToBigEndian(value, 2));
      return Ok(frame);
    }

    /** `read_shaft_status`. */
    method ReadShaftStatus() returns (frame: seq<uint8>)
      requires Valid()
      modifies buffer
      ensures Valid()
      ensures frame == Command([address, READ_SHAFT_STATUS])
      ensures Emitted(frame)
    {
      frame := BuildCommand([address, READ_SHAFT_STATUS]);
    }

    /** `read_encoder_value`. */
    method ReadEncoderValue() returns (frame: seq<uint8>)
      requires Valid()
      modifies buffer
      ensures Valid()
      ensures frame == Command([address, READ_ENCODER_VALUE])
      ensures Emitted(frame)
    {
      frame := BuildCommand([address, READ_ENCODER_VALUE]);
    }

    /** `read_pulse_count`. */
    method ReadPulseCount() returns (frame: seq<uint8>)
      requires Valid()
      modifies buffer
      ensures Valid()
      ensures frame == Command([address, READ_PULSE_COUNT])
      ensures Emitted(frame)
    {
      frame := BuildCommand([address, READ_PULSE_COUNT]);
    }

    /** `read_motor_shaft_angle`. */
    method ReadMotorShaftAngle() returns (frame: seq<uint8>)
      requires Valid()
      modifies buffer
      ensures Valid()
      ensures frame == Command([address, READ_MOTOR_SHAFT_ANGLE])
      ensures Emitted(frame)
    {
      frame := BuildCommand([address, READ_MOTOR_SHAFT_ANGLE]);
    }

    /** `read_en_pin_status`. */
    method ReadEnPinStatus() returns (frame: seq<uint8>)
      requires Valid()
      modifies buffer
      ensures Valid()
      ensures frame == Command([address, READ_EN_PIN_STATUS])
      ensures Emitted(frame)
    {
      frame := BuildCommand([address, READ_EN_PIN_STATUS]);
    }

    /** `read_motor_shaft_angle_error`. */
    method ReadMotorShaftAngleError() returns (frame: seq<uint8>)
      requires Valid()
      modifies buffer
      ensures Valid()
      ensures frame == Command([address, READ_MOTOR_SHAFT_ANGLE_ERROR])
      ensures Emitted(frame)
    {
      frame := BuildCommand([address, READ_MOTOR_SHAFT_ANGLE_ERROR]);
    }

    /** `read_release_status`. */
    method ReadReleaseStatus() returns (frame: seq<uint8>)
      requires Valid()
      modifies buffer
      ensures Valid()
      ensures frame == Command([address, READ_RELEASE_STATUS])
      ensures Emitted(frame)
    {
      frame := BuildCommand([address, READ_RELEASE_STATUS]);
    }
  }

  /**
   * The documented speed boundary on a fresh default driver: speed 0x7F is
   * accepted, speed 0x80 is rejected.
   */
  method SpeedBoundary() returns (fastest: Result<seq<uint8>, Error>, tooFast: Result<seq<uint8>, Error>)
    ensures fastest == Ok([0xE0, RUN_SPEED, 0xFF, 0xD5])
    ensures tooFast == Err(InvalidValue)
  {
    var d := new Driver.Default();
    fastest := d.RunSpeed(Forward, 0x7F);
    SumShort([0xE0, RUN_SPEED, 0xFF]);
    assert SpeedByte(Forward, 0x7F) == 0xFF;
    assert fastest.value == Command([0xE0, RUN_SPEED, 0xFF]);
    assert Command([0xE0, RUN_SPEED, 0xFF]) == [0xE0, RUN_SPEED, 0xFF, 0xD5];
    tooFast := d.RunSpeed(Forward, 0x80);
  }

  /**
   * The documented torque boundary on a fresh default driver: torque 0x4B0 is
   * accepted, torque 0x4B1 is rejected.
   */
  method TorqueBoundary() returns (strongest: Result<seq<uint8>, Error>, tooStrong: Result<seq<uint8>, Error>)
    ensures strongest == Ok([0xE0, SET_MAX_TORQUE, 0x04, 0xB0, 0x39])
    ensures tooStrong == Err(InvalidValue)
  {
    var d := new Driver.Default();
    assert ToBigEndian(0x4B0, 2) == [0x04, 0xB0];
    strongest := d.SetMaxTorque(0x4B0);
    SumShort([0xE0, SET_MAX_TORQUE, 0x04, 0xB0]);
    assert [d.address, SET_MAX_TORQUE] + ToBigEndian(0x4B0, 2) == [0xE0, SET_MAX_TORQUE, 0x04, 0xB0];
    assert Command([0xE0, SET_MAX_TORQUE, 0x04, 0xB0]) == [0xE0, SET_MAX_TORQUE, 0x04, 0xB0, 0x39];
    tooStrong := d.SetMaxTorque(0x4B1);
  }
}
