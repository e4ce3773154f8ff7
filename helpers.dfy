/**
 * The response decoders of src/helpers.rs and the unit conversions beside
 * them. Each parser scans a received buffer for its first frame (see Frames)
 * and decodes that window; the conversions are stated over `real`.
 */
module Helpers {
  import opened Bytes
  import opened Wrappers
  import opened Errors
  import Enums
  import opened Frames
  import Servo42

  const STEPS_PER_REV: real := 200.0
  const ENCODER_RESOLUTION: real := 65536.0

  // ---------------------------------------------------------------- values

  /** An absolute encoder reading: whole turns and the position within the turn. */
  datatype EncoderValue = EncoderValue(carry: int32, value: uint16) {

    /** `EncoderValue::to_degrees`: 360 per turn plus the in-turn position. */
    function ToDegrees(): (d: real)
      ensures carry as real * 360.0 <= d < (carry + 1) as real * 360.0
    {
      carry as real * 360.0 + EncoderValToDegrees(value)
    }
  }

  /** A shaft angle error in encoder units. */
  datatype ShaftErrValue = ShaftErrValue(value: int16) {

    /** `ShaftErrValue::to_degrees`: the raw value divided by 360. */
    function ToDegrees(): (d: real)
      ensures d * 360.0 == value as real
    {
      value as real / 360.0
    }
  }

  /** A shaft angle in encoder units, 65536 per turn. */
  datatype MotorShaftAngle = MotorShaftAngle(value: int32) {

    /** `MotorShaftAngle::to_degrees`. */
    function ToDegrees(): (d: real)
      ensures d * ENCODER_RESOLUTION == value as real * 360.0
    {
      (value as real / ENCODER_RESOLUTION) * 360.0
    }
  }

  datatype EnPinStatus = Enabled | Disabled | Error

  /** The status byte of each EN pin state. */
  function EnPinStatusCode(s: EnPinStatus): (c: uint8)
    ensures c <= 0x02
    ensures c == 0x00 <==> s == Error
    ensures c == 0x01 <==> s == Enabled
  {
    match s
    case Error => 0x00
    case Enabled => 0x01
    case Disabled => 0x02
  }

  // ----------------------------------------------------------- conversions

  /** `encoder_val_to_degrees`: a fraction of a turn, in [0, 360). */
  function EncoderValToDegrees(val: uint16): (d: real)
    ensures 0.0 <= d < 360.0
    ensures d * ENCODER_RESOLUTION == val as real * 360.0
  {
    (val as real / ENCODER_RESOLUTION) * 360.0
  }

  /**
   * `steps + 0.5` cast with `as u32`, which truncates toward zero and
   * saturates: below zero it gives 0, at or above 2^32 it gives `u32::MAX`.
   */
  function SaturatingRound(x: real): (n: uint32)
    ensures 0.0 <= x + 0.5 < 4294967296.0 ==> n as real <= x + 0.5 < n as real + 1.0
    ensures x + 0.5 < 0.0 ==> n == 0
    ensures x + 0.5 >= 4294967296.0 ==> n == 0xFFFF_FFFF
  {
    var y := x + 0.5;
    if y < 0.0 then 0 else if y >= 4294967296.0 then 0xFFFF_FFFF else y.Floor
  }

  /** `angle_to_steps`: the pulses for `angle` degrees at `microsteps` per full step, rounded half up. */
  function AngleToSteps(angle: real, microsteps: real): (steps: uint32)
    ensures var x := (angle / 360.0) * STEPS_PER_REV * microsteps;
      && (-0.5 <= x < 4294967295.5 ==> x - 0.5 < steps as real <= x + 0.5)
      && (x < -0.5 ==> steps == 0)
      && (x >= 4294967295.5 ==> steps == 0xFFFF_FFFF)
  {
    SaturatingRound((angle / 360.0) * STEPS_PER_REV * microsteps)
  }

  // -------------------------------------------------------------- decoding

  /** Bytes 1..4 are the signed carry, bytes 5..6 the unsigned position, both big-endian. */
  function DecodeEncoder(w: seq<uint8>): (r: EncoderValue)
    requires |w| == 8
    ensures ToBigEndian(Uint32OfInt32(r.carry), 4) == w[1..5]
    ensures ToBigEndian(r.value, 2) == w[5..7]
    ensures r.carry < 0 <==> w[1] >= 0x80
  {
    ToFromBigEndian(w[1..5]);
    ToFromBigEndian(w[5..7]);
    EncoderValue(Int32FromBytes(w[1..5]), Uint16FromBytes(w[5..7]))
  }

  /** Bytes 1..2 are the signed error, big-endian. */
  function DecodeAngleError(w: seq<uint8>): (r: ShaftErrValue)
    requires |w| == 5
    ensures ToBigEndian(Uint16OfInt16(r.value), 2) == w[1..3]
    ensures r.value < 0 <==> w[1] >= 0x80
  {
    ToFromBigEndian(w[1..3]);
    ShaftErrValue(Int16FromBytes(w[1..3]))
  }

  /** Bytes 1..4 are the signed angle, big-endian. */
  function DecodeShaftAngle(w: seq<uint8>): (r: MotorShaftAngle)
    requires |w| == 6
    ensures ToBigEndian(Uint32OfInt32(r.value), 4) == w[1..5]
    ensures r.value < 0 <==> w[1] >= 0x80
  {
    ToFromBigEndian(w[1..5]);
    MotorShaftAngle(Int32FromBytes(w[1..5]))
  }

  /** Byte 1 is the status; only 0x00, 0x01 and 0x02 are states. */
  function DecodeEnPin(w: seq<uint8>): (r: Result<EnPinStatus, Errors.Error>)
    requires |w| == 3
    ensures r.Ok? <==> w[1] <= 0x02
    ensures r.Ok? ==> EnPinStatusCode(r.value) == w[1]
    ensures r.Err? ==> r.error == InvalidPacket
  {
    match w[1]
    case 0x01 => Ok(Enabled)
    case 0x02 => Ok(Disabled)
    case 0x00 => Ok(EnPinStatus.Error)
    case _ => Err(InvalidPacket)
  }

  /** Byte 1 is the status; only 0x00, 0x01 and 0x02 are states. */
  function DecodeShaftStatus(w: seq<uint8>): (r: Result<Enums.ShaftStatus, Errors.Error>)
    requires |w| == 3
    ensures r.Ok? <==> w[1] <= 0x02
    ensures r.Ok? ==> Enums.ShaftStatusCode(r.value) == w[1]
    ensures r.Err? ==> r.error == InvalidPacket
  {
    match w[1]
    case 0x01 => Ok(Enums.Blocked)
    case 0x02 => Ok(Enums.Unblocked)
    case 0x00 => Ok(Enums.ShaftStatus.Error)
    case _ => Err(InvalidPacket)
  }

  // ------------------------------------------- the parsers, as functions

  /** What `parse_encoder_response` returns: the first encoder frame, decoded. */
  function EncoderResponse(data: seq<uint8>): Result<EncoderValue, Errors.Error>
  {
    match FirstFrame(ENCODER_FRAME, data)
    case Some(k) => Ok(DecodeEncoder(data[k..k + 8]))
    case None => Err(InvalidPacket)
  }

  /** What `parse_motor_shaft_angle_error` returns. */
  function AngleErrorResponse(data: seq<uint8>): Result<ShaftErrValue, Errors.Error>
  {
    match FirstFrame(ANGLE_ERROR_FRAME, data)
    case Some(k) => Ok(DecodeAngleError(data[k..k + 5]))
    case None => Err(InvalidPacket)
  }

  /** What `parse_motor_shaft_angle_response` returns. */
  function ShaftAngleResponse(data: seq<uint8>): Result<MotorShaftAngle, Errors.Error>
  {
    match FirstFrame(SHAFT_ANGLE_FRAME, data)
    case Some(k) => Ok(DecodeShaftAngle(data[k..k + 6]))
    case None => Err(InvalidPacket)
  }

  /** What `parse_en_pin_status_response` returns: the first frame decides, even with a bad status byte. */
  function EnPinResponse(data: seq<uint8>): Result<EnPinStatus, Errors.Error>
  {
    match FirstFrame(STATUS_FRAME, data)
    case Some(k) => DecodeEnPin(data[k..k + 3])
    case None => Err(InvalidPacket)
  }

  /** What `parse_shaft_status_response` returns: the first frame decides, even with a bad status byte. */
  function ShaftStatusResponse(data: seq<uint8>): Result<Enums.ShaftStatus, Errors.Error>
  {
    match FirstFrame(STATUS_FRAME, data)
    case Some(k) => DecodeShaftStatus(data[k..k + 3])
    case None => Err(InvalidPacket)
  }

  // --------------------------------------------- the parsers, as scans

  /**
   * `parse_encoder_response`, with the length guard it needs (`idx + 7 < len`);
   * the guard as written is modelled by HelpersProps.EncoderScanAsWritten.
   */
  method ParseEncoderResponse(data: seq<uint8>) returns (r: Result<EncoderValue, Errors.Error>)
    ensures r == EncoderResponse(data)
  {
    var idx := 0;
    while idx < |data|
      invariant idx <= |data|
      invariant forall j :: 0 <= j < idx ==> !FrameAt(ENCODER_FRAME, data, j)
    {
      if Servo42.MIN_ADDRESS <= data[idx] <= Servo42.MAX_ADDRESS && idx + 7 < |data| {
        var sum := Sum(data[idx..idx + 7]);
        if sum % 0x100 == data[idx + 7] {
          var carry := Int32FromBytes(data[idx + 1..idx + 5]);
          var value := Uint16FromBytes(data[idx + 5..idx + 7]);
          FirstFrameIs(ENCODER_FRAME, data, idx);
          SliceOfSlice(data, idx, idx + 8, 1, 5);
          SliceOfSlice(data, idx, idx + 8, 5, 7);
          return Ok(EncoderValue(carry, value));
        }
      }
      idx := idx + 1;
    }
    return Err(InvalidPacket);
  }

  /** `parse_motor_shaft_angle_error`: the trailing 0x00 is checked before the checksum over bytes 0..2. */
  method ParseMotorShaftAngleError(data: seq<uint8>) returns (r: Result<ShaftErrValue, Errors.Error>)
    ensures r == AngleErrorResponse(data)
  {
    var idx := 0;
    while idx < |data|
      invariant idx <= |data|
      invariant forall j :: 0 <= j < idx ==> !FrameAt(ANGLE_ERROR_FRAME, data, j)
    {
      if Servo42.MIN_ADDRESS <= data[idx] <= Servo42.MAX_ADDRESS && idx + 4 < |data| {
        if data[idx + 4] != 0x00 {
          idx := idx + 1;
          continue;
        }
        var sum := Sum(data[idx..idx + 3]);
        if sum % 0x100 != data[idx + 3] {
          idx := idx + 1;
          continue;
        }
        var value := Int16FromBytes(data[idx + 1..idx + 3]);
        FirstFrameIs(ANGLE_ERROR_FRAME, data, idx);
        SliceOfSlice(data, idx, idx + 5, 1, 3);
        return Ok(ShaftErrValue(value));
      }
      idx := idx + 1;
    }
    return Err(InvalidPacket);
  }

  /** `parse_motor_shaft_angle_response`. */
  method ParseMotorShaftAngleResponse(data: seq<uint8>) returns (r: Result<MotorShaftAngle, Errors.Error>)
    ensures r == ShaftAngleResponse(data)
  {
    var idx := 0;
    while idx < |data|
      invariant idx <= |data|
      invariant forall j :: 0 <= j < idx ==> !FrameAt(SHAFT_ANGLE_FRAME, data, j)
    {
      if 0xE0 <= data[idx] <= 0xE9 && idx + 5 < |data| {
        var sum := Sum(data[idx..idx + 5]);
        if sum % 0x100 == data[idx + 5] {
          var value := Int32FromBytes(data[idx + 1..idx + 5]);
          FirstFrameIs(SHAFT_ANGLE_FRAME, data, idx);
          SliceOfSlice(data, idx, idx + 6, 1, 5);
          return Ok(MotorShaftAngle(value));
        }
      }
      idx := idx + 1;
    }
    return Err(InvalidPacket);
  }

  /** `parse_en_pin_status_response`: an unknown status in the first frame fails at once. */
  method ParseEnPinStatusResponse(data: seq<uint8>) returns (r: Result<EnPinStatus, Errors.Error>)
    ensures r == EnPinResponse(data)
  {
    var idx := 0;
    while idx < |data|
      invariant idx <= |data|
      invariant forall j :: 0 <= j < idx ==> !FrameAt(STATUS_FRAME, data, j)
    {
      if Servo42.MIN_ADDRESS <= data[idx] <= Servo42.MAX_ADDRESS && idx + 2 < |data| {
        var sum := Sum(data[idx..idx + 2]);
        if sum % 0x100 == data[idx + 2] {
          var statusByte := data[idx + 1];
          FirstFrameIs(STATUS_FRAME, data, idx);
          assert data[idx..idx + 3][1] == statusByte;
          return match statusByte
            case 0x01 => Ok(Enabled)
            case 0x02 => Ok(Disabled)
            case 0x00 => Ok(EnPinStatus.Error)
            case _ => Err(InvalidPacket);
        }
      }
      idx := idx + 1;
    }
    return Err(InvalidPacket);
  }

  /**
   * `parse_shaft_status_response`: an early length check, then the windows of
   * three bytes in order; the checksum is `addr.wrapping_add(status)`.
   */
  method ParseShaftStatusResponse(data: seq<uint8>) returns (r: Result<Enums.ShaftStatus, Errors.Error>)
    ensures r == ShaftStatusResponse(data)
  {
    if |data| < 3 {
      LoneWindow(STATUS_FRAME, data);
      return Err(InvalidPacket);
    }
    for i := 0 to |data| - 2
      invariant forall j :: 0 <= j < i ==> !FrameAt(STATUS_FRAME, data, j)
    {
      var window := data[i..i + 3];
      var addr := window[0];
      SumShort(data[i..i + 2]);
      if !(Servo42.MIN_ADDRESS <= addr <= Servo42.MAX_ADDRESS) {
        continue;
      }
      var statusByte := window[1];
      var checksum := window[2];
      var expectedChecksum := WrappingAdd(addr, statusByte);
      if checksum != expectedChecksum {
        continue;
      }
      FirstFrameIs(STATUS_FRAME, data, i);
      return match statusByte
        case 0x01 => Ok(Enums.Blocked)
        case 0x02 => Ok(Enums.Unblocked)
        case 0x00 => Ok(Enums.ShaftStatus.Error)
        case _ => Err(InvalidPacket);
    }
    return Err(InvalidPacket);
  }
}
