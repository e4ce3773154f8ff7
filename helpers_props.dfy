/**
 * Properties of the response decoders of src/helpers.rs: tolerance of noise
 * before a frame, round trips from a device-side frame, the rejection cases,
 * agreement of the two status parsers, and the encoder parser's length guard
 * as written.
 */
module HelpersProps {
  import opened Bytes
  import opened Wrappers
  import opened Errors
  import Enums
  import opened Frames
  import opened Helpers
  import opened Servo42

  // ------------------------------------------------------- prefix tolerance

  /** Bytes outside the address range before a buffer do not change the encoder parser's result. */
  lemma EncoderIgnoresNoise(pre: seq<uint8>, data: seq<uint8>)
    requires forall i :: 0 <= i < |pre| ==> !IsAddress(pre[i])
    ensures EncoderResponse(pre + data) == EncoderResponse(data)
  {
    PrefixTolerance(ENCODER_FRAME, pre, data);
  }

  /** Bytes outside the address range before a buffer do not change the angle-error parser's result. */
  lemma AngleErrorIgnoresNoise(pre: seq<uint8>, data: seq<uint8>)
    requires forall i :: 0 <= i < |pre| ==> !IsAddress(pre[i])
    ensures AngleErrorResponse(pre + data) == AngleErrorResponse(data)
  {
    PrefixTolerance(ANGLE_ERROR_FRAME, pre, data);
  }

  /** Bytes outside the address range before a buffer do not change the shaft-angle parser's result. */
  lemma ShaftAngleIgnoresNoise(pre: seq<uint8>, data: seq<uint8>)
    requires forall i :: 0 <= i < |pre| ==> !IsAddress(pre[i])
    ensures ShaftAngleResponse(pre + data) == ShaftAngleResponse(data)
  {
    PrefixTolerance(SHAFT_ANGLE_FRAME, pre, data);
  }

  /** Bytes outside the address range before a buffer do not change either status parser's result. */
  lemma StatusIgnoresNoise(pre: seq<uint8>, data: seq<uint8>)
    requires forall i :: 0 <= i < |pre| ==> !IsAddress(pre[i])
    ensures EnPinResponse(pre + data) == EnPinResponse(data)
    ensures ShaftStatusResponse(pre + data) == ShaftStatusResponse(data)
  {
    PrefixTolerance(STATUS_FRAME, pre, data);
  }

  // ------------------------------------------------------------ round trips

  /**
   * A device-side encoder reply, `[addr] ++ be32(carry) ++ be16(value)` with its
   * checksum appended, decodes to the carry and value it was built from.
   */
  lemma EncoderRoundTrip(addr: uint8, carry: int32, value: uint16)
    requires IsAddress(addr)
    ensures EncoderResponse(Command([addr] + ToBigEndian(Uint32OfInt32(carry), 4) + ToBigEndian(value, 2)))
         == Ok(EncoderValue(carry, value))
  {
    var cmd := [addr] + ToBigEndian(Uint32OfInt32(carry), 4) + ToBigEndian(value, 2);
    var f := Command(cmd);
    assert f[0..7] == cmd;
    assert FrameAt(ENCODER_FRAME, f, 0);
    LoneWindow(ENCODER_FRAME, f);
    assert f[0..8] == f;
    assert f[1..5] == ToBigEndian(Uint32OfInt32(carry), 4);
    assert f[5..7] == ToBigEndian(value, 2);
    Int32RoundTrip(carry);
    Uint16RoundTrip(value);
  }

  /** `[addr] ++ be32(v)` with its checksum decodes to the shaft angle `v`, for every `i32`. */
  lemma ShaftAngleRoundTrip(addr: uint8, v: int32)
    requires IsAddress(addr)
    ensures ShaftAngleResponse(Command([addr] + ToBigEndian(Uint32OfInt32(v), 4))) == Ok(MotorShaftAngle(v))
  {
    var cmd := [addr] + ToBigEndian(Uint32OfInt32(v), 4);
    var f := Command(cmd);
    assert f[0..5] == cmd;
    assert FrameAt(SHAFT_ANGLE_FRAME, f, 0);
    LoneWindow(SHAFT_ANGLE_FRAME, f);
    assert f[0..6] == f;
    assert f[1..5] == ToBigEndian(Uint32OfInt32(v), 4);
    Int32RoundTrip(v);
  }

  /** `[addr] ++ be16(v)`, its checksum and the trailing 0x00 decode to the angle error `v`. */
  lemma AngleErrorRoundTrip(addr: uint8, v: int16)
    requires IsAddress(addr)
    ensures AngleErrorResponse(Command([addr] + ToBigEndian(Uint16OfInt16(v), 2)) + [0x00]) == Ok(ShaftErrValue(v))
  {
    var cmd := [addr] + ToBigEndian(Uint16OfInt16(v), 2);
    var f := Command(cmd) + [0x00];
    assert f[0..3] == cmd;
    assert FrameAt(ANGLE_ERROR_FRAME, f, 0);
    LoneWindow(ANGLE_ERROR_FRAME, f);
    assert f[0..5] == f;
    assert f[1..3] == ToBigEndian(Uint16OfInt16(v), 2);
    Int16RoundTrip(v);
  }

  /** `[addr, code(s)]` with its checksum decodes to `s`, in both status parsers. */
  lemma StatusRoundTrip(addr: uint8, e: EnPinStatus, s: Enums.ShaftStatus)
    requires IsAddress(addr)
    ensures EnPinResponse(Command([addr, EnPinStatusCode(e)])) == Ok(e)
    ensures ShaftStatusResponse(Command([addr, Enums.ShaftStatusCode(s)])) == Ok(s)
  {
    var fe := Command([addr, EnPinStatusCode(e)]);
    assert fe[0..2] == [addr, EnPinStatusCode(e)];
    assert FrameAt(STATUS_FRAME, fe, 0);
    LoneWindow(STATUS_FRAME, fe);
    assert fe[0..3] == fe;
    var fs := Command([addr, Enums.ShaftStatusCode(s)]);
    assert fs[0..2] == [addr, Enums.ShaftStatusCode(s)];
    assert FrameAt(STATUS_FRAME, fs, 0);
    LoneWindow(STATUS_FRAME, fs);
    assert fs[0..3] == fs;
  }

  // ----------------------------------------------------------- rejections

  /** A buffer shorter than one frame is rejected by its parser. */
  lemma ShortBuffersRejected(data: seq<uint8>)
    ensures |data| < 8 ==> EncoderResponse(data) == Err(InvalidPacket)
    ensures |data| < 5 ==> AngleErrorResponse(data) == Err(InvalidPacket)
    ensures |data| < 6 ==> ShaftAngleResponse(data) == Err(InvalidPacket)
    ensures |data| < 3 ==> EnPinResponse(data) == Err(InvalidPacket) && ShaftStatusResponse(data) == Err(InvalidPacket)
  {
    if |data| < 8 { LoneWindow(ENCODER_FRAME, data); }
    if |data| < 5 { LoneWindow(ANGLE_ERROR_FRAME, data); }
    if |data| < 6 { LoneWindow(SHAFT_ANGLE_FRAME, data); }
    if |data| < 3 { LoneWindow(STATUS_FRAME, data); }
  }

  /** A buffer of at most one frame that does not start with an address is rejected. */
  lemma NonAddressRejected(data: seq<uint8>)
    requires data != [] && !IsAddress(data[0])
    ensures |data| <= 8 ==> EncoderResponse(data) == Err(InvalidPacket)
    ensures |data| <= 5 ==> AngleErrorResponse(data) == Err(InvalidPacket)
    ensures |data| <= 6 ==> ShaftAngleResponse(data) == Err(InvalidPacket)
    ensures |data| <= 3 ==> EnPinResponse(data) == Err(InvalidPacket) && ShaftStatusResponse(data) == Err(InvalidPacket)
  {
    if |data| <= 8 { LoneWindow(ENCODER_FRAME, data); }
    if |data| <= 5 { LoneWindow(ANGLE_ERROR_FRAME, data); }
    if |data| <= 6 { LoneWindow(SHAFT_ANGLE_FRAME, data); }
    if |data| <= 3 { LoneWindow(STATUS_FRAME, data); }
  }

  /**
   * A single frame whose checksum byte `c` is not the sum of the bytes it
   * covers is rejected, whatever the rest of the frame holds.
   */
  lemma BadChecksumRejected(cmd: seq<uint8>, c: uint8)
    requires c != Sum(cmd) % 0x100
    ensures |cmd| == 7 ==> EncoderResponse(cmd + [c]) == Err(InvalidPacket)
    ensures |cmd| == 3 ==> AngleErrorResponse(cmd + [c, 0x00]) == Err(InvalidPacket)
    ensures |cmd| == 5 ==> ShaftAngleResponse(cmd + [c]) == Err(InvalidPacket)
    ensures |cmd| == 2 ==> EnPinResponse(cmd + [c]) == Err(InvalidPacket) && ShaftStatusResponse(cmd + [c]) == Err(InvalidPacket)
  {
    var f := cmd + [c];
    assert f[0..|cmd|] == cmd;
    if |cmd| == 7 { LoneWindow(ENCODER_FRAME, f); }
    if |cmd| == 5 { LoneWindow(SHAFT_ANGLE_FRAME, f); }
    if |cmd| == 2 { LoneWindow(STATUS_FRAME, f); }
    if |cmd| == 3 {
      var g := cmd + [c, 0x00];
      assert g[0..3] == cmd;
      LoneWindow(ANGLE_ERROR_FRAME, g);
    }
  }

  /** An angle-error frame whose fifth byte is not 0x00 is rejected, even with a good checksum. */
  lemma TrailingByteRequired(cmd: seq<uint8>, t: uint8)
    requires |cmd| == 3 && t != 0x00
    ensures AngleErrorResponse(Command(cmd) + [t]) == Err(InvalidPacket)
  {
    LoneWindow(ANGLE_ERROR_FRAME, Command(cmd) + [t]);
  }

  // ------------------------------------------------------ status parsers

  /**
   * `parse_shaft_status_response`'s `addr.wrapping_add(status)` is the
   * two-byte sum `parse_en_pin_status_response` checks: both parsers accept
   * the same windows and read the same status byte, and both reject a buffer
   * shorter than three bytes.
   */
  lemma StatusParsersAgree(data: seq<uint8>)
    ensures EnPinResponse(data).Ok? <==> ShaftStatusResponse(data).Ok?
    ensures EnPinResponse(data).Ok? ==>
      EnPinStatusCode(EnPinResponse(data).value) == Enums.ShaftStatusCode(ShaftStatusResponse(data).value)
    ensures |data| < 3 ==> EnPinResponse(data) == Err(InvalidPacket) && ShaftStatusResponse(data) == Err(InvalidPacket)
  {
    if |data| < 3 {
      LoneWindow(STATUS_FRAME, data);
    }
  }

  /**
   * The first checksum-valid window decides: an unknown status byte there is
   * `InvalidPacket` although a valid frame follows.
   */
  lemma FirstStatusWindowDecides()
    ensures EnPinResponse([0xE0, 0x03, 0xE3, 0xE0, 0x01, 0xE1]) == Err(InvalidPacket)
    ensures ShaftStatusResponse([0xE0, 0x03, 0xE3, 0xE0, 0x01, 0xE1]) == Err(InvalidPacket)
    ensures FrameAt(STATUS_FRAME, [0xE0, 0x03, 0xE3, 0xE0, 0x01, 0xE1], 3)
  {
    var d: seq<uint8> := [0xE0, 0x03, 0xE3, 0xE0, 0x01, 0xE1];
    SumShort(d[0..2]);
    SumShort(d[3..5]);
    FirstFrameIs(STATUS_FRAME, d, 0);
  }

  // ------------------------------------------- the encoder guard as written

  /** What a scan step of the source can end in: a value, or a panic on an out-of-bounds index. */
  datatype Outcome<T> = Returned(result: Result<T, Errors.Error>) | Panicked

  /**
   * `parse_encoder_response` as written: its guard only ensures `idx + 5 < len`,
   * yet it reads `data[idx..idx + 7]` and `data[idx + 7]`.
   */
  function EncoderScanAsWritten(data: seq<uint8>, idx: nat): (o: Outcome<EncoderValue>)
    requires idx <= |data|
    decreases |data| - idx
    ensures o == Panicked <==>
      exists k :: idx <= k < |data| && |data| - 7 <= k < |data| - 5 && Servo42.MIN_ADDRESS <= data[k] <= Servo42.MAX_ADDRESS
           && ScanFrom(ENCODER_FRAME, data, idx) == None
  {
    if idx == |data| then Returned(Err(InvalidPacket))
    else if Servo42.MIN_ADDRESS <= data[idx] <= Servo42.MAX_ADDRESS && idx + 5 < |data| then
      if idx + 7 >= |data| then Panicked
      else if Sum(data[idx..idx + 7]) % 0x100 == data[idx + 7] then Returned(Ok(DecodeEncoder(data[idx..idx + 8])))
      else EncoderScanAsWritten(data, idx + 1)
    else EncoderScanAsWritten(data, idx + 1)
  }

  /** Wherever the source as written does not panic, it returns what the corrected scan returns. */
  lemma {:induction false} AsWrittenAgreesFrom(data: seq<uint8>, idx: nat)
    requires idx <= |data|
    decreases |data| - idx
    ensures EncoderScanAsWritten(data, idx) == Panicked
         || EncoderScanAsWritten(data, idx) == Returned(
              match ScanFrom(ENCODER_FRAME, data, idx)
              case Some(k) => Ok(DecodeEncoder(data[k..k + 8]))
              case None => Err(InvalidPacket))
  {
    if idx < |data| {
      AsWrittenAgreesFrom(data, idx + 1);
    }
  }

  lemma EncoderAsWrittenAgrees(data: seq<uint8>)
    ensures EncoderScanAsWritten(data, 0) == Panicked || EncoderScanAsWritten(data, 0) == Returned(EncoderResponse(data))
  {
    AsWrittenAgreesFrom(data, 0);
  }

  /**
   * The guard lets an address byte six or seven bytes before the end through,
   * and the source then panics where the corrected parser reports `InvalidPacket`.
   */
  lemma EncoderGuardPanics()
    ensures EncoderScanAsWritten([0xE0, 0x00, 0x00, 0x00, 0x00, 0x00, 0x00], 0) == Panicked
    ensures EncoderScanAsWritten([0x00, 0xE0, 0x00, 0x00, 0x00, 0x00, 0x00, 0x00], 0) == Panicked
    ensures EncoderResponse([0xE0, 0x00, 0x00, 0x00, 0x00, 0x00, 0x00]) == Err(InvalidPacket)
    ensures EncoderResponse([0x00, 0xE0, 0x00, 0x00, 0x00, 0x00, 0x00, 0x00]) == Err(InvalidPacket)
  {
    ShortBuffersRejected([0xE0, 0x00, 0x00, 0x00, 0x00, 0x00, 0x00]);
    NonAddressRejected([0x00, 0xE0, 0x00, 0x00, 0x00, 0x00, 0x00, 0x00]);
  }
}
