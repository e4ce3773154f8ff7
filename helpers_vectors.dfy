/** The worked examples of src/helpers.rs's unit tests, as facts about the model. */
module HelpersVectors {
  import opened Bytes
  import opened Wrappers
  import opened Errors
  import Enums
  import opened Frames
  import opened Helpers
  import opened HelpersProps

  lemma EncoderVectors()
    ensures EncoderResponse([0xE0, 0x00, 0x00, 0x00, 0x00, 0x40, 0x00, 0x20]) == Ok(EncoderValue(0, 0x4000))
    ensures EncoderValue(0, 0x4000).ToDegrees() == 90.0
    ensures EncoderResponse([0xFF, 0xFE, 0xE0, 0x00, 0x00, 0x00, 0x00, 0x40, 0x00, 0x20]) == Ok(EncoderValue(0, 0x4000))
  {
    var d: seq<uint8> := [0xE0, 0x00, 0x00, 0x00, 0x00, 0x40, 0x00, 0x20];
    SumShort(d[0..7]);
    LoneWindow(ENCODER_FRAME, d);
    assert d[0..8] == d;
    EncoderIgnoresNoise([0xFF, 0xFE], d);
    assert [0xFF, 0xFE] + d == [0xFF, 0xFE, 0xE0, 0x00, 0x00, 0x00, 0x00, 0x40, 0x00, 0x20];
  }

  lemma EncoderChecksumVector()
    ensures EncoderResponse([0xE0, 0x00, 0x00, 0x00, 0x00, 0x40, 0x00, 0x21]) == Err(InvalidPacket)
  {
    var bad: seq<uint8> := [0xE0, 0x00, 0x00, 0x00, 0x00, 0x40, 0x00, 0x21];
    SumShort(bad[0..7]);
    LoneWindow(ENCODER_FRAME, bad);
  }

  lemma AngleErrorVectors()
    ensures AngleErrorResponse([0xE0, 0x00, 0xB7, 0x97, 0x00]) == Ok(ShaftErrValue(183))
    ensures AngleErrorResponse([0xE0, 0x00, 0x00, 0xE0, 0x00]) == Ok(ShaftErrValue(0))
    ensures AngleErrorResponse([0xFF, 0xFE, 0xE0, 0x00, 0xB7, 0x97, 0x00]) == Ok(ShaftErrValue(183))
  {
    var a: seq<uint8> := [0xE0, 0x00, 0xB7, 0x97, 0x00];
    var c: seq<uint8> := [0xE0, 0x00, 0x00, 0xE0, 0x00];
    SumShort(a[0..3]); LoneWindow(ANGLE_ERROR_FRAME, a); assert a[0..5] == a;
    SumShort(c[0..3]); LoneWindow(ANGLE_ERROR_FRAME, c); assert c[0..5] == c;
    AngleErrorIgnoresNoise([0xFF, 0xFE], a);
    assert [0xFF, 0xFE] + a == [0xFF, 0xFE, 0xE0, 0x00, 0xB7, 0x97, 0x00];
  }

  lemma AngleErrorExtremeVectors()
    ensures AngleErrorResponse([0xE0, 0xFF, 0x4A, 0x29, 0x00]) == Ok(ShaftErrValue(-182))
    ensures AngleErrorResponse([0xE0, 0x7F, 0xFF, 0x5E, 0x00]) == Ok(ShaftErrValue(32767))
  {
    var b: seq<uint8> := [0xE0, 0xFF, 0x4A, 0x29, 0x00];
    var d: seq<uint8> := [0xE0, 0x7F, 0xFF, 0x5E, 0x00];
    SumShort(b[0..3]); LoneWindow(ANGLE_ERROR_FRAME, b); assert b[0..5] == b;
    SumShort(d[0..3]); LoneWindow(ANGLE_ERROR_FRAME, d); assert d[0..5] == d;
  }

  lemma AngleErrorRejections()
    ensures AngleErrorResponse([0xE0, 0x00, 0xB7, 0x98, 0x00]) == Err(InvalidPacket)
    ensures AngleErrorResponse([0xE0, 0x00, 0xB7, 0x97, 0x01]) == Err(InvalidPacket)
    ensures AngleErrorResponse([0xE0, 0x00, 0xB7, 0x97]) == Err(InvalidPacket)
    ensures AngleErrorResponse([0xDF, 0x00, 0xB7, 0x97, 0x00]) == Err(InvalidPacket)
  {
    var bad: seq<uint8> := [0xE0, 0x00, 0xB7, 0x98, 0x00];
    SumShort(bad[0..3]); LoneWindow(ANGLE_ERROR_FRAME, bad);
    LoneWindow(ANGLE_ERROR_FRAME, [0xE0, 0x00, 0xB7, 0x97, 0x01]);
    ShortBuffersRejected([0xE0, 0x00, 0xB7, 0x97]);
    NonAddressRejected([0xDF, 0x00, 0xB7, 0x97, 0x00]);
  }

  lemma ShaftAngleVectors()
    ensures ShaftAngleResponse([0xE0, 0x00, 0x00, 0x40, 0x00, 0x20]) == Ok(MotorShaftAngle(0x4000))
    ensures MotorShaftAngle(0x4000).ToDegrees() == 90.0
    ensures ShaftAngleResponse([0xFF, 0xFE, 0xE0, 0x00, 0x00, 0x40, 0x00, 0x20]) == Ok(MotorShaftAngle(0x4000))
  {
    var a: seq<uint8> := [0xE0, 0x00, 0x00, 0x40, 0x00, 0x20];
    SumShort(a[0..5]); LoneWindow(SHAFT_ANGLE_FRAME, a); assert a[0..6] == a;
    ShaftAngleIgnoresNoise([0xFF, 0xFE], a);
    assert [0xFF, 0xFE] + a == [0xFF, 0xFE, 0xE0, 0x00, 0x00, 0x40, 0x00, 0x20];
  }

  lemma ShaftAngleZeroVector()
    ensures ShaftAngleResponse([0xE0, 0x00, 0x00, 0x00, 0x00, 0xE0]) == Ok(MotorShaftAngle(0))
    ensures MotorShaftAngle(0).ToDegrees() == 0.0
  {
    var b: seq<uint8> := [0xE0, 0x00, 0x00, 0x00, 0x00, 0xE0];
    SumShort(b[0..5]); LoneWindow(SHAFT_ANGLE_FRAME, b); assert b[0..6] == b;
  }

  lemma ShaftAngleHalfTurnVectors()
    ensures ShaftAngleResponse([0xE0, 0x00, 0x00, 0x80, 0x00, 0x60]) == Ok(MotorShaftAngle(0x8000))
    ensures MotorShaftAngle(0x8000).ToDegrees() == 180.0
  {
    var c: seq<uint8> := [0xE0, 0x00, 0x00, 0x80, 0x00, 0x60];
    SumShort(c[0..5]); LoneWindow(SHAFT_ANGLE_FRAME, c); assert c[0..6] == c;
    assert c[0..6][1..5] == [0x00, 0x00, 0x80, 0x00];
  }

  lemma ShaftAngleNegativeVectors()
    ensures ShaftAngleResponse([0xE0, 0xFF, 0xFF, 0xC0, 0x00, 0x9E]) == Ok(MotorShaftAngle(-16384))
    ensures MotorShaftAngle(-16384).ToDegrees() == -90.0
  {
    var d: seq<uint8> := [0xE0, 0xFF, 0xFF, 0xC0, 0x00, 0x9E];
    SumShort(d[0..5]); LoneWindow(SHAFT_ANGLE_FRAME, d); assert d[0..6] == d;
    assert Uint32FromBytes(d[1..5]) == 0xFFFF_C000;
  }

  lemma ShaftAngleRejections()
    ensures ShaftAngleResponse([0xE0, 0x00, 0x00, 0x40, 0x00, 0x21]) == Err(InvalidPacket)
    ensures ShaftAngleResponse([0xE0, 0x00, 0x00, 0x40, 0x00]) == Err(InvalidPacket)
    ensures ShaftAngleResponse([0xDF, 0x00, 0x00, 0x40, 0x00, 0x20]) == Err(InvalidPacket)
  {
    var bad: seq<uint8> := [0xE0, 0x00, 0x00, 0x40, 0x00, 0x21];
    SumShort(bad[0..5]); LoneWindow(SHAFT_ANGLE_FRAME, bad);
    ShortBuffersRejected([0xE0, 0x00, 0x00, 0x40, 0x00]);
    NonAddressRejected([0xDF, 0x00, 0x00, 0x40, 0x00, 0x20]);
  }

  lemma StatusVectors()
    ensures EnPinResponse([0xE0, 0x01, 0xE1]) == Ok(Enabled)
    ensures EnPinResponse([0xE0, 0x02, 0xE2]) == Ok(Disabled)
    ensures EnPinResponse([0xE0, 0x00, 0xE0]) == Ok(EnPinStatus.Error)
    ensures EnPinResponse([0xFF, 0xFE, 0xE0, 0x01, 0xE1]) == Ok(Enabled)
    ensures ShaftStatusResponse([0xE0, 0x01, 0xE1]) == Ok(Enums.Blocked)
    ensures ShaftStatusResponse([0xE0, 0x02, 0xE2]) == Ok(Enums.Unblocked)
    ensures ShaftStatusResponse([0xE0, 0x00, 0xE0]) == Ok(Enums.ShaftStatus.Error)
    ensures ShaftStatusResponse([0xFF, 0xFE, 0xE0, 0x01, 0xE1]) == Ok(Enums.Blocked)
  {
    var a: seq<uint8> := [0xE0, 0x01, 0xE1];
    var b: seq<uint8> := [0xE0, 0x02, 0xE2];
    var c: seq<uint8> := [0xE0, 0x00, 0xE0];
    SumShort(a[0..2]); LoneWindow(STATUS_FRAME, a); assert a[0..3] == a;
    SumShort(b[0..2]); LoneWindow(STATUS_FRAME, b); assert b[0..3] == b;
    SumShort(c[0..2]); LoneWindow(STATUS_FRAME, c); assert c[0..3] == c;
    StatusIgnoresNoise([0xFF, 0xFE], a);
    assert [0xFF, 0xFE] + a == [0xFF, 0xFE, 0xE0, 0x01, 0xE1];
  }

  lemma StatusRejections()
    ensures EnPinResponse([0xE0, 0x01, 0xE2]) == Err(InvalidPacket)
    ensures EnPinResponse([0xE0, 0x03, 0xE3]) == Err(InvalidPacket)
    ensures EnPinResponse([0xE0, 0x01]) == Err(InvalidPacket)
    ensures EnPinResponse([0xDF, 0x01, 0xE0]) == Err(InvalidPacket)
    ensures ShaftStatusResponse([0xE0, 0x01, 0xE2]) == Err(InvalidPacket)
    ensures ShaftStatusResponse([0xE0, 0x03, 0xE3]) == Err(InvalidPacket)
    ensures ShaftStatusResponse([0xE0, 0x01]) == Err(InvalidPacket)
    ensures ShaftStatusResponse([]) == Err(InvalidPacket)
    ensures ShaftStatusResponse([0xDF, 0x01, 0xE0]) == Err(InvalidPacket)
  {
    var bad: seq<uint8> := [0xE0, 0x01, 0xE2];
    SumShort(bad[0..2]); LoneWindow(STATUS_FRAME, bad);
    var odd: seq<uint8> := [0xE0, 0x03, 0xE3];
    SumShort(odd[0..2]); LoneWindow(STATUS_FRAME, odd); assert odd[0..3] == odd;
    ShortBuffersRejected([0xE0, 0x01]);
    ShortBuffersRejected([]);
    NonAddressRejected([0xDF, 0x01, 0xE0]);
  }

  lemma ConversionVectors()
    ensures AngleToSteps(360.0, 1.0) == 200
    ensures AngleToSteps(360.0, 4.0) == 800
    ensures AngleToSteps(180.0, 4.0) == 400
    ensures EncoderValToDegrees(0) == 0.0
    ensures EncoderValToDegrees(32768) == 180.0
    ensures EncoderValToDegrees(65535) == (65535.0 / 65536.0) * 360.0
    ensures EncoderValue(1, 0).ToDegrees() == 360.0
    ensures EncoderValue(-1, 0).ToDegrees() == -360.0
    ensures EncoderValue(0, 32768).ToDegrees() == 180.0
  {
  }
}
