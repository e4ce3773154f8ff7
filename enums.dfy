/**
 * The closed byte-coded settings of the protocol (src/enums.rs), together with
 * the two status enums that src/lib.rs re-exports from there but that the file
 * does not define: `ShaftStatus`, whose codes are those the shaft-status parser
 * decodes, and `SaveClearStatus`, of which only `Clear` has a known code.
 */
module Enums {
  import opened Bytes

  datatype MotorType = Deg09 | Deg18

  function MotorTypeCode(m: MotorType): (c: uint8)
    ensures c <= 0x01
    ensures c == 0x00 <==> m == Deg09
  {
    match m
    case Deg09 => 0x00
    case Deg18 => 0x01
  }

  datatype WorkMode = Open | Vfoc | Uart

  function WorkModeCode(w: WorkMode): (c: uint8)
    ensures c <= 0x02
    ensures c == 0x00 <==> w == Open
    ensures c == 0x01 <==> w == Vfoc
  {
    match w
    case Open => 0x00
    case Vfoc => 0x01
    case Uart => 0x02
  }

  datatype EnLogic = Low | High | AlwaysOn

  function EnLogicCode(e: EnLogic): (c: uint8)
    ensures c <= 0x02
    ensures c == 0x00 <==> e == Low
    ensures c == 0x01 <==> e == High
  {
    match e
    case Low => 0x00
    case High => 0x01
    case AlwaysOn => 0x02
  }

  datatype BaudRate = Baud9600 | Baud19200 | Baud25000 | Baud38400 | Baud57600 | Baud115200

  function BaudRateCode(b: BaudRate): (c: uint8)
    ensures 0x01 <= c <= 0x06
    ensures c == 0x01 <==> b == Baud9600
    ensures c == 0x06 <==> b == Baud115200
  {
    match b
    case Baud9600 => 0x01
    case Baud19200 => 0x02
    case Baud25000 => 0x03
    case Baud38400 => 0x04
    case Baud57600 => 0x05
    case Baud115200 => 0x06
  }

  /** The line speed, in bits per second, that each variant names. */
  function BitsPerSecond(b: BaudRate): nat
  {
    match b
    case Baud9600 => 9600
    case Baud19200 => 19200
    case Baud25000 => 25000
    case Baud38400 => 38400
    case Baud57600 => 57600
    case Baud115200 => 115200
  }

  datatype ZeroMode = Disable | DirMode | NearMode

  function ZeroModeCode(z: ZeroMode): (c: uint8)
    ensures c <= 0x02
    ensures c == 0x00 <==> z == Disable
    ensures c == 0x01 <==> z == DirMode
  {
    match z
    case Disable => 0x00
    case DirMode => 0x01
    case NearMode => 0x02
  }

  datatype ShaftStatus = Error | Blocked | Unblocked

  function ShaftStatusCode(s: ShaftStatus): (c: uint8)
    ensures c <= 0x02
    ensures c == 0x00 <==> s == Error
    ensures c == 0x01 <==> s == Blocked
  {
    match s
    case Error => 0x00
    case Blocked => 0x01
    case Unblocked => 0x02
  }

  datatype SaveClearStatus = Clear

  function SaveClearStatusCode(s: SaveClearStatus): (c: uint8)
    ensures c == 0xCA
  {
    match s
    case Clear => 0xCA
  }

  /** The codes of MotorType, WorkMode, EnLogic and ZeroMode are 0, 1, 2 in declaration order, and distinct. */
  lemma SmallCodesInjective(m1: MotorType, m2: MotorType, w1: WorkMode, w2: WorkMode,
                            e1: EnLogic, e2: EnLogic, z1: ZeroMode, z2: ZeroMode)
    ensures MotorTypeCode(m1) <= 1 && WorkModeCode(w1) <= 2 && EnLogicCode(e1) <= 2 && ZeroModeCode(z1) <= 2
    ensures MotorTypeCode(m1) == MotorTypeCode(m2) <==> m1 == m2
    ensures WorkModeCode(w1) == WorkModeCode(w2) <==> w1 == w2
    ensures EnLogicCode(e1) == EnLogicCode(e2) <==> e1 == e2
    ensures ZeroModeCode(z1) == ZeroModeCode(z2) <==> z1 == z2
    ensures ShaftStatusCode(Blocked) == 0x01 && ShaftStatusCode(Unblocked) == 0x02 && ShaftStatusCode(Error) == 0x00
    ensures MotorTypeCode(Deg09) == 0x00 && MotorTypeCode(Deg18) == 0x01
    ensures WorkModeCode(Open) == 0x00 && WorkModeCode(Vfoc) == 0x01 && WorkModeCode(Uart) == 0x02
    ensures EnLogicCode(Low) == 0x00 && EnLogicCode(High) == 0x01 && EnLogicCode(AlwaysOn) == 0x02
    ensures ZeroModeCode(Disable) == 0x00 && ZeroModeCode(DirMode) == 0x01 && ZeroModeCode(NearMode) == 0x02
  {
  }

  /**
   * Baud-rate codes run from 0x01 to 0x06, never 0x00, and rise strictly with
   * the line speed; in particular the code determines the variant.
   */
  lemma BaudRateCodesRise(b1: BaudRate, b2: BaudRate)
    ensures 0x01 <= BaudRateCode(b1) <= 0x06
    ensures BaudRateCode(b1) < BaudRateCode(b2) <==> BitsPerSecond(b1) < BitsPerSecond(b2)
    ensures BaudRateCode(b1) == BaudRateCode(b2) <==> b1 == b2
  {
  }
}
