/** The types of Parse_SCPI.h: three enumerations, each with a BLANK member
    that a zero-initialised command holds, the constants the parser stores for
    the MODE and RANGe values, and the command record the parser fills. */
module ScpiTypes {

  datatype CommandType = CTBlank | Idn | Echo | Source | Measure | Channel
  {
    /** The integer C gives the enumerator: BLANK is 0 and no other member is. */
    function Ordinal(): (n: nat)
      ensures n < 6
      ensures n == 0 <==> CTBlank?
    {
      match this
      case CTBlank => 0
      case Idn => 1
      case Echo => 2
      case Source => 3
      case Measure => 4
      case Channel => 5
    }
  }

  datatype CommandSubType = CSTBlank | Voltage | Current | Select | Local | Enable | All | Mode | Range
  {
    /** The integer C gives the enumerator: BLANK is 0 and no other member is. */
    function Ordinal(): (n: nat)
      ensures n < 9
      ensures n == 0 <==> CSTBlank?
    {
      match this
      case CSTBlank => 0
      case Voltage => 1
      case Current => 2
      case Select => 3
      case Local => 4
      case Enable => 5
      case All => 6
      case Mode => 7
      case Range => 8
    }
  }

  datatype ReadWrite = RWBlank | Write | Read
  {
    /** The integer C gives the enumerator: BLANK is 0 and no other member is. */
    function Ordinal(): (n: nat)
      ensures n < 3
      ensures n == 0 <==> RWBlank?
    {
      match this
      case RWBlank => 0
      case Write => 1
      case Read => 2
    }
  }

  /** The `#define`d values the parser stores as `data` for MODE and RANGe. */
  const RegulationModeCurrent: real := 1.0
  const RegulationModeLight: real := 0.0
  const PhotodiodeRangeHigh: real := 1.0
  const PhotodiodeRangeLow: real := 0.0

  /** `struct SCPI_Command`: exactly four fields.  `data` is a C `float`,
      modelled as a real. */
  datatype ScpiCommand = ScpiCommand(cmdType: CommandType, subType: CommandSubType, rw: ReadWrite, data: real)

  /** A command with static storage duration before any parse: all zero bits. */
  const BlankCommand: ScpiCommand := ScpiCommand(CTBlank, CSTBlank, RWBlank, 0.0)
}
