/** Parse_SCPI.cpp: `Parse_Command`, which classifies one command line into
    the fields of an `SCPI_Command`, and `parseNumeric`, which reads the
    number (with an optional m/u/n unit letter) of a SOURce command.

    `Parse_Command` writes the caller's struct through a pointer, one field at
    a time, and leaves every field it does not reach as it was.  The model
    passes the struct in and returns its new value; `Classify` says, for a
    line, which status is returned and which fields are assigned (`Effect`).

    Three situations are undefined behaviour in C and are returned here as an
    explicit `Undefined` status instead of being imitated: a line of 128 or
    more characters (the copy into the 128-byte buffer overflows at exactly
    128 and is skipped above that, leaving the buffer uninitialised), a number
    argument of 16 or more characters (the same with the 16-byte buffer), and
    a missing word, where strtok's NULL would be handed to strcmp, atoi, atof
    or strlen.  A line is the characters before its terminating NUL. */
module ParseScpi {
  import opened Strtok
  import opened CStdlib
  import opened ScpiTypes

  /** `char cmdStringLocal[128]` and `char numericLocal[16]`. */
  const CommandBufferSize: nat := 128
  const NumericBufferSize: nat := 16

  /** `strcpy` of a string of `len` characters writes `len + 1` bytes: the
      characters and the terminating NUL. */
  predicate CopyFits(len: nat, size: nat)
  {
    len + 1 <= size
  }

  /** The guard written before each copy: `strlen(s) <= size`. */
  predicate CopyGuardAsWritten(len: nat, size: nat)
  {
    len <= size
  }

  /** A string exactly as long as the buffer passes the written guard and
      overflows it by its NUL. */
  lemma CopyGuardAsWrittenOverflows(size: nat)
    ensures CopyGuardAsWritten(size, size) && !CopyFits(size, size)
  {
  }

  /** The guard the copies need, used by the rest of the model: a string
      passes it exactly when its copy fits. */
  predicate CopyGuard(len: nat, size: nat)
  {
    len < size
  }

  /** The second copy of a ':' line (from its second character) is one
      character shorter, so the written guard is enough for it. */
  lemma RecopyFits(len: nat)
    requires 1 <= len && CopyGuardAsWritten(len, CommandBufferSize)
    ensures CopyFits(len - 1, CommandBufferSize)
  {
  }

  lemma CopyGuardExact(len: nat, size: nat)
    ensures CopyGuard(len, size) <==> CopyFits(len, size)
    ensures CopyGuard(len, size) ==> CopyGuardAsWritten(len, size)
  {
  }

  /** Delimiter sets handed to strtok. */
  const KeywordDelims: string := " :\n\r"
  const LineEndDelims: string := "\n\r"
  const NumericDelims: string := " :\n\rnumV"

  /** What `parseNumeric` returns for a literal that is not a number. */
  const NotANumber: real := -99999.9
  /** Below this magnitude `atof`'s result is suspected to mean "no number". */
  const ZeroThreshold: real := 0.000000000001
  /** What MODE and RANGe store for a value they do not recognise. */
  const InvalidSelection: real := -1.0

  datatype UndefinedCause = LineTooLong | NumericTooLong | MissingToken

  /** The four `return 1` sites of `Parse_Command`. */
  datatype FailReason =
    | UnknownPrefix      // neither '*', "ECHO" nor ':' starts the line
    | UnknownFamily      // ':' followed by no family keyword
    | UnknownSubKeyword  // family keyword followed by no sub-keyword of it
    | BadEnableValue     // ENABle followed by neither "?", "ON" nor "OFF"

  datatype Status = Ok | Fail(reason: FailReason) | Undefined(cause: UndefinedCause)
  {
    /** The integer `Parse_Command` returns. */
    function ReturnCode(): (c: int)
      requires !Undefined?
      ensures c == 0 <==> Ok?
      ensures c == 0 || c == 1
    {
      if Ok? then 0 else 1
    }
  }

  /** Which fields of the command a parse assigns, and to what. */
  datatype Effect = Effect(
    cmdType: Option<CommandType>,
    subType: Option<CommandSubType>,
    rw: Option<ReadWrite>,
    data: Option<real>)

  datatype Option<T> = None | Some(value: T)

  const NoEffect: Effect := Effect(None, None, None, None)

  datatype Outcome = Outcome(status: Status, effect: Effect)

  /** The command after the assignments of `e`; other fields keep their value. */
  function Apply(e: Effect, cmd: ScpiCommand): ScpiCommand
  {
    ScpiCommand(
      if e.cmdType.Some? then e.cmdType.value else cmd.cmdType,
      if e.subType.Some? then e.subType.value else cmd.subType,
      if e.rw.Some? then e.rw.value else cmd.rw,
      if e.data.Some? then e.data.value else cmd.data)
  }

  /** `cmdString[0]`: the NUL terminator for the empty line. */
  function FirstChar(line: string): char
  {
    if |line| > 0 then line[0] else '\0'
  }

  // Keywords: the long and the short form, matched case-sensitively.
  predicate IsSourceWord(t: string)  { t == "SOURce" || t == "SOUR" }
  predicate IsMeasureWord(t: string) { t == "MEASure" || t == "MEAS" }
  predicate IsChannelWord(t: string) { t == "CHANnel" || t == "CHAN" }
  predicate IsVoltageWord(t: string) { t == "VOLTage" || t == "VOLT" }
  predicate IsCurrentWord(t: string) { t == "CURRent" || t == "CURR" }
  predicate IsSelectWord(t: string)  { t == "SELEct" || t == "SELE" }
  predicate IsLocalWord(t: string)   { t == "LOCAl" || t == "LOCA" }
  predicate IsEnableWord(t: string)  { t == "ENABle" || t == "ENAB" }
  predicate IsRangeWord(t: string)   { t == "RANGe" || t == "RANG" }

  predicate IsFamilyWord(t: string)
  {
    IsSourceWord(t) || IsMeasureWord(t) || IsChannelWord(t)
  }

  /** The sub-keywords each family accepts. */
  predicate IsSubKeyword(family: string, t: string)
  {
    if IsSourceWord(family) then IsVoltageWord(t) || IsCurrentWord(t)
    else if IsMeasureWord(family) then IsVoltageWord(t) || IsCurrentWord(t) || t == "ALL"
    else if IsChannelWord(family) then
      IsSelectWord(t) || IsLocalWord(t) || IsEnableWord(t) || t == "MODE" || IsRangeWord(t)
    else false
  }

  /** The MODE value: exactly "CURRENT"/"current" or "LIGHT"/"light"; any
      other spelling, mixed case included, is the invalid selection. */
  function ModeValue(t: string): (v: real)
    ensures v == RegulationModeCurrent <==> (t == "CURRENT" || t == "current")
    ensures v == RegulationModeLight <==> (t == "LIGHT" || t == "light")
    ensures v == InvalidSelection <==> !(t in ["CURRENT", "current", "LIGHT", "light"])
  {
    if t == "CURRENT" || t == "current" then RegulationModeCurrent
    else if t == "LIGHT" || t == "light" then RegulationModeLight
    else InvalidSelection
  }

  /** The RANGe value: exactly "HIGH"/"high" or "LOW"/"low"; anything else is
      the invalid selection. */
  function RangeValue(t: string): (v: real)
    ensures v == PhotodiodeRangeHigh <==> (t == "HIGH" || t == "high")
    ensures v == PhotodiodeRangeLow <==> (t == "LOW" || t == "low")
    ensures v == InvalidSelection <==> !(t in ["HIGH", "high", "LOW", "low"])
  {
    if t == "HIGH" || t == "high" then PhotodiodeRangeHigh
    else if t == "LOW" || t == "low" then PhotodiodeRangeLow
    else InvalidSelection
  }

  // ---------------------------------------------------------------------
  // parseNumeric

  datatype Numeric = NumOk(value: real) | NumUndefined(cause: UndefinedCause)

  /** The characters the zero check lets through. */
  predicate ZeroLiteralChar(c: char)
  {
    c == '0' || c == '.' || c == '+' || c == '-' || c == 'e' || c == '\0'
  }

  predicate LooksLikeZero(run: string)
  {
    forall k :: 0 <= k < |run| ==> ZeroLiteralChar(run[k])
  }

  function Abs(x: real): real
  {
    if x < 0.0 then -x else x
  }

  /** `v` scaled by the unit letter `c`: milli, micro or nano; unchanged for
      any other character. */
  function ApplyUnit(v: real, c: char): (r: real)
    ensures c == 'm' ==> r * 1000.0 == v
    ensures c == 'u' ==> r * 1000000.0 == v
    ensures c == 'n' ==> r * 1000000000.0 == v
    ensures c != 'm' && c != 'u' && c != 'n' ==> r == v
  {
    if c == 'm' then v * 0.001
    else if c == 'n' then v * 0.000000001
    else if c == 'u' then v * 0.000001
    else v
  }

  /** The character at index `i` of a C string: its NUL at the end. */
  function CharAt(s: string, i: nat): char
  {
    if i < |s| then s[i] else '\0'
  }

  /** The numeric run of `parseNumeric`'s argument: the first strtok token for
      the delimiters " :\n\r" plus 'n', 'u', 'm' and 'V'. */
  function NumericRun(numeric: string): Step
  {
    Next(numeric, 0, NumericDelims)
  }

  /** What `parseNumeric` returns.  The unit letter is read at index
      `strlen(run)` of the argument, which is the letter right after the run
      only when the run starts at index 0. */
  function NumericValue(numeric: string): Numeric
  {
    if !CopyGuard(|numeric|, NumericBufferSize) then NumUndefined(NumericTooLong)
    else
      var run := NumericRun(numeric);
      if run.Null? then NumUndefined(MissingToken)
      else
        var v := Atof(run.text);
        if Abs(v) < ZeroThreshold && !LooksLikeZero(run.text) then NumOk(NotANumber)
        else NumOk(ApplyUnit(v, CharAt(numeric, |run.text|)))
  }

  /** Only an argument that overflows the buffer or holds no numeric run at
      all leaves `parseNumeric` undefined. */
  lemma NumericDefinedWhen(numeric: string)
    ensures NumericValue(numeric).NumUndefined? <==>
      (|numeric| >= NumericBufferSize || forall k :: 0 <= k < |numeric| ==> numeric[k] in NumericDelims)
  {
    NextMeaning(numeric, 0, NumericDelims);
  }

  /** A run that is a genuine zero ("0", "0.0", "-0e0", ...) gives 0, whatever
      unit letter follows it. */
  lemma GenuineZero(numeric: string)
    requires |numeric| < NumericBufferSize
    requires NumericRun(numeric).Token? && LooksLikeZero(NumericRun(numeric).text)
    ensures NumericValue(numeric) == NumOk(0.0)
  {
    var run := NumericRun(numeric).text;
    assert forall k :: 0 <= k < |run| && IsDigit(run[k]) ==> run[k] == '0' by {
      forall k | 0 <= k < |run| && IsDigit(run[k]) ensures run[k] == '0' {
        assert ZeroLiteralChar(run[k]);
      }
    }
  }

  /** A run holding no digit that is not a genuine zero ("abc", ".e") gives
      the NotANumber sentinel, not a silent 0. */
  lemma GarbageIsNotANumber(numeric: string)
    requires |numeric| < NumericBufferSize
    requires NumericRun(numeric).Token?
    requires forall k :: 0 <= k < |NumericRun(numeric).text| ==> !IsDigit(NumericRun(numeric).text[k])
    requires !LooksLikeZero(NumericRun(numeric).text)
    ensures NumericValue(numeric) == NumOk(NotANumber)
  {
    assert Atof(NumericRun(numeric).text) == 0.0;
  }

  /** Whatever the run holds, a value too small to tell from `atof`'s zero
      gives the sentinel unless the run is a written zero. */
  lemma TinyNonZeroIsSentinel(numeric: string)
    requires |numeric| < NumericBufferSize && NumericRun(numeric).Token?
    requires Abs(Atof(NumericRun(numeric).text)) < ZeroThreshold
    requires !LooksLikeZero(NumericRun(numeric).text)
    ensures NumericValue(numeric) == NumOk(NotANumber)
  {
  }

  /** The sentinel comes out either for a run that converted to (nearly) zero
      without being a genuine zero, or for a literal whose value is the
      sentinel itself: the two cannot be told apart. */
  lemma NotANumberMeaning(numeric: string)
    requires NumericValue(numeric) == NumOk(NotANumber)
    ensures NumericRun(numeric).Token?
    ensures var run := NumericRun(numeric).text;
      (Abs(Atof(run)) < ZeroThreshold && !LooksLikeZero(run))
      || ApplyUnit(Atof(run), CharAt(numeric, |run|)) == NotANumber
  {
  }

  /** The loop of `parseNumeric` that re-scans a run whose value came out
      (nearly) zero: it stops at the first character that cannot belong to a
      written zero. */
  method ScanZeroLiteral(token: string) returns (genuine: bool)
    ensures genuine <==> LooksLikeZero(token)
  {
    var i := 0;
    while i < |token|
      invariant 0 <= i <= |token|
      invariant forall k :: 0 <= k < i ==> ZeroLiteralChar(token[k])
    {
      if !ZeroLiteralChar(token[i]) {
        return false;
      }
      i := i + 1;
    }
    return true;
  }

  /** `parseNumeric`: copy, cut out the numeric run, convert it, check that a
      (near) zero really is a zero, then scale by the unit letter. */
  method ParseNumeric(numeric: string) returns (r: Numeric)
    ensures r == NumericValue(numeric)
  {
    if !CopyGuard(|numeric|, NumericBufferSize) {
      return NumUndefined(NumericTooLong);
    }
    var local := numeric;
    var step := NumericRun(local);
    if step.Null? {
      return NumUndefined(MissingToken);
    }
    var token := step.text;
    var setVal := Atof(token);
    if Abs(setVal) < ZeroThreshold {
      var genuine := ScanZeroLiteral(token);
      if !genuine {
        return NumOk(NotANumber);
      }
    }
    var unitChar := CharAt(numeric, |token|);
    ghost var scaled := ApplyUnit(setVal, unitChar);
    if unitChar == 'm' { setVal := setVal * 0.001; }
    if unitChar == 'n' { setVal := setVal * 0.000000001; }
    if unitChar == 'u' { setVal := setVal * 0.000001; }
    assert setVal == scaled;
    return NumOk(setVal);
  }

  // ---------------------------------------------------------------------
  // Parse_Command

  /** After "ECHO": "ON" stores 1, "OFF" stores 0, any other word nothing. */
  function ClassifyEcho(buf: string, pos: nat): (o: Outcome)
    requires pos <= |buf|
    ensures o.effect.cmdType == Some(Echo)
    ensures !o.status.Fail? && o.effect.subType.None? && o.effect.rw.None?
  {
    var e := NoEffect.(cmdType := Some(Echo));
    var arg := Next(buf, pos, KeywordDelims);
    if arg.Null? then Outcome(Undefined(MissingToken), e)
    else if arg.text == "ON" then Outcome(Ok, e.(data := Some(1.0)))
    else if arg.text == "OFF" then Outcome(Ok, e.(data := Some(0.0)))
    else Outcome(Ok, e)
  }

  /** After a SOURce keyword: VOLTage or CURRent, then the number that fills
      the rest of the line. */
  function ClassifySource(buf: string, pos: nat): (o: Outcome)
    requires pos <= |buf|
    ensures o.effect.cmdType == Some(Source)
    ensures o.status.Fail? ==> o.status.reason == UnknownSubKeyword
    ensures o.effect.subType in {None, Some(Voltage), Some(Current)} && o.effect.rw.None?
  {
    var e := NoEffect.(cmdType := Some(Source));
    var sub := Next(buf, pos, KeywordDelims);
    if sub.Null? then Outcome(Undefined(MissingToken), e)
    else if IsVoltageWord(sub.text) || IsCurrentWord(sub.text) then
      var e := e.(subType := Some(if IsVoltageWord(sub.text) then Voltage else Current));
      var rest := Next(buf, sub.next, LineEndDelims);
      if rest.Null? then Outcome(Undefined(MissingToken), e)
      else
        match NumericValue(rest.text)
        case NumOk(v) => Outcome(Ok, e.(data := Some(v)))
        case NumUndefined(c) => Outcome(Undefined(c), e)
    else Outcome(Fail(UnknownSubKeyword), e)
  }

  /** After a MEASure keyword: VOLTage, CURRent, or ALL and a count. */
  function ClassifyMeasure(buf: string, pos: nat): (o: Outcome)
    requires pos <= |buf|
    ensures o.effect.cmdType == Some(Measure)
    ensures o.status.Fail? ==> o.status.reason == UnknownSubKeyword
    ensures o.effect.subType in {None, Some(Voltage), Some(Current), Some(All)} && o.effect.rw.None?
    ensures o.effect.data.Some? ==> o.effect.subType == Some(All)
  {
    var e := NoEffect.(cmdType := Some(Measure));
    var sub := Next(buf, pos, KeywordDelims);
    if sub.Null? then Outcome(Undefined(MissingToken), e)
    else if IsVoltageWord(sub.text) then Outcome(Ok, e.(subType := Some(Voltage)))
    else if IsCurrentWord(sub.text) then Outcome(Ok, e.(subType := Some(Current)))
    else if sub.text == "ALL" then
      var e := e.(subType := Some(All));
      var rest := Next(buf, sub.next, LineEndDelims);
      if rest.Null? then Outcome(Undefined(MissingToken), e)
      else Outcome(Ok, e.(data := Some(Atoi(rest.text) as real)))
    else Outcome(Fail(UnknownSubKeyword), e)
  }

  /** After a CHANnel keyword: SELEct, LOCAl, ENABle, MODE or RANGe. */
  function ClassifyChannel(buf: string, pos: nat): (o: Outcome)
    requires pos <= |buf|
    ensures o.effect.cmdType == Some(Channel)
    ensures o.status.Fail? ==> o.status.reason in {UnknownSubKeyword, BadEnableValue}
    ensures o.effect.subType == Some(Local) ==> o.effect.rw.None? && o.effect.data.None?
    ensures o.effect.rw.Some? ==> o.effect.subType in {Some(Select), Some(Enable), Some(Mode), Some(Range)}
    ensures o.effect.subType in {Some(Mode), Some(Range)} ==> !o.status.Fail?
  {
    var sub := Next(buf, pos, KeywordDelims);
    if sub.Null? then Outcome(Undefined(MissingToken), NoEffect.(cmdType := Some(Channel)))
    else if IsSelectWord(sub.text) then ClassifySetting(Select, buf, sub.next)
    else if IsLocalWord(sub.text) then Outcome(Ok, NoEffect.(cmdType := Some(Channel), subType := Some(Local)))
    else if IsEnableWord(sub.text) then ClassifySetting(Enable, buf, sub.next)
    else if sub.text == "MODE" then ClassifySetting(Mode, buf, sub.next)
    else if IsRangeWord(sub.text) then ClassifySetting(Range, buf, sub.next)
    else Outcome(Fail(UnknownSubKeyword), NoEffect.(cmdType := Some(Channel)))
  }

  /** The value a CHANnel setting `op` stores for the written argument `t`;
      None when ENABle rejects it. */
  function SettingValue(op: CommandSubType, t: string): Option<real>
  {
    match op
    case Select => Some(Atoi(t) as real)
    case Enable => if t == "ON" then Some(1.0) else if t == "OFF" then Some(0.0) else None
    case Mode => Some(ModeValue(t))
    case _ => Some(RangeValue(t))
  }

  /** After the CHANnel sub-keyword `op` (SELEct, ENABle, MODE or RANGe): the
      rest of the line is "?" for a query, or the value to write. */
  function ClassifySetting(op: CommandSubType, buf: string, pos: nat): (o: Outcome)
    requires pos <= |buf|
    ensures o.effect.cmdType == Some(Channel) && o.effect.subType == Some(op)
    ensures o.status.Fail? ==> op == Enable && o.status.reason == BadEnableValue
  {
    var e := NoEffect.(cmdType := Some(Channel), subType := Some(op));
    var arg := Next(buf, pos, LineEndDelims);
    if arg.Null? then Outcome(Undefined(MissingToken), e)
    else if arg.text == "?" then Outcome(Ok, e.(rw := Some(Read)))
    else
      var e := e.(rw := Some(Write));
      match SettingValue(op, arg.text)
      case Some(v) => Outcome(Ok, e.(data := Some(v)))
      case None => Outcome(Fail(BadEnableValue), e)
  }

  /** After the leading ':', resuming strtok at `pos`: the family keyword. */
  function ClassifyFamily(buf: string, pos: nat): Outcome
    requires pos <= |buf|
  {
    var fam := Next(buf, pos, KeywordDelims);
    if fam.Null? then Outcome(Undefined(MissingToken), NoEffect)
    else if IsSourceWord(fam.text) then ClassifySource(buf, fam.next)
    else if IsMeasureWord(fam.text) then ClassifyMeasure(buf, fam.next)
    else if IsChannelWord(fam.text) then ClassifyChannel(buf, fam.next)
    else Outcome(Fail(UnknownFamily), NoEffect)
  }

  // ---------------------------------------------------------------------
  // Dropping a prefix of the buffer does not change what a branch sees:
  // the re-copy of a ':' line is harmless.

  lemma SettingShift(op: CommandSubType, s: string, d: nat, p: nat)
    requires d <= p <= |s|
    ensures ClassifySetting(op, s[d..], p - d) == ClassifySetting(op, s, p)
  {
    NextShift(s, d, p, LineEndDelims);
  }

  lemma SourceShift(s: string, d: nat, p: nat)
    requires d <= p <= |s|
    ensures ClassifySource(s[d..], p - d) == ClassifySource(s, p)
  {
    NextShift(s, d, p, KeywordDelims);
    var sub := Next(s, p, KeywordDelims);
    NextShift(s, d, sub.next, LineEndDelims);
    var rest := Next(s, sub.next, LineEndDelims);
    var rest' := Next(s[d..], sub.next - d, LineEndDelims);
    if rest.Token? {
      assert NumericValue(rest'.text) == NumericValue(rest.text);
    }
  }

  lemma MeasureShift(s: string, d: nat, p: nat)
    requires d <= p <= |s|
    ensures ClassifyMeasure(s[d..], p - d) == ClassifyMeasure(s, p)
  {
    NextShift(s, d, p, KeywordDelims);
    var sub := Next(s, p, KeywordDelims);
    NextShift(s, d, sub.next, LineEndDelims);
  }

  lemma ChannelShift(s: string, d: nat, p: nat)
    requires d <= p <= |s|
    ensures ClassifyChannel(s[d..], p - d) == ClassifyChannel(s, p)
  {
    var t := s[d..];
    NextShift(s, d, p, KeywordDelims);
    var sub := Next(s, p, KeywordDelims);
    var sub' := Next(t, p - d, KeywordDelims);
    if sub.Token? {
      var w, q := sub.text, sub.next;
      assert sub'.text == w && sub'.next == q - d;
      if IsSelectWord(w) {
        SettingShift(Select, s, d, q);
        assert ClassifyChannel(t, p - d) == ClassifySetting(Select, t, q - d);
      } else if IsLocalWord(w) {
      } else if IsEnableWord(w) {
        SettingShift(Enable, s, d, q);
        assert ClassifyChannel(t, p - d) == ClassifySetting(Enable, t, q - d);
      } else if w == "MODE" {
        SettingShift(Mode, s, d, q);
        assert ClassifyChannel(t, p - d) == ClassifySetting(Mode, t, q - d);
      } else if IsRangeWord(w) {
        SettingShift(Range, s, d, q);
        assert ClassifyChannel(t, p - d) == ClassifySetting(Range, t, q - d);
      }
    }
  }

  lemma FamilyShift(s: string, d: nat, p: nat)
    requires d <= p <= |s|
    ensures ClassifyFamily(s[d..], p - d) == ClassifyFamily(s, p)
  {
    var t := s[d..];
    NextShift(s, d, p, KeywordDelims);
    var fam := Next(s, p, KeywordDelims);
    var fam' := Next(t, p - d, KeywordDelims);
    if fam.Token? {
      var w, q := fam.text, fam.next;
      assert fam'.text == w && fam'.next == q - d;
      if IsSourceWord(w) {
        SourceShift(s, d, q);
        assert ClassifyFamily(t, p - d) == ClassifySource(t, q - d);
      } else if IsMeasureWord(w) {
        MeasureShift(s, d, q);
        assert ClassifyFamily(t, p - d) == ClassifyMeasure(t, q - d);
      } else if IsChannelWord(w) {
        ChannelShift(s, d, q);
        assert ClassifyFamily(t, p - d) == ClassifyChannel(t, q - d);
      }
    }
  }

  /** Re-copying a ':' line without its ':' and tokenising the copy from its
      start classifies exactly the words of the original line: the ':' is a
      keyword delimiter, so strtok would have skipped it anyway. */
  lemma ColonRecopy(line: string)
    requires FirstChar(line) == ':'
    ensures ClassifyFamily(line[1..], 0) == ClassifyFamily(line, 0)
  {
    FamilyShift(line, 1, 1);
    assert Next(line, 0, KeywordDelims) == Next(line, 1, KeywordDelims);
    assert ClassifyFamily(line, 1) == ClassifyFamily(line, 0);
  }

  /** What `Parse_Command` does with a line: the status it returns and the
      fields it assigns.  The '*' test looks at the raw first character; the
      ECHO test at the first word after delimiters are skipped, and comes
      before the ':' test. */
  function Classify(line: string): Outcome
  {
    if !CopyGuard(|line|, CommandBufferSize) then Outcome(Undefined(LineTooLong), NoEffect)
    else
      var first := Next(line, 0, KeywordDelims);
      if FirstChar(line) == '*' then
        Outcome(Ok, if TextOf(first) == "*IDN?" then NoEffect.(cmdType := Some(Idn)) else NoEffect)
      else if first.Null? then Outcome(Undefined(MissingToken), NoEffect)
      else if first.text == "ECHO" then ClassifyEcho(line, first.next)
      else if FirstChar(line) == ':' then ClassifyFamily(line, 0)
      else Outcome(Fail(UnknownPrefix), NoEffect)
  }

  /** `Parse_Command`: classify `line`, writing into the command `cmd` only the
      fields the branch taken assigns; return the status and the new command. */
  method ParseCommand(line: string, cmd: ScpiCommand) returns (status: Status, out: ScpiCommand)
    ensures status == Classify(line).status
    ensures out == Apply(Classify(line).effect, cmd)
  {
    out := cmd;
    if !CopyGuard(|line|, CommandBufferSize) {
      return Undefined(LineTooLong), out;
    }
    var buf := line;
    var token: Step;
    if FirstChar(line) == '*' {
      token := Next(buf, 0, KeywordDelims);
      if token.Token? && token.text == "*IDN?" {
        out := out.(cmdType := Idn);
      }
      return Ok, out;
    }
    token := Next(buf, 0, KeywordDelims);
    if token.Null? {
      return Undefined(MissingToken), out;
    }
    if token.text == "ECHO" {
      out := out.(cmdType := Echo);
      token := Next(buf, token.next, KeywordDelims);
      if token.Null? {
        return Undefined(MissingToken), out;
      }
      if token.text == "ON" { out := out.(data := 1.0); }
      if token.text == "OFF" { out := out.(data := 0.0); }
      return Ok, out;
    }
    if FirstChar(line) != ':' {
      return Fail(UnknownPrefix), out;
    }
    // copy again, without the ':', as strtok has cut up the first copy
    buf := line[1..];
    ColonRecopy(line);
    token := Next(buf, 0, KeywordDelims);
    if token.Null? {
      return Undefined(MissingToken), out;
    }
    if IsSourceWord(token.text) {
      status, out := ParseSource(buf, token.next, out);
      assert ClassifyFamily(buf, 0) == ClassifySource(buf, token.next);
    } else if IsMeasureWord(token.text) {
      status, out := ParseMeasure(buf, token.next, out);
      assert ClassifyFamily(buf, 0) == ClassifyMeasure(buf, token.next);
    } else if IsChannelWord(token.text) {
      status, out := ParseChannel(buf, token.next, out);
      assert ClassifyFamily(buf, 0) == ClassifyChannel(buf, token.next);
    } else {
      return Fail(UnknownFamily), out;
    }
  }

  /** The SOURce branch of `Parse_Command`, resuming strtok at `pos`. */
  method ParseSource(buf: string, pos: nat, cmd: ScpiCommand) returns (status: Status, out: ScpiCommand)
    requires pos <= |buf|
    ensures status == ClassifySource(buf, pos).status
    ensures out == Apply(ClassifySource(buf, pos).effect, cmd)
  {
    out := cmd.(cmdType := Source);
    var token := Next(buf, pos, KeywordDelims);
    if token.Null? {
      return Undefined(MissingToken), out;
    }
    var sub := token;
    if IsVoltageWord(token.text) {
      out := out.(subType := Voltage);
    } else if IsCurrentWord(token.text) {
      out := out.(subType := Current);
    } else {
      return Fail(UnknownSubKeyword), out;
    }
    // the numeric part: the rest of the line
    token := Next(buf, token.next, LineEndDelims);
    if token.Null? {
      return Undefined(MissingToken), out;
    }
    var value := ParseNumeric(token.text);
    if value.NumUndefined? {
      return Undefined(value.cause), out;
    }
    out := out.(data := value.value);
    return Ok, out;
  }

  /** The MEASure branch of `Parse_Command`, resuming strtok at `pos`. */
  method ParseMeasure(buf: string, pos: nat, cmd: ScpiCommand) returns (status: Status, out: ScpiCommand)
    requires pos <= |buf|
    ensures status == ClassifyMeasure(buf, pos).status
    ensures out == Apply(ClassifyMeasure(buf, pos).effect, cmd)
  {
    out := cmd.(cmdType := Measure);
    var token := Next(buf, pos, KeywordDelims);
    if token.Null? {
      return Undefined(MissingToken), out;
    }
    if IsVoltageWord(token.text) {
      out := out.(subType := Voltage);
    } else if IsCurrentWord(token.text) {
      out := out.(subType := Current);
    } else if token.text == "ALL" {
      out := out.(subType := All);
      token := Next(buf, token.next, LineEndDelims);
      if token.Null? {
        return Undefined(MissingToken), out;
      }
      out := out.(data := Atoi(token.text) as real);
    } else {
      return Fail(UnknownSubKeyword), out;
    }
    return Ok, out;
  }

  /** The CHANnel branch of `Parse_Command`, resuming strtok at `pos`. */
  method ParseChannel(buf: string, pos: nat, cmd: ScpiCommand) returns (status: Status, out: ScpiCommand)
    requires pos <= |buf|
    ensures status == ClassifyChannel(buf, pos).status
    ensures out == Apply(ClassifyChannel(buf, pos).effect, cmd)
  {
    out := cmd.(cmdType := Channel);
    var token := Next(buf, pos, KeywordDelims);
    if token.Null? {
      return Undefined(MissingToken), out;
    }
    if IsSelectWord(token.text) {
      status, out := ParseSelect(buf, token.next, out);
      assert ClassifyChannel(buf, pos) == ClassifySetting(Select, buf, token.next);
    } else if IsLocalWord(token.text) {
      // LOCAl takes no argument: only the sub-type is assigned
      out := out.(subType := Local);
      assert ClassifyChannel(buf, pos) == Outcome(Ok, NoEffect.(cmdType := Some(Channel), subType := Some(Local)));
      return Ok, out;
    } else if IsEnableWord(token.text) {
      status, out := ParseEnable(buf, token.next, out);
      assert ClassifyChannel(buf, pos) == ClassifySetting(Enable, buf, token.next);
    } else if token.text == "MODE" {
      status, out := ParseMode(buf, token.next, out);
      assert ClassifyChannel(buf, pos) == ClassifySetting(Mode, buf, token.next);
    } else if IsRangeWord(token.text) {
      status, out := ParseRange(buf, token.next, out);
      assert ClassifyChannel(buf, pos) == ClassifySetting(Range, buf, token.next);
    } else {
      assert ClassifyChannel(buf, pos) == Outcome(Fail(UnknownSubKeyword), NoEffect.(cmdType := Some(Channel)));
      return Fail(UnknownSubKeyword), out;
    }
  }

  /** CHANnel:SELEct: "?" queries, anything else is read by `atoi` as the
      channel to select (0 for a non-number). */
  method ParseSelect(buf: string, pos: nat, cmd: ScpiCommand) returns (status: Status, out: ScpiCommand)
    requires pos <= |buf|
    requires cmd.cmdType == Channel
    ensures status == ClassifySetting(Select, buf, pos).status
    ensures out == Apply(ClassifySetting(Select, buf, pos).effect, cmd)
  {
    out := cmd.(subType := Select);
    var token := Next(buf, pos, LineEndDelims);
    if token.Null? {
      return Undefined(MissingToken), out;
    }
    if token.text == "?" {
      out := out.(rw := Read);
    } else {
      out := out.(data := Atoi(token.text) as real);
      out := out.(rw := Write);
    }
    return Ok, out;
  }

  /** CHANnel:ENABle: "?" queries; "ON" and "OFF" write 1 and 0; any other
      word is refused, after the write flag has been set. */
  method ParseEnable(buf: string, pos: nat, cmd: ScpiCommand) returns (status: Status, out: ScpiCommand)
    requires pos <= |buf|
    requires cmd.cmdType == Channel
    ensures status == ClassifySetting(Enable, buf, pos).status
    ensures out == Apply(ClassifySetting(Enable, buf, pos).effect, cmd)
  {
    out := cmd.(subType := Enable);
    var token := Next(buf, pos, LineEndDelims);
    if token.Null? {
      return Undefined(MissingToken), out;
    }
    if token.text == "?" {
      out := out.(rw := Read);
    } else {
      out := out.(rw := Write);
      if token.text == "ON" {
        out := out.(data := 1.0);
      } else if token.text == "OFF" {
        out := out.(data := 0.0);
      } else {
        return Fail(BadEnableValue), out;
      }
    }
    return Ok, out;
  }

  /** CHANnel:MODE: "?" queries, anything else writes the regulation mode. */
  method ParseMode(buf: string, pos: nat, cmd: ScpiCommand) returns (status: Status, out: ScpiCommand)
    requires pos <= |buf|
    requires cmd.cmdType == Channel
    ensures status == ClassifySetting(Mode, buf, pos).status
    ensures out == Apply(ClassifySetting(Mode, buf, pos).effect, cmd)
  {
    out := cmd.(subType := Mode);
    var token := Next(buf, pos, LineEndDelims);
    if token.Null? {
      return Undefined(MissingToken), out;
    }
    if token.text == "?" {
      out := out.(rw := Read);
    } else {
      out := out.(rw := Write);
      if token.text == "CURRENT" || token.text == "current" {
        out := out.(data := RegulationModeCurrent);
      } else if token.text == "LIGHT" || token.text == "light" {
        out := out.(data := RegulationModeLight);
      } else {
        out := out.(data := InvalidSelection);
      }
    }
    return Ok, out;
  }

  /** CHANnel:RANGe: "?" queries, anything else writes the photodiode range. */
  method ParseRange(buf: string, pos: nat, cmd: ScpiCommand) returns (status: Status, out: ScpiCommand)
    requires pos <= |buf|
    requires cmd.cmdType == Channel
    ensures status == ClassifySetting(Range, buf, pos).status
    ensures out == Apply(ClassifySetting(Range, buf, pos).effect, cmd)
  {
    out := cmd.(subType := Range);
    var token := Next(buf, pos, LineEndDelims);
    if token.Null? {
      return Undefined(MissingToken), out;
    }
    if token.text == "?" {
      out := out.(rw := Read);
    } else {
      out := out.(rw := Write);
      if token.text == "HIGH" || token.text == "high" {
        out := out.(data := PhotodiodeRangeHigh);
      } else if token.text == "LOW" || token.text == "low" {
        out := out.(data := PhotodiodeRangeLow);
      } else {
        out := out.(data := InvalidSelection);
      }
    }
    return Ok, out;
  }
}
