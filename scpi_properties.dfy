/** What `Parse_Command` promises, stated over the words of the line.

    The words are the successive strtok tokens of the line itself: `W1` for
    the keyword delimiters from the start, `W2` after it, and `Arg`, the rest
    of the line (only '\n' and '\r' delimit it) after `W2`. */
module ScpiProperties {
  import opened Strtok
  import opened ScpiTypes
  import opened ParseScpi
  import opened CStdlib

  function W1(line: string): Step
  {
    Next(line, 0, KeywordDelims)
  }

  function W2(line: string): Step
  {
    Next(line, W1(line).next, KeywordDelims)
  }

  function Arg(line: string): Step
  {
    Next(line, W2(line).next, LineEndDelims)
  }

  /** `Classify` restated over the words of the line. */
  lemma ClassifyByWords(line: string)
    requires |line| < CommandBufferSize && FirstChar(line) == ':' && W1(line).Token? && W1(line).text != "ECHO"
    ensures W1(line).Token? && IsSourceWord(W1(line).text) ==> Classify(line) == ClassifySource(line, W1(line).next)
    ensures W1(line).Token? && IsMeasureWord(W1(line).text) ==> Classify(line) == ClassifyMeasure(line, W1(line).next)
    ensures W1(line).Token? && IsChannelWord(W1(line).text) ==> Classify(line) == ClassifyChannel(line, W1(line).next)
  {
  }

  // ---------------------------------------------------------------------
  // When `Parse_Command` returns 1

  /** A line that starts with neither '*' nor ':' and whose first word is not
      ECHO is refused. */
  lemma UnknownPrefixExactly(line: string)
    requires |line| < CommandBufferSize
    ensures Classify(line).status == Fail(UnknownPrefix) <==>
      FirstChar(line) != '*' && FirstChar(line) != ':' && W1(line).Token? && W1(line).text != "ECHO"
  {
  }

  /** After ':', a first word other than SOURce/SOUR, MEASure/MEAS,
      CHANnel/CHAN (and ECHO, tested earlier) is refused. */
  lemma UnknownFamilyExactly(line: string)
    requires |line| < CommandBufferSize
    ensures Classify(line).status == Fail(UnknownFamily) <==>
      FirstChar(line) == ':' && W1(line).Token? && W1(line).text != "ECHO" && !IsFamilyWord(W1(line).text)
  {
    if FirstChar(line) == ':' && W1(line).Token? && W1(line).text != "ECHO" {
      ClassifyByWords(line);
    }
  }

  /** After a family keyword, a second word that is not one of that family's
      sub-keywords is refused. */
  lemma UnknownSubKeywordExactly(line: string)
    requires |line| < CommandBufferSize
    ensures Classify(line).status == Fail(UnknownSubKeyword) <==>
      && FirstChar(line) == ':' && W1(line).Token? && IsFamilyWord(W1(line).text)
      && W2(line).Token? && !IsSubKeyword(W1(line).text, W2(line).text)
  {
    if FirstChar(line) == ':' && W1(line).Token? && W1(line).text != "ECHO" {
      ClassifyByWords(line);
    }
  }

  /** ENABle with a value other than "?", "ON" and "OFF" is refused. */
  lemma BadEnableValueExactly(line: string)
    requires |line| < CommandBufferSize
    ensures Classify(line).status == Fail(BadEnableValue) <==>
      && FirstChar(line) == ':' && W1(line).Token? && IsChannelWord(W1(line).text)
      && W2(line).Token? && IsEnableWord(W2(line).text)
      && Arg(line).Token? && !(Arg(line).text == "?" || Arg(line).text == "ON" || Arg(line).text == "OFF")
  {
    if FirstChar(line) == ':' && W1(line).Token? && W1(line).text != "ECHO" {
      ClassifyByWords(line);
    }
  }

  // ---------------------------------------------------------------------
  // '*' and ECHO lines

  /** Every '*' line is accepted; it is an identification query exactly when
      its first word is "*IDN?", and no other field is assigned. */
  lemma StarLine(line: string)
    requires |line| < CommandBufferSize && FirstChar(line) == '*'
    ensures Classify(line).status == Ok
    ensures Classify(line).effect.cmdType == Some(Idn) <==> W1(line).Token? && W1(line).text == "*IDN?"
    ensures Classify(line).effect.cmdType != Some(Idn) ==> Classify(line).effect == NoEffect
    ensures Classify(line).effect.subType.None? && Classify(line).effect.rw.None? && Classify(line).effect.data.None?
  {
  }

  /** A first word ECHO, with or without a ':' before it, makes an ECHO
      command: ON stores 1, OFF stores 0, and any other word is accepted
      without storing anything. */
  lemma EchoLine(line: string)
    requires |line| < CommandBufferSize && FirstChar(line) != '*'
    requires W1(line).Token? && W1(line).text == "ECHO" && W2(line).Token?
    ensures Classify(line).status == Ok
    ensures Classify(line).effect.cmdType == Some(Echo)
    ensures Classify(line).effect.subType.None? && Classify(line).effect.rw.None?
    ensures W2(line).text == "ON" ==> Classify(line).effect.data == Some(1.0)
    ensures W2(line).text == "OFF" ==> Classify(line).effect.data == Some(0.0)
    ensures W2(line).text != "ON" && W2(line).text != "OFF" ==> Classify(line).effect.data.None?
  {
  }

  // ---------------------------------------------------------------------
  // Which fields each branch assigns

  /** Identification and ECHO never assign the sub-type or the direction. */
  lemma IdnEchoFrame(line: string)
    requires Classify(line).effect.cmdType == Some(Idn) || Classify(line).effect.cmdType == Some(Echo)
    ensures Classify(line).effect.subType.None? && Classify(line).effect.rw.None?
  {
    if FirstChar(line) == ':' && W1(line).Token? && W1(line).text != "ECHO" && |line| < CommandBufferSize {
      ClassifyByWords(line);
    }
  }

  /** LOCAl and MEASure VOLTage/CURRent leave the direction and the data as
      they were. */
  lemma QueryOnlyFrame(line: string)
    requires
      || Classify(line).effect.subType == Some(Local)
      || (Classify(line).effect.cmdType == Some(Measure)
          && (Classify(line).effect.subType == Some(Voltage) || Classify(line).effect.subType == Some(Current)))
    ensures Classify(line).effect.rw.None? && Classify(line).effect.data.None?
  {
    if FirstChar(line) == ':' && W1(line).Token? && W1(line).text != "ECHO" && |line| < CommandBufferSize {
      ClassifyByWords(line);
    }
  }

  /** Only the CHANnel settings SELEct, ENABle, MODE and RANGe assign the
      direction. */
  lemma DirectionOnlyForSettings(line: string)
    requires Classify(line).effect.rw.Some?
    ensures Classify(line).effect.cmdType == Some(Channel)
    ensures Classify(line).effect.subType.value in {Select, Enable, Mode, Range}
  {
    if FirstChar(line) == ':' && W1(line).Token? && W1(line).text != "ECHO" && |line| < CommandBufferSize {
      ClassifyByWords(line);
    }
  }

  // ---------------------------------------------------------------------
  // CHANnel settings

  /** A setting whose argument is exactly "?" is a query and stores nothing;
      any other argument is a write. */
  lemma SettingDirection(op: CommandSubType, buf: string, pos: nat)
    requires pos <= |buf|
    requires Next(buf, pos, LineEndDelims).Token?
    ensures Next(buf, pos, LineEndDelims).text == "?" ==>
      ClassifySetting(op, buf, pos) == Outcome(Ok, NoEffect.(cmdType := Some(Channel), subType := Some(op), rw := Some(Read)))
    ensures Next(buf, pos, LineEndDelims).text != "?" ==> ClassifySetting(op, buf, pos).effect.rw == Some(Write)
  {
  }

  /** MODE and RANGe accept any value: a command whose sub-type is MODE or
      RANGe is never refused. */
  lemma ModeRangeNeverFail(line: string)
    requires Classify(line).effect.subType == Some(Mode) || Classify(line).effect.subType == Some(Range)
    ensures !Classify(line).status.Fail?
  {
    if FirstChar(line) == ':' && W1(line).Token? && W1(line).text != "ECHO" && |line| < CommandBufferSize {
      ClassifyByWords(line);
    }
  }

  // ---------------------------------------------------------------------
  // The values each branch stores

  /** SOURce VOLTage/CURRent stores what `parseNumeric` makes of the rest of
      the line; when `parseNumeric` is undefined, so is the command. */
  lemma SourceData(line: string)
    requires |line| < CommandBufferSize && FirstChar(line) == ':'
    requires W1(line).Token? && IsSourceWord(W1(line).text)
    requires W2(line).Token? && (IsVoltageWord(W2(line).text) || IsCurrentWord(W2(line).text))
    requires Arg(line).Token?
    ensures Classify(line).effect.cmdType == Some(Source) && Classify(line).effect.rw.None?
    ensures Classify(line).effect.subType == Some(if IsVoltageWord(W2(line).text) then Voltage else Current)
    ensures NumericValue(Arg(line).text).NumOk? ==>
      Classify(line).status == Ok && Classify(line).effect.data == Some(NumericValue(Arg(line).text).value)
    ensures NumericValue(Arg(line).text).NumUndefined? ==>
      Classify(line).status == Undefined(NumericValue(Arg(line).text).cause)
  {
    ClassifyByWords(line);
  }

  /** MEASure ALL stores `atoi` of the rest of the line. */
  lemma MeasureAllData(line: string)
    requires |line| < CommandBufferSize && FirstChar(line) == ':'
    requires W1(line).Token? && IsMeasureWord(W1(line).text)
    requires W2(line).Token? && W2(line).text == "ALL" && Arg(line).Token?
    ensures Classify(line) == Outcome(Ok, Effect(Some(Measure), Some(All), None, Some(Atoi(Arg(line).text) as real)))
  {
    ClassifyByWords(line);
  }

  /** CHANnel SELEct with an argument other than "?" writes `atoi` of it. */
  lemma SelectData(line: string)
    requires |line| < CommandBufferSize && FirstChar(line) == ':'
    requires W1(line).Token? && IsChannelWord(W1(line).text)
    requires W2(line).Token? && IsSelectWord(W2(line).text)
    requires Arg(line).Token? && Arg(line).text != "?"
    ensures Classify(line) == Outcome(Ok, Effect(Some(Channel), Some(Select), Some(Write), Some(Atoi(Arg(line).text) as real)))
  {
    ClassifyByWords(line);
  }

  /** CHANnel ENABle ON writes 1 and ENABle OFF writes 0. */
  lemma EnableData(line: string)
    requires |line| < CommandBufferSize && FirstChar(line) == ':'
    requires W1(line).Token? && IsChannelWord(W1(line).text)
    requires W2(line).Token? && IsEnableWord(W2(line).text)
    requires Arg(line).Token? && (Arg(line).text == "ON" || Arg(line).text == "OFF")
    ensures Classify(line) == Outcome(Ok, Effect(Some(Channel), Some(Enable), Some(Write),
      Some(if Arg(line).text == "ON" then 1.0 else 0.0)))
  {
    ClassifyByWords(line);
  }

  /** CHANnel MODE with an argument other than "?" writes its regulation
      mode value. */
  lemma ModeData(line: string)
    requires |line| < CommandBufferSize && FirstChar(line) == ':'
    requires W1(line).Token? && IsChannelWord(W1(line).text)
    requires W2(line).Token? && W2(line).text == "MODE"
    requires Arg(line).Token? && Arg(line).text != "?"
    ensures Classify(line) == Outcome(Ok, Effect(Some(Channel), Some(Mode), Some(Write), Some(ModeValue(Arg(line).text))))
  {
    ClassifyByWords(line);
  }

  /** CHANnel RANGe with an argument other than "?" writes its photodiode
      range value. */
  lemma RangeData(line: string)
    requires |line| < CommandBufferSize && FirstChar(line) == ':'
    requires W1(line).Token? && IsChannelWord(W1(line).text)
    requires W2(line).Token? && IsRangeWord(W2(line).text)
    requires Arg(line).Token? && Arg(line).text != "?"
    ensures Classify(line) == Outcome(Ok, Effect(Some(Channel), Some(Range), Some(Write), Some(RangeValue(Arg(line).text))))
  {
    ClassifyByWords(line);
  }
}
