/** Worked examples: command lines such as `*IDN?` from the comment block at
    the top of `Parse_Command` and a few other lines, and a few arguments of
    `parseNumeric` such as `12.34mV`. */
module ScpiExamples {
  import opened Strtok
  import opened CStdlib
  import opened ScpiTypes
  import opened ParseScpi

  lemma IdnQuery()
    ensures Classify("*IDN?") == Outcome(Ok, NoEffect.(cmdType := Some(Idn)))
  {
    NextIs("*IDN?", 0, 0, 5, KeywordDelims);
  }

  /** Parsed into a zeroed command, "*IDN?" leaves everything but the type
      at its blank value. */
  lemma IdnOnBlankCommand()
    ensures Apply(Classify("*IDN?").effect, BlankCommand) == ScpiCommand(Idn, CSTBlank, RWBlank, 0.0)
  {
    IdnQuery();
  }

  /** The ':' before ECHO is skipped like any keyword delimiter. */
  lemma ColonEchoOn()
    ensures Classify(":ECHO ON") == Outcome(Ok, NoEffect.(cmdType := Some(Echo), data := Some(1.0)))
  {
    var line := ":ECHO ON";
    NextIs(line, 0, 1, 5, KeywordDelims);
    NextIs(line, 6, 6, 8, KeywordDelims);
    assert line[1..5] == "ECHO" && line[6..8] == "ON";
  }

  /** MODE matches only the all-upper and all-lower spellings. */
  lemma MixedCaseModeIsInvalid(line: string)
    requires line == ":CHAN:MODE Current"
    ensures Classify(line) == Outcome(Ok, Effect(Some(Channel), Some(Mode), Some(Write), Some(InvalidSelection)))
  {
    ChanFirst(line);
    ModeCurrentTail(line);
  }

  lemma ChanFirst(line: string)
    requires line == ":CHAN:MODE Current"
    ensures ClassifyFamily(line, 0) == ClassifyChannel(line, 6)
  {
    NextIs(line, 0, 1, 5, KeywordDelims);
    assert line[1..5] == "CHAN";
  }

  lemma ModeCurrentTail(line: string)
    requires line == ":CHAN:MODE Current"
    ensures ClassifyChannel(line, 6) == Outcome(Ok, Effect(Some(Channel), Some(Mode), Some(Write), Some(InvalidSelection)))
  {
    NextIs(line, 6, 6, 10, KeywordDelims);
    assert line[6..10] == "MODE";
    ChannelModeRoute(line, 6);
    ModeCurrentValue(line);
  }

  lemma ChannelModeRoute(buf: string, pos: nat)
    requires pos <= |buf| && Next(buf, pos, KeywordDelims).Token? && Next(buf, pos, KeywordDelims).text == "MODE"
    ensures ClassifyChannel(buf, pos) == ClassifySetting(Mode, buf, Next(buf, pos, KeywordDelims).next)
  {
  }

  lemma ModeCurrentValue(line: string)
    requires line == ":CHAN:MODE Current"
    ensures ClassifySetting(Mode, line, 11) == Outcome(Ok, Effect(Some(Channel), Some(Mode), Some(Write), Some(InvalidSelection)))
  {
    NextIs(line, 11, 11, 18, LineEndDelims);
    assert line[11..18] == "Current";
  }

  // ---------------------------------------------------------------------
  // parseNumeric

  lemma DecimalDigits()
    ensures DecimalValue("1234") == 1234
  {
    assert DecimalValue("12") == 12;
    assert "123"[..2] == "12";
    assert DecimalValue("123") == 123;
    assert "1234"[..3] == "123";
  }

  lemma DecimalMantissa(run: string)
    requires run == "12.34"
    ensures ScanMantissa(run, 0) == Mantissa("1234", 2, 5)
  {
    assert DigitsEnd(run, 2) == 2;
    assert DigitsEnd(run, 0) == 2;
    assert DigitsEnd(run, 5) == 5;
    assert DigitsEnd(run, 3) == 5;
    assert run[0..2] + run[3..5] == "1234";
  }

  lemma AtofDecimal(run: string)
    requires run == "12.34"
    ensures Atof(run) == 12.34
  {
    DecimalMantissa(run);
    DecimalDigits();
    assert Shift10(1234.0, -2) == 12.34;
  }

  /** A milli suffix scales by 1e-3 ("12.34mV" on a SOURce:VOLTage line). */
  lemma MilliUnit(numeric: string)
    requires numeric == "12.34mV"
    ensures NumericValue(numeric) == NumOk(0.01234)
  {
    NextIs(numeric, 0, 0, 5, NumericDelims);
    assert numeric[0..5] == "12.34";
    AtofDecimal(numeric[0..5]);
  }

  lemma AtofDigit(run: string)
    requires run == "5"
    ensures Atof(run) == 5.0
  {
    assert DigitsEnd(run, 0) == 1;
    assert ScanMantissa(run, 0) == Mantissa("5", 0, 1);
  }

  /** A leading blank shifts the unit letter out of reach: the run "5" is
      found at index 1, but the letter is read at index strlen("5") = 1 of
      the argument, which is the '5' itself. */
  lemma UnitLetterAfterBlank(numeric: string)
    requires numeric == " 5m"
    ensures NumericValue(numeric) == NumOk(5.0)
  {
    NextIs(numeric, 0, 1, 2, NumericDelims);
    AtofDigit(numeric[1..2]);
  }

  lemma UnitLetterRightAfterRun(numeric: string)
    requires numeric == "5m"
    ensures NumericValue(numeric) == NumOk(0.005)
  {
    NextIs(numeric, 0, 0, 1, NumericDelims);
    AtofDigit(numeric[0..1]);
  }

  lemma TinyMantissa(run: string)
    requires run == "1e-20"
    ensures ScanMantissa(run, 0) == Mantissa("1", 0, 1)
    ensures Exponent(run, 1) == -20
  {
    assert DigitsEnd(run, 1) == 1;
    assert DigitsEnd(run, 0) == 1;
    assert DigitsEnd(run, 5) == 5;
    assert DigitsEnd(run, 3) == 5;
    assert run[3..5] == "20";
    assert DecimalValue("20") == 20;
  }

  lemma TinyPower(x: real, n: nat)
    requires x == 1.0 && n == 20
    ensures 0.0 < Shift10(x, -(n as int)) < ZeroThreshold
  {
    Shift10Down(x, n);
    var r := Shift10(x, -(n as int));
    assert Pow10Nat(10) == 10000000000;
    assert Pow10Nat(20) == 100000000000000000000;
    assert r * 100000000000000000000.0 == 1.0;
  }

  lemma TinyAtof(run: string)
    requires run == "1e-20"
    ensures Abs(Atof(run)) < ZeroThreshold
  {
    TinyAtofValue(run);
    TinyPower(1.0, 20);
  }

  lemma TinyAtofValue(run: string)
    requires run == "1e-20"
    ensures Atof(run) == Shift10(1.0, -20)
  {
    TinyMantissa(run);
  }

  /** A value too small to tell from atof's zero is taken for garbage. */
  lemma TinyValueIsNotANumber(numeric: string)
    requires numeric == "1e-20"
    ensures NumericValue(numeric) == NumOk(NotANumber)
  {
    NextIs(numeric, 0, 0, 5, NumericDelims);
    assert numeric[0..5] == numeric;
    TinyAtof(numeric);
    assert !ZeroLiteralChar(numeric[0]);
  }

  /** Letters convert to 0 but are not a written zero. */
  lemma LettersAreNotANumber(numeric: string)
    requires numeric == "abc"
    ensures NumericValue(numeric) == NumOk(NotANumber)
  {
    NextIs(numeric, 0, 0, 3, NumericDelims);
    assert numeric[0..3] == numeric;
    GarbageIsNotANumber(numeric);
  }
}
