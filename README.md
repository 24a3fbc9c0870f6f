# LED controller: SCPI command parser and converter drivers, in Dafny

This project models the firmware of a bench LED controller. It covers two parts.

**The SCPI command parser.** `Parse_Command` splits one line with `strtok` and recognises:
- the `*IDN?` query;
- `ECHO ON|OFF`;
- the `:SOURce`, `:MEASure` and `:CHANnel` families, with their sub-keywords.

It fills the caller's `SCPI_Command` one field at a time and returns 0 or 1. `parseNumeric` does three things:
- cuts the number out of a `SOURce` argument;
- tells a written zero from garbage, returning -99999.9 for garbage;
- scales the number by an m/u/n unit letter.

**The two SPI converter drivers.**
- The AD7680 ADC builds a 20-bit word from three received bytes, subtracts an offset and scales it by a gain. It can also average 200 conversions with C's truncating division.
- The AD5662 DAC scales a set point, offsets it, clamps it to 0..65535, truncates it and sends it as a three-byte frame.
- Both drive two optional address lines from the bits of an address.

**Module layout**
- `Strtok` (`strtok.dfy`) models strtok as a cursor over an immutable buffer. Each call returns the token and the position to resume from. This is what lets the parser switch delimiter sets in the middle of a line.
- `CStdlib` (`cstdlib.dfy`) holds `atoi` and `atof` as decimal-prefix parsers over integers and reals.
- `ScpiTypes` (`scpi_types.dfy`) holds the enumerations, constants and record of `Parse_SCPI.h`.
- `ParseScpi` (`parse_scpi.dfy`) holds the specification function `Classify`: the status a line yields and the fields it assigns. It also holds the imperative methods `ParseCommand` and `ParseNumeric`, each proved equal to its specification function.
- `ScpiProperties` (`scpi_properties.dfy`) states the parser's promises over the words of the line: exactly when 1 is returned, which fields each branch assigns, and how `?` queries behave.
- `ScpiExamples` (`scpi_examples.dfy`) works through lines from the comment block in `Parse_Command` and a few other lines, and a few numeric arguments.
- `ArduinoIo` (`arduino_io.dfy`) records pin and SPI activity as a trace of events, and holds the address-line rule both drivers share.
- `Ad7680` (`ad7680.dfy`) and `Ad5662` (`ad5662.dfy`) are the driver classes. The bytes the ADC sends are parameters; the pin and SPI writes come back as a trace.

**Undefined behaviour.** The C code has three kinds. Each is returned as an explicit `Undefined` status, never as a precondition:
- a line of 128 or more characters (see Findings);
- a number argument of 16 or more characters (see Findings);
- a missing word, where strtok's NULL would reach `strcmp`, `atoi`, `atof` or `strlen`.

**Where the model follows the code over a plain reading of the command set**
- Every line that starts with `*` returns 0, whatever its first word is. Only `*IDN?` sets the type.
- `ECHO` followed by any word other than `ON`/`OFF` returns 0 and stores nothing.
- MODE and RANGe match only the all-upper-case and all-lower-case spellings. `Current` gives -1.
- The unit letter is read at index `strlen(run)` of the original argument. So `" 5m"` reads the `5` itself and gives 5, while `"5m"` gives 0.005.

## Model

| member | source | states |
|---|---|---|
| ScpiTypes.CommandType.Ordinal | led-controller/Parse_SCPI.h:2 | CTBLANK is enumerator 0 and no command type shares that value |
| ScpiTypes.CommandSubType.Ordinal | led-controller/Parse_SCPI.h:3 | CSTBLANK is enumerator 0 and no sub-type shares that value |
| ScpiTypes.ReadWrite.Ordinal | led-controller/Parse_SCPI.h:4 | RWBLANK is enumerator 0, distinct from WRITE and READ |
| Strtok.RunEnd | led-controller/Parse_SCPI.cpp:42 | the end of a token is the first delimiter at or after its start, or the end of the buffer |
| Strtok.Next | led-controller/Parse_SCPI.cpp:53-62 | one strtok call stays inside the buffer and resumes where the previous one stopped |
| Strtok.NextMeaning | led-controller/Parse_SCPI.cpp:42-46 | strtok returns NULL exactly when only delimiters remain; otherwise it returns the maximal non-delimiter run after the skipped delimiters, and the next call resumes one past its terminator |
| Strtok.NextIs | led-controller/Parse_SCPI.cpp:42-46 | converse of NextMeaning: delimiters, a run, then a delimiter or the end determine the token |
| Strtok.NextShift | led-controller/Parse_SCPI.cpp:50-53 | tokenising a suffix of the buffer finds the same tokens, with positions shifted |
| CStdlib.DecimalValue | led-controller/Parse_SCPI.cpp:80 | a digit string's value is below 10^length, and is 0 exactly when every digit is 0 |
| CStdlib.Atoi | led-controller/Parse_SCPI.cpp:90-91 | atoi of a string with no digit is 0 (the "atoi returns zero on error" the code relies on) |
| CStdlib.AtoiFormat | led-controller/Parse_SCPI.cpp:91 | atoi reads back every integer written in decimal, for all integers |
| CStdlib.ScanMantissa | led-controller/Parse_SCPI.cpp:143 | the mantissa scan stays in the string, keeps only digits, and keeps no non-zero digit when the literal has none |
| CStdlib.Atof | led-controller/Parse_SCPI.cpp:143-144 | atof of a string with no digit other than 0 is 0, so garbage and zero both convert to 0 |
| CStdlib.AtofFormat | led-controller/Parse_SCPI.cpp:143 | atof agrees with atoi on every integer numeral |
| CStdlib.Shift10Down | led-controller/Parse_SCPI.cpp:143 | a negative exponent -n divides the mantissa by 10^n |
| ParseScpi.CopyGuardAsWrittenOverflows | led-controller/Parse_SCPI.cpp:39 | the written guard `strlen <= size` (also at line 140) admits a string whose copy overflows the buffer by its NUL |
| ParseScpi.RecopyFits | led-controller/Parse_SCPI.cpp:52 | the second copy, from the line's second character, is one character shorter, so the written guard is enough for it |
| ParseScpi.CopyGuardExact | led-controller/Parse_SCPI.cpp:39 | the corrected guard `strlen < size` holds exactly when the copy fits, and implies the written guard |
| ParseScpi.Status.ReturnCode | led-controller/Parse_SCPI.cpp:129-133 | the returned int is 0 exactly on success and 1 on every failure |
| ParseScpi.ModeValue | led-controller/Parse_SCPI.cpp:114-116 | MODE stores 1 exactly for CURRENT/current, 0 exactly for LIGHT/light, and -1 for every other spelling |
| ParseScpi.RangeValue | led-controller/Parse_SCPI.cpp:125-127 | RANGe stores 1 exactly for HIGH/high, 0 exactly for LOW/low, and -1 otherwise |
| ParseScpi.ApplyUnit | led-controller/Parse_SCPI.cpp:151-155 | m, u and n divide the value by 10^3, 10^6 and 10^9; any other letter leaves it unchanged |
| ParseScpi.NumericDefinedWhen | led-controller/Parse_SCPI.cpp:140-143 | parseNumeric is undefined exactly when the argument overflows its buffer or holds only delimiters |
| ParseScpi.GenuineZero | led-controller/Parse_SCPI.cpp:144-148 | a run made only of zero-literal characters gives 0, whatever unit letter follows |
| ParseScpi.TinyNonZeroIsSentinel | led-controller/Parse_SCPI.cpp:144-147 | a run whose `atof` value is below 1e-12 in magnitude and that is not a written zero gives the -99999.9 sentinel |
| ParseScpi.GarbageIsNotANumber | led-controller/Parse_SCPI.cpp:144-147 | a digit-free run that is not a written zero gives the -99999.9 sentinel |
| ParseScpi.NotANumberMeaning | led-controller/Parse_SCPI.cpp:144-157 | the sentinel comes out only for a near-zero value that is not a written zero, or for a literal whose scaled value is the sentinel itself |
| ParseScpi.ScanZeroLiteral | led-controller/Parse_SCPI.cpp:145-147 | the zero re-scan accepts exactly the runs made only of `0 . + - e` |
| ParseScpi.NumericValue | led-controller/Parse_SCPI.cpp:136-158 | what `parseNumeric` computes: undefined for a 16+ character argument or one holding only delimiters, the sentinel -99999.9 for a run that reads as below 1e-12 but is not a written zero, else `atof` of the run scaled by the letter at index `strlen(run)`; its promises are stated by NumericDefinedWhen, GenuineZero, TinyNonZeroIsSentinel, GarbageIsNotANumber and NotANumberMeaning |
| ParseScpi.ParseNumeric | led-controller/Parse_SCPI.cpp:136-158 | parseNumeric's copy, cut, conversion, zero check and unit scaling return NumericValue of the argument |
| ParseScpi.ClassifyEcho | led-controller/Parse_SCPI.cpp:44-48 | an ECHO line is never refused, sets the type ECHO, and never assigns the sub-type or the direction |
| ParseScpi.ClassifySource | led-controller/Parse_SCPI.cpp:56-69 | SOURce sets the type, assigns only VOLTAGE or CURRENT as sub-type, never the direction, and fails only on an unknown sub-keyword |
| ParseScpi.ClassifyMeasure | led-controller/Parse_SCPI.cpp:70-81 | MEASure sets the type, assigns only VOLTAGE, CURRENT or ALL, and assigns data only for ALL |
| ParseScpi.ClassifyChannel | led-controller/Parse_SCPI.cpp:82-129 | CHANnel fails only on an unknown sub-keyword or a bad ENABle value; LOCAl assigns no direction and no data; only the four settings assign a direction; MODE and RANGe never fail |
| ParseScpi.ClassifySetting | led-controller/Parse_SCPI.cpp:85-128 | a CHANnel setting assigns its own sub-type, and fails only for ENABle with a bad value |
| ParseScpi.SettingShift | led-controller/Parse_SCPI.cpp:85-128 | a setting reads the same value from a re-copied suffix of the buffer |
| ParseScpi.SourceShift | led-controller/Parse_SCPI.cpp:56-69 | the SOURce branch classifies a suffix of the buffer the same way |
| ParseScpi.MeasureShift | led-controller/Parse_SCPI.cpp:70-81 | the MEASure branch classifies a suffix of the buffer the same way |
| ParseScpi.ChannelShift | led-controller/Parse_SCPI.cpp:82-129 | the CHANnel branch classifies a suffix of the buffer the same way |
| ParseScpi.ClassifyFamily | led-controller/Parse_SCPI.cpp:50-130 | the ':' dispatch: the first word after the ':' selects SOURce, MEASure or CHANnel, any other word (ECHO included) gives status 1, and a missing word is undefined; ScpiProperties.ClassifyByWords, UnknownFamilyExactly and the *Data lemmas state its promises |
| ParseScpi.FamilyShift | led-controller/Parse_SCPI.cpp:53-130 | family dispatch classifies a suffix of the buffer the same way |
| ParseScpi.ColonRecopy | led-controller/Parse_SCPI.cpp:50-53 | re-copying a ':' line without its ':' gives the same classification as the original line |
| ParseScpi.Classify | led-controller/Parse_SCPI.cpp:10-134 | what `Parse_Command` computes for a line: the returned status (0, 1, or undefined for a 128+ character line or a missing word) and the fields it assigns; the ScpiProperties lemmas (the four *Exactly, StarLine, EchoLine, the frame lemmas and the *Data lemmas) state its promises |
| ParseScpi.ParseCommand | led-controller/Parse_SCPI.cpp:10-134 | Parse_Command returns Classify's status and assigns exactly Classify's fields; every other field keeps its value |
| ParseScpi.ParseSource | led-controller/Parse_SCPI.cpp:56-69 | the SOURce branch's status and field writes are those of ClassifySource |
| ParseScpi.ParseMeasure | led-controller/Parse_SCPI.cpp:70-81 | the MEASure branch's status and field writes are those of ClassifyMeasure |
| ParseScpi.ParseChannel | led-controller/Parse_SCPI.cpp:82-129 | the CHANnel branch's status and field writes are those of ClassifyChannel |
| ParseScpi.ParseSelect | led-controller/Parse_SCPI.cpp:85-93 | SELEct's status and field writes are those of ClassifySetting(Select) |
| ParseScpi.ParseEnable | led-controller/Parse_SCPI.cpp:97-106 | ENABle's status and field writes are those of ClassifySetting(Enable), including WRITE being set before a bad value is refused |
| ParseScpi.ParseMode | led-controller/Parse_SCPI.cpp:107-117 | MODE's status and field writes are those of ClassifySetting(Mode) |
| ParseScpi.ParseRange | led-controller/Parse_SCPI.cpp:118-128 | RANGe's status and field writes are those of ClassifySetting(Range) |
| ScpiProperties.ClassifyByWords | led-controller/Parse_SCPI.cpp:50-82 | after ':', the family word routes to the SOURce, MEASure or CHANnel branch |
| ScpiProperties.UnknownPrefixExactly | led-controller/Parse_SCPI.cpp:131 | returns 1 with the unknown-prefix reason exactly when the line starts with neither '*' nor ':' and its first word is not ECHO |
| ScpiProperties.UnknownFamilyExactly | led-controller/Parse_SCPI.cpp:130 | returns 1 with the unknown-family reason exactly when ':' is followed by a word that is neither ECHO nor a family keyword |
| ScpiProperties.UnknownSubKeywordExactly | led-controller/Parse_SCPI.cpp:56-129 | returns 1 with the unknown-sub-keyword reason exactly when a family keyword is followed by a word outside that family's sub-keywords |
| ScpiProperties.BadEnableValueExactly | led-controller/Parse_SCPI.cpp:97-105 | returns 1 with the bad-ENABle reason exactly when the ENABle argument is not "?", "ON" or "OFF" |
| ScpiProperties.StarLine | led-controller/Parse_SCPI.cpp:41-43 | every '*' line returns 0; the type becomes IDN exactly when the first word is "*IDN?"; nothing else is assigned |
| ScpiProperties.EchoLine | led-controller/Parse_SCPI.cpp:44-48 | ECHO (with or without ':') returns 0; ON stores 1, OFF stores 0, and any other word stores nothing |
| ScpiProperties.IdnEchoFrame | led-controller/Parse_SCPI.cpp:43-48 | IDN and ECHO never assign the sub-type or the direction |
| ScpiProperties.QueryOnlyFrame | led-controller/Parse_SCPI.cpp:73-96 | LOCAl and MEASure VOLTage/CURRent leave the direction and the data untouched |
| ScpiProperties.DirectionOnlyForSettings | led-controller/Parse_SCPI.cpp:85-128 | only the CHANnel settings SELEct, ENABle, MODE and RANGe assign the direction |
| ScpiProperties.SettingDirection | led-controller/Parse_SCPI.cpp:85-128 | an argument of exactly "?" is a query that stores nothing; any other argument is a write |
| ScpiProperties.ModeRangeNeverFail | led-controller/Parse_SCPI.cpp:107-128 | a MODE or RANGe command is never refused |
| ScpiProperties.SourceData | led-controller/Parse_SCPI.cpp:56-68 | SOURce VOLTage/CURRent sets the type and sub-type and stores `parseNumeric` of the rest of the line; when that is undefined, so is the command |
| ScpiProperties.MeasureAllData | led-controller/Parse_SCPI.cpp:77-80 | MEASure ALL succeeds and stores `atoi` of the rest of the line |
| ScpiProperties.SelectData | led-controller/Parse_SCPI.cpp:85-93 | CHANnel SELEct with an argument other than "?" is a write of `atoi` of it |
| ScpiProperties.EnableData | led-controller/Parse_SCPI.cpp:97-104 | CHANnel ENABle ON is a write of 1 and ENABle OFF a write of 0 |
| ScpiProperties.ModeData | led-controller/Parse_SCPI.cpp:107-117 | CHANnel MODE with an argument other than "?" is a write of its mode value |
| ScpiProperties.RangeData | led-controller/Parse_SCPI.cpp:118-128 | CHANnel RANGe with an argument other than "?" is a write of its range value |
| ScpiExamples.IdnQuery | led-controller/Parse_SCPI.cpp:15 | "*IDN?" is an identification query and nothing else is assigned |
| ScpiExamples.IdnOnBlankCommand | led-controller/Parse_SCPI.cpp:41-43 | "*IDN?" parsed into a zeroed command sets the type to IDN and leaves the sub-type, direction and data at 0 |
| ScpiExamples.ColonEchoOn | led-controller/Parse_SCPI.cpp:44-47 | ":ECHO ON" is an ECHO command storing 1 |
| ScpiExamples.MixedCaseModeIsInvalid | led-controller/Parse_SCPI.cpp:107-116 | ":CHAN:MODE Current" writes -1 |
| ScpiExamples.MilliUnit | led-controller/Parse_SCPI.cpp:153 | "12.34mV" gives 0.01234 |
| ScpiExamples.UnitLetterAfterBlank | led-controller/Parse_SCPI.cpp:152 | the unit letter is read at index `strlen(run)` of the whole argument, so with a blank before the number " 5m" reads the `5` and gives 5 |
| ScpiExamples.UnitLetterRightAfterRun | led-controller/Parse_SCPI.cpp:152-153 | "5m" gives 0.005 |
| ScpiExamples.TinyValueIsNotANumber | led-controller/Parse_SCPI.cpp:144-146 | "1e-20" gives the sentinel, because its value is below 1e-12 and it contains a non-zero digit |
| ScpiExamples.LettersAreNotANumber | led-controller/Parse_SCPI.cpp:144-146 | "abc" gives the sentinel |
| ArduinoIo.A0Level | led-controller/AD7680.cpp:23 | A0 is driven with 0 or 1, from bit 0 of the address only |
| ArduinoIo.A1Level | led-controller/AD7680.cpp:32 | A1 is driven with 0 or 2, and the two levels together rebuild the two low address bits |
| ArduinoIo.AddressWrites | led-controller/AD7680.cpp:43-58 | the address-line writes of `select`: A0 driven with bit 0 if its pin is positive, then A1 with bit 1 if its pin is positive; AddressRule and SelectRepeatsInit state its promises |
| ArduinoIo.AddressSetup | led-controller/AD7680.cpp:20-37 | the address-line set-up of `init`: each connected line made an output and driven like in `select`; SelectRepeatsInit and DefaultPinsDriveNothing state its promises |
| ArduinoIo.Writes | led-controller/AD7680.cpp:14-37 | the pin writes of a trace are no longer than the trace and hold exactly its digitalWrite events |
| ArduinoIo.WritesAppend | led-controller/AD7680.cpp:14-37 | the pin writes of a concatenation are the concatenation of the pin writes |
| ArduinoIo.SelectRepeatsInit | led-controller/AD7680.cpp:20-58 | select writes exactly the levels init wrote to the address lines |
| ArduinoIo.AddressRule | led-controller/AD7680.cpp:43-58 | each address line is driven only if its pin is positive: A0 with bit 0 and A1 with bit 1; nothing else is driven |
| ArduinoIo.DefaultPinsDriveNothing | led-controller/AD7680.h:13 | with the default pins 0, init and select drive no address line |
| Ad7680.Word | led-controller/AD7680.cpp:83-87 | the word lies in [0, 2^20); its high 16 bits are the first two bytes and its low nibble is the high nibble of the third byte |
| Ad7680.LowNibbleIgnored | led-controller/AD7680.cpp:87 | the low nibble of the third byte never affects the word |
| Ad7680.WordDeterminesBytes | led-controller/AD7680.cpp:83-87 | equal words come from equal first and second bytes and equal high nibbles of the third |
| Ad7680.AssembleWord | led-controller/AD7680.cpp:83-87 | the shift and or steps build Word |
| Ad7680.CDiv | led-controller/AD7680.cpp:135 | C's division truncates toward zero: the quotient has the dividend's sign and its product with the divisor is less than one divisor away from the dividend |
| Ad7680.CorrectedSum | led-controller/AD7680.cpp:124-125 | the sum `read_50Hz_reject` accumulates: every conversion's word less the offset; ReadReject50Hz is proved to compute it, and CorrectedSumConstant and CorrectedSumBounds state its promises |
| Ad7680.Frames | led-controller/AD7680.cpp:110-128 | n conversions put 5n events on the bus |
| Ad7680.AD7680.constructor | led-controller/AD7680.h:4-10 | for a driver in static storage, every field starts at 0 except the SPI speed, which starts at 1000000 |
| Ad7680.AD7680.Init | led-controller/AD7680.cpp:7-39 | stores the pins and the address, keeps offset, gain and speed, raises chip select, then sets up the address lines |
| Ad7680.AD7680.Select | led-controller/AD7680.cpp:41-59 | re-applies the address rule and changes no field |
| Ad7680.AD7680.Read | led-controller/AD7680.cpp:61-94 | one conversion frame in one SPI transaction; the result is (Word − offset) × gain |
| Ad7680.AD7680.ReadReject50Hz | led-controller/AD7680.cpp:96-139 | 200 frames in one transaction; the result is the truncated average of the 200 offset-corrected words, times the gain |
| Ad7680.AD7680.SetOffset | led-controller/AD7680.h:17 | assigns the offset and nothing else |
| Ad7680.AD7680.SetGain | led-controller/AD7680.h:18 | assigns the gain and nothing else |
| Ad7680.AD7680.SetSpiSpeed | led-controller/AD7680.h:19 | assigns the SPI speed and nothing else |
| Ad7680.CorrectedSumConstant | led-controller/AD7680.cpp:124-125 | n equal corrected words sum to n times that word |
| Ad7680.AverageOfEqualWords | led-controller/AD7680.cpp:110-135 | if all 200 corrected words equal w, the pre-gain result is w |
| Ad7680.CorrectedSumBounds | led-controller/AD7680.cpp:124-125 | a sum of n corrected words in [lo, hi] lies in [n·lo, n·hi] |
| Ad7680.AverageWithinBounds | led-controller/AD7680.cpp:110-135 | the pre-gain average lies between the smallest and the largest corrected word, for either sign |
| Ad5662.Clamp | led-controller/AD5662.cpp:66-67 | the clamp lands in [0, 65535], passes in-range values through unchanged, and pins out-of-range values to the nearest end |
| Ad5662.DacWord | led-controller/AD5662.cpp:63-68 | the DAC word always lies in [0, 65535]; for an in-range scaled value it is that value truncated |
| Ad5662.FrameBytes | led-controller/AD5662.cpp:74-76 | the frame is three bytes: 0x00, then a high byte and a low byte with high·256 + low equal to the word |
| Ad5662.AD5662.constructor | led-controller/AD5662.cpp:63-72 | the gain, offset and SPI speed that `write` reads are the given values; for a driver in static storage the pins and the address start at 0 |
| Ad5662.AD5662.Init | led-controller/AD5662.cpp:7-39 | stores the pins and the address, keeps the calibration, raises chip select, then sets up the address lines |
| Ad5662.AD5662.Select | led-controller/AD5662.cpp:41-59 | re-applies the address rule and changes no field |
| Ad5662.AD5662.Write | led-controller/AD5662.cpp:61-86 | one chip-select frame carrying FrameBytes(DacWord(set point)), in one SPI transaction; always returns 0 |
| Ad5662.FrameDetermined | led-controller/AD5662.cpp:74-76 | distinct words give distinct frames |
| Ad5662.DacWordMonotone | led-controller/AD5662.cpp:63-68 | with a positive gain, a larger set point never gives a smaller word |
| Ad5662.DacWordReachesEveryWord | led-controller/AD5662.cpp:63-68 | every word in [0, 65535] is produced by the set point (w − offset)·gain |
| Ad5662.DacWordSaturates | led-controller/AD5662.cpp:66-68 | below range gives 0, above range gives 65535, and in range gives the floor of the scaled value |

## Left out

- Hardware I/O.
  - `pinMode`, `digitalWrite` and the SPI calls are recorded as trace events, not performed.
  - The bytes the ADC returns are parameters.
  - `delayMicroseconds(39)` and all other timing are not modelled.
  - The empty `ST_DISCOVERY` branches are not modelled.
- IEEE-754 `float`.
  - `data`, the gains, the unit scaling and `atof` use exact reals, with no rounding.
  - `atof` does not accept hexadecimal floats, INF or NAN.
  - `abs` is taken on the float value.
- Integer widths.
  - `atoi`'s 16-bit `int` overflow is not modelled.
  - The 32-bit `long` of the ADC word and its sum is not modelled: it cannot overflow unless the offset is far outside the 20-bit range.
  - `Ad7680.AssembleWord` performs `<<` as a multiplication and `|` as an addition, on integers. Both are exact because the word is non-negative and the bits being set are zero.
- `Ad5662.AD5662.Write`: requires a non-zero gain. Division by a zero gain gives an IEEE infinity or NaN, which is not modelled.
- `Ad5662.DacWord`: requires a non-zero gain, for the same reason.
- `Ad7680.AD7680.constructor`: assumes a driver object with static storage, which C++ zero-initialises. In an automatic or heap object the offset, gain, pins and address are indeterminate until `init` and the setters run; that is not modelled.
- `Ad5662.AD5662.constructor`: the AD5662 class declaration is not part of this model, so its initial gain, offset and SPI speed are parameters. Its setters are not modelled. Its pins and address start at 0, which assumes static storage as for `Ad7680.AD7680.constructor`; otherwise they are indeterminate until `init`.
- The undefined behaviour is turned into an `Undefined` status instead of being imitated:
  - a copy that overflows its buffer;
  - a skipped copy that leaves stale buffer contents;
  - strtok's NULL reaching `strcmp`, `atoi`, `atof` or `strlen`.
- `ParseScpi.ParseSelect`, `ParseScpi.ParseEnable`, `ParseScpi.ParseMode` and `ParseScpi.ParseRange` require that the type was already set to CHANNEL. That is the only way `Parse_Command` reaches them.
- `led-controller/LED_Controller_Standalone.h` is not part of this model. It holds pin numbers, calibration constants and declarations without bodies.

## Findings

| source | as written | input that shows it | evidently intended | confidence | as-written member | corrected member |
|---|---|---|---|---|---|---|
| led-controller/Parse_SCPI.cpp:39 | `if(strlen(s) <= 128) strcpy(buf128, s)`, and `<= 16` for the 16-byte numeric buffer | a 128-character command line (and `<= 16` at line 140 for a 16-character numeric argument): the copy writes its NUL one byte past the buffer | `strlen(s) < size`, so the copy and its NUL fit | not executed | ParseScpi.CopyGuardAsWrittenOverflows | ParseScpi.CopyGuardExact |
