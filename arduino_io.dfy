/** The pin and SPI activity of the two converter drivers, recorded as a
    trace of events instead of being performed, and the address-line rule
    that `init` and `select` of both drivers share.

    A converter sits behind two address lines A0 and A1.  `init` configures
    each line whose pin number is positive as an output and drives it with
    its bit of the address; `select` drives the same levels again. */
module ArduinoIo {

  /** `HIGH` and `LOW` of `digitalWrite`. */
  const High: bv8 := 1
  const Low: bv8 := 0

  /** A `byte` sent or received over SPI, as a number. */
  newtype Byte = x: int | 0 <= x < 0x100

  datatype IoEvent =
    | PinModeOutput(pin: int)              // pinMode(pin, OUTPUT)
    | DigitalWrite(pin: int, level: bv8)   // digitalWrite(pin, level)
    | SpiBegin(speed: int)                 // SPI.beginTransaction(SPISettings(speed, MSBFIRST, SPI_MODE2))
    | SpiTransfer(sent: Byte)              // SPI.transfer(sent)
    | SpiEnd                               // SPI.endTransaction()

  /** The level `(byte)Addr & 0x01` written to A0. */
  function A0Level(addr: bv8): (v: bv8)
    ensures v == 0 || v == 1
    ensures v == A0Level(addr & 0x01)
  {
    addr & 0x01
  }

  /** The level `(byte)Addr & 0x02` written to A1: 0 or 2, which
      `digitalWrite` takes as HIGH when it is not 0. */
  function A1Level(addr: bv8): (v: bv8)
    ensures v == 0 || v == 2
    ensures v | A0Level(addr) == addr & 0x03
  {
    addr & 0x02
  }

  /** What `select` does: drive each connected address line to its bit. */
  function AddressWrites(a0Pin: int, a1Pin: int, addr: bv8): seq<IoEvent>
  {
    (if a0Pin > 0 then [DigitalWrite(a0Pin, A0Level(addr))] else [])
    + (if a1Pin > 0 then [DigitalWrite(a1Pin, A1Level(addr))] else [])
  }

  /** What `init` does to the address lines: make each connected one an
      output, then drive it to its bit. */
  function AddressSetup(a0Pin: int, a1Pin: int, addr: bv8): seq<IoEvent>
  {
    (if a0Pin > 0 then [PinModeOutput(a0Pin), DigitalWrite(a0Pin, A0Level(addr))] else [])
    + (if a1Pin > 0 then [PinModeOutput(a1Pin), DigitalWrite(a1Pin, A1Level(addr))] else [])
  }

  /** The pin writes of a trace, in order. */
  function Writes(t: seq<IoEvent>): (w: seq<IoEvent>)
    ensures |w| <= |t|
    ensures forall k :: 0 <= k < |w| ==> w[k].DigitalWrite?
    ensures forall e :: e in w <==> e in t && e.DigitalWrite?
  {
    if |t| == 0 then []
    else (if t[0].DigitalWrite? then [t[0]] else []) + Writes(t[1..])
  }

  lemma {:induction false} WritesAppend(s: seq<IoEvent>, t: seq<IoEvent>)
    ensures Writes(s + t) == Writes(s) + Writes(t)
    decreases |s|
  {
    if |s| == 0 {
      assert s + t == t;
    } else {
      assert (s + t)[1..] == s[1..] + t;
      WritesAppend(s[1..], t);
    }
  }

  /** `select` writes exactly the levels `init` wrote to the address lines. */
  lemma SelectRepeatsInit(a0Pin: int, a1Pin: int, addr: bv8)
    ensures Writes(AddressSetup(a0Pin, a1Pin, addr)) == AddressWrites(a0Pin, a1Pin, addr)
  {
    var s0: seq<IoEvent> := if a0Pin > 0 then [PinModeOutput(a0Pin), DigitalWrite(a0Pin, A0Level(addr))] else [];
    var s1: seq<IoEvent> := if a1Pin > 0 then [PinModeOutput(a1Pin), DigitalWrite(a1Pin, A1Level(addr))] else [];
    WritesAppend(s0, s1);
    if a0Pin > 0 {
      assert s0[1..][1..] == [];
    }
    if a1Pin > 0 {
      assert s1[1..][1..] == [];
    }
  }

  /** Each address line is driven only if its pin number is positive, A0
      always with bit 0 of the address and A1 with bit 1; nothing else is
      driven. */
  lemma AddressRule(a0Pin: int, a1Pin: int, addr: bv8)
    ensures var w := AddressWrites(a0Pin, a1Pin, addr);
      && |w| == (if a0Pin > 0 then 1 else 0) + (if a1Pin > 0 then 1 else 0)
      && (forall e :: e in w ==> e.DigitalWrite? && e.pin > 0 && (e.pin == a0Pin || e.pin == a1Pin))
      && (a0Pin > 0 ==> w[0] == DigitalWrite(a0Pin, A0Level(addr)))
      && (a1Pin > 0 ==> w[|w| - 1] == DigitalWrite(a1Pin, A1Level(addr)))
  {
  }

  /** With the default pins 0, `init` and `select` drive no address line. */
  lemma DefaultPinsDriveNothing(addr: bv8)
    ensures AddressSetup(0, 0, addr) == [] && AddressWrites(0, 0, addr) == []
  {
  }
}
