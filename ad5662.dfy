/** The AD5662 driver: a 16-bit DAC written over SPI as a three-byte frame,
    behind the same two optional address lines as the ADC.  The pin and SPI
    activity is returned as a trace. */
module Ad5662 {
  import opened ArduinoIo

  /** The largest DAC word. */
  const FullScale: int := 65535

  /** The clamp of `write`: below 0 becomes 0, above 65535 becomes 65535. */
  function Clamp(x: real): (c: real)
    ensures 0.0 <= c <= FullScale as real
    ensures 0.0 <= x <= FullScale as real ==> c == x
    ensures x < 0.0 ==> c == 0.0
    ensures x > FullScale as real ==> c == FullScale as real
  {
    if x < 0.0 then 0.0 else if x > FullScale as real then FullScale as real else x
  }

  /** The DAC word `write` sends for a set point: scaled by the gain, moved
      by the offset, clamped, then truncated by the cast to `unsigned int`
      (which, on a non-negative value, is the floor). */
  function DacWord(setPoint: real, gain: real, offset: real): (w: int)
    requires gain != 0.0
    ensures 0 <= w <= FullScale
    ensures var x := setPoint / gain + offset; 0.0 <= x <= FullScale as real ==> w as real <= x < w as real + 1.0
  {
    Clamp(setPoint / gain + offset).Floor
  }

  /** The three bytes of a write: the control byte 0x00 (normal operation),
      then the word's high byte, then its low byte. */
  function FrameBytes(w: int): (f: seq<Byte>)
    requires 0 <= w <= FullScale
    ensures |f| == 3 && f[0] == 0
    ensures f[1] as int * 0x100 + f[2] as int == w
  {
    [0x00, (w / 0x100) as Byte, (w % 0x100) as Byte]
  }

  class AD5662 {
    var gain: real       // `_gain`
    var offset: real     // `_offset`
    var csPin: int
    var a0Pin: int
    var a1Pin: int
    var addr: bv8
    var spiSpeed: int    // `_SPI_Speed`

    /** The calibration and the SPI speed come from the class declaration,
        which is not part of this model; they are given here.  The pins and
        the address are zero, as for a driver object in static storage. */
    constructor (gain: real, offset: real, spiSpeed: int)
      ensures this.gain == gain && this.offset == offset && this.spiSpeed == spiSpeed
      ensures csPin == 0 && a0Pin == 0 && a1Pin == 0 && addr == 0
    {
      this.gain := gain;
      this.offset := offset;
      this.spiSpeed := spiSpeed;
      csPin := 0;
      a0Pin := 0;
      a1Pin := 0;
      addr := 0;
    }

    /** `init`: store the pins and the address, raise chip select, and set
        up the connected address lines. */
    method Init(csPin: int, a0Pin: int, a1Pin: int, addr: bv8) returns (trace: seq<IoEvent>)
      modifies this
      ensures this.csPin == csPin && this.a0Pin == a0Pin && this.a1Pin == a1Pin && this.addr == addr
      ensures gain == old(gain) && offset == old(offset) && spiSpeed == old(spiSpeed)
      ensures trace == [PinModeOutput(csPin), DigitalWrite(csPin, High)] + AddressSetup(a0Pin, a1Pin, addr)
    {
      this.csPin := csPin;
      this.a0Pin := a0Pin;
      this.a1Pin := a1Pin;
      this.addr := addr;
      trace := [PinModeOutput(this.csPin), DigitalWrite(this.csPin, High)];
      if a0Pin > 0 {
        trace := trace + [PinModeOutput(this.a0Pin), DigitalWrite(this.a0Pin, this.addr & 0x01)];
      }
      if a1Pin > 0 {
        trace := trace + [PinModeOutput(this.a1Pin), DigitalWrite(this.a1Pin, this.addr & 0x02)];
      }
    }

    /** `select`: drive the connected address lines to the stored address;
        no field changes. */
    method Select() returns (trace: seq<IoEvent>)
      ensures trace == AddressWrites(a0Pin, a1Pin, addr)
    {
      trace := [];
      if a0Pin > 0 {
        trace := trace + [DigitalWrite(a0Pin, addr & 0x01)];
      }
      if a1Pin > 0 {
        trace := trace + [DigitalWrite(a1Pin, addr & 0x02)];
      }
    }

    /** `write`: compute the DAC word of the set point and send it in one
        chip-select frame; the result is always 0. */
    method Write(setPoint: real) returns (r: int, trace: seq<IoEvent>)
      requires gain != 0.0
      ensures r == 0
      ensures var f := FrameBytes(DacWord(setPoint, gain, offset));
        trace == [SpiBegin(spiSpeed), DigitalWrite(csPin, Low), SpiTransfer(f[0]), SpiTransfer(f[1]), SpiTransfer(f[2]),
                  DigitalWrite(csPin, High), SpiEnd]
    {
      var point := setPoint / gain;
      point := point + offset;
      if point < 0.0 {
        point := 0.0;
      } else if point > FullScale as real {
        point := FullScale as real;
      }
      var dacWord := point.Floor;
      trace := [SpiBegin(spiSpeed), DigitalWrite(csPin, Low)];
      trace := trace + [SpiTransfer(0x00)];                       // normal operation
      trace := trace + [SpiTransfer((dacWord / 0x100) as Byte)];  // (byte)(DAC_word >> 8)
      trace := trace + [SpiTransfer((dacWord % 0x100) as Byte)];  // (byte)(DAC_word & 0x00FF)
      trace := trace + [DigitalWrite(csPin, High), SpiEnd];
      r := 0;
    }
  }

  // ---------------------------------------------------------------------
  // Properties of the DAC word and its frame

  /** The frame's two data bytes give back the word, so distinct words make
      distinct frames. */
  lemma FrameDetermined(w: int, v: int)
    requires 0 <= w <= FullScale && 0 <= v <= FullScale
    requires FrameBytes(w) == FrameBytes(v)
    ensures w == v
  {
  }

  /** With a positive gain a larger set point never gives a smaller word. */
  lemma DacWordMonotone(a: real, b: real, gain: real, offset: real)
    requires gain > 0.0 && a <= b
    ensures DacWord(a, gain, offset) <= DacWord(b, gain, offset)
  {
    assert a / gain <= b / gain by {
      assert b / gain - a / gain == (b - a) / gain;
    }
  }

  /** Every word is reached: the set point (w - offset)·gain gives w back. */
  lemma DacWordReachesEveryWord(w: int, gain: real, offset: real)
    requires 0 <= w <= FullScale && gain != 0.0
    ensures DacWord((w as real - offset) * gain, gain, offset) == w
  {
    assert (w as real - offset) * gain / gain == w as real - offset;
  }

  /** A scaled value already in range is only truncated; out of range it is
      held at the nearest end of the scale. */
  lemma DacWordSaturates(setPoint: real, gain: real, offset: real)
    requires gain != 0.0
    ensures setPoint / gain + offset < 0.0 ==> DacWord(setPoint, gain, offset) == 0
    ensures setPoint / gain + offset > FullScale as real ==> DacWord(setPoint, gain, offset) == FullScale
    ensures 0.0 <= setPoint / gain + offset <= FullScale as real ==>
      DacWord(setPoint, gain, offset) == (setPoint / gain + offset).Floor
  {
  }
}
