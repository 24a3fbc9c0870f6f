/** The AD7680 driver: a 16-bit ADC read over SPI as three bytes, behind two
    optional address lines.  The bytes the converter sends are parameters;
    the pin and SPI activity is returned as a trace. */
module Ad7680 {
  import opened ArduinoIo

  /** The initial value of `_SPI_Speed`. */
  const DefaultSpiSpeed: int := 1000000

  /** How many conversions `read_50Hz_reject` averages. */
  const RejectSamples: nat := 200

  /** The three bytes clocked out of the converter by one conversion. */
  datatype Sample = Sample(b1: Byte, b2: Byte, b3: Byte)

  /** The word `read` assembles from a conversion, in the low 20 bits of a
      `long`: the first two bytes above the high nibble of the third. */
  function Word(s: Sample): (w: int)
    ensures 0 <= w < 0x10_0000
    ensures w / 16 == s.b1 as int * 256 + s.b2 as int
    ensures w % 16 == s.b3 as int / 16
  {
    s.b1 as int * 0x1000 + s.b2 as int * 0x10 + s.b3 as int / 0x10
  }

  /** Two conversions that differ only in the low nibble of the third byte
      give the same word. */
  lemma LowNibbleIgnored(s: Sample, b3: Byte)
    requires b3 as int / 16 == s.b3 as int / 16
    ensures Word(s.(b3 := b3)) == Word(s)
  {
  }

  /** Two conversions give the same word only if they agree on the first two
      bytes and on the high nibble of the third. */
  lemma WordDeterminesBytes(s: Sample, t: Sample)
    requires Word(s) == Word(t)
    ensures s.b1 == t.b1 && s.b2 == t.b2 && s.b3 as int / 16 == t.b3 as int / 16
  {
    assert s.b1 as int * 256 + s.b2 as int == t.b1 as int * 256 + t.b2 as int;
  }

  /** One conversion on the bus: chip select low, three dummy bytes out,
      chip select high. */
  function ConversionFrame(csPin: int): seq<IoEvent>
  {
    [DigitalWrite(csPin, Low), SpiTransfer(0x00), SpiTransfer(0x00), SpiTransfer(0x00), DigitalWrite(csPin, High)]
  }

  /** `n` conversions in a row. */
  function Frames(csPin: int, n: nat): (t: seq<IoEvent>)
    ensures |t| == 5 * n
  {
    if n == 0 then [] else Frames(csPin, n - 1) + ConversionFrame(csPin)
  }

  /** The sum of the offset-corrected words of `samples`. */
  function CorrectedSum(samples: seq<Sample>, offset: int): int
  {
    if |samples| == 0 then 0
    else CorrectedSum(samples[..|samples| - 1], offset) + (Word(samples[|samples| - 1]) - offset)
  }

  /** C's integer division for a positive divisor: the quotient is truncated
      toward zero, so the remainder takes the sign of the dividend. */
  function CDiv(a: int, b: int): (q: int)
    requires b > 0
    ensures a >= 0 ==> q >= 0 && q * b <= a < q * b + b
    ensures a < 0 ==> q <= 0 && a <= q * b < a + b
  {
    if a >= 0 then a / b else -((-a) / b)
  }

  /** The assembly of the word, one shift or `|` at a time.  On the
      non-negative `long` a left shift by k multiplies by 2^k, and each `|`
      adds its operand because the bits it sets are zero in the shifted
      word. */
  method AssembleWord(s: Sample) returns (w: int)
    ensures w == Word(s)
  {
    w := s.b1 as int;
    w := w * 0x100;                 // << 8
    w := w + s.b2 as int;           // | data_byte2
    w := w * 0x10;                  // << 4
    w := w + s.b3 as int / 0x10;    // | (data_byte3 >> 4)
  }

  class AD7680 {
    var offset: int      // `_offset`, in bits
    var gain: real       // `_gain`, in volts per bit
    var csPin: int
    var a0Pin: int
    var a1Pin: int
    var addr: bv8
    var spiSpeed: int    // `_SPI_Speed`

    /** A driver object in static storage, which C++ zero-initialises:
        every field zero except the SPI speed, which has its own
        initialiser.  Elsewhere the other fields would be indeterminate. */
    constructor ()
      ensures offset == 0 && gain == 0.0
      ensures csPin == 0 && a0Pin == 0 && a1Pin == 0 && addr == 0
      ensures spiSpeed == DefaultSpiSpeed
    {
      offset := 0;
      gain := 0.0;
      csPin := 0;
      a0Pin := 0;
      a1Pin := 0;
      addr := 0;
      spiSpeed := DefaultSpiSpeed;
    }

    /** `init`: store the pins and the address, raise chip select, and set
        up the connected address lines.  The address pins and the address
        default to 0. */
    method Init(csPin: int, a0Pin: int := 0, a1Pin: int := 0, addr: bv8 := 0) returns (trace: seq<IoEvent>)
      modifies this
      ensures this.csPin == csPin && this.a0Pin == a0Pin && this.a1Pin == a1Pin && this.addr == addr
      ensures offset == old(offset) && gain == old(gain) && spiSpeed == old(spiSpeed)
      ensures trace == [PinModeOutput(csPin), DigitalWrite(csPin, High)] + AddressSetup(a0Pin, a1Pin, addr)
    {
      this.csPin := csPin;
      this.a0Pin := a0Pin;
      this.a1Pin := a1Pin;
      this.addr := addr;
      trace := [PinModeOutput(this.csPin), DigitalWrite(this.csPin, High)];
      if a0Pin > 0 {
        trace := trace + [PinModeOutput(this.a0Pin), DigitalWrite(this.a0Pin, this.addr & 0x01)];
      }
      if a1Pin > 0 {
        trace := trace + [PinModeOutput(this.a1Pin), DigitalWrite(this.a1Pin, this.addr & 0x02)];
      }
    }

    /** `select`: drive the connected address lines to the stored address;
        no field changes. */
    method Select() returns (trace: seq<IoEvent>)
      ensures trace == AddressWrites(a0Pin, a1Pin, addr)
    {
      trace := [];
      if a0Pin > 0 {
        trace := trace + [DigitalWrite(a0Pin, addr & 0x01)];
      }
      if a1Pin > 0 {
        trace := trace + [DigitalWrite(a1Pin, addr & 0x02)];
      }
    }

    /** `read`: one conversion, offset-corrected, then scaled by the gain. */
    method Read(s: Sample) returns (value: real, trace: seq<IoEvent>)
      ensures value == (Word(s) - offset) as real * gain
      ensures trace == [SpiBegin(spiSpeed)] + ConversionFrame(csPin) + [SpiEnd]
    {
      trace := [SpiBegin(spiSpeed), DigitalWrite(csPin, Low)];
      trace := trace + [SpiTransfer(0x00), SpiTransfer(0x00), SpiTransfer(0x00)];
      trace := trace + [DigitalWrite(csPin, High), SpiEnd];
      var dataWord := AssembleWord(s);
      dataWord := dataWord - offset;
      value := dataWord as real * gain;
    }

    /** `read_50Hz_reject`: 200 conversions in one SPI transaction; the
        offset-corrected words are summed, the sum is divided by 200 with
        C's truncating division, and the quotient is scaled by the gain. */
    method ReadReject50Hz(samples: seq<Sample>) returns (value: real, trace: seq<IoEvent>)
      requires |samples| == RejectSamples
      ensures value == CDiv(CorrectedSum(samples, offset), RejectSamples) as real * gain
      ensures trace == [SpiBegin(spiSpeed)] + Frames(csPin, RejectSamples) + [SpiEnd]
    {
      var average := 0;
      trace := [SpiBegin(spiSpeed)];
      var ii := 0;
      while ii < RejectSamples
        invariant 0 <= ii <= RejectSamples
        invariant average == CorrectedSum(samples[..ii], offset)
        invariant trace == [SpiBegin(spiSpeed)] + Frames(csPin, ii)
      {
        trace := trace + ConversionFrame(csPin);
        var dataWord := AssembleWord(samples[ii]);
        dataWord := dataWord - offset;
        average := average + dataWord;
        assert samples[..ii + 1][..ii] == samples[..ii];
        ii := ii + 1;
      }
      trace := trace + [SpiEnd];
      assert samples[..RejectSamples] == samples;
      average := CDiv(average, RejectSamples);
      value := average as real * gain;
    }

    method SetOffset(offset: int)
      modifies this
      ensures this.offset == offset
      ensures gain == old(gain) && csPin == old(csPin) && a0Pin == old(a0Pin) && a1Pin == old(a1Pin)
      ensures addr == old(addr) && spiSpeed == old(spiSpeed)
    {
      this.offset := offset;
    }

    method SetGain(gain: real)
      modifies this
      ensures this.gain == gain
      ensures offset == old(offset) && csPin == old(csPin) && a0Pin == old(a0Pin) && a1Pin == old(a1Pin)
      ensures addr == old(addr) && spiSpeed == old(spiSpeed)
    {
      this.gain := gain;
    }

    method SetSpiSpeed(spiSpeed: int)
      modifies this
      ensures this.spiSpeed == spiSpeed
      ensures offset == old(offset) && gain == old(gain) && csPin == old(csPin) && a0Pin == old(a0Pin)
      ensures a1Pin == old(a1Pin) && addr == old(addr)
    {
      this.spiSpeed := spiSpeed;
    }
  }

  // ---------------------------------------------------------------------
  // The average of read_50Hz_reject

  lemma MulSucc(n: int, x: int)
    ensures (n + 1) * x == n * x + x
  {
  }

  lemma {:induction false} CorrectedSumConstant(samples: seq<Sample>, offset: int, w: int)
    requires forall k :: 0 <= k < |samples| ==> Word(samples[k]) - offset == w
    ensures CorrectedSum(samples, offset) == |samples| * w
  {
    if |samples| > 0 {
      var n := |samples| - 1;
      var init := samples[..n];
      assert forall k :: 0 <= k < |init| ==> init[k] == samples[k];
      CorrectedSumConstant(init, offset, w);
      assert CorrectedSum(samples, offset) == CorrectedSum(init, offset) + w;
      MulSucc(n, w);
    }
  }

  /** 200 equal offset-corrected words average to that word: the truncating
      division is exact here. */
  lemma AverageOfEqualWords(samples: seq<Sample>, offset: int, w: int)
    requires |samples| == RejectSamples
    requires forall k :: 0 <= k < |samples| ==> Word(samples[k]) - offset == w
    ensures CDiv(CorrectedSum(samples, offset), RejectSamples) == w
  {
    CorrectedSumConstant(samples, offset, w);
    var q := CDiv(200 * w, 200);
    if w >= 0 {
      assert q * 200 <= 200 * w < q * 200 + 200;
    } else {
      assert 200 * w <= q * 200 < 200 * w + 200;
    }
  }

  lemma {:induction false} CorrectedSumBounds(samples: seq<Sample>, offset: int, lo: int, hi: int)
    requires forall k :: 0 <= k < |samples| ==> lo <= Word(samples[k]) - offset <= hi
    ensures |samples| * lo <= CorrectedSum(samples, offset) <= |samples| * hi
  {
    if |samples| > 0 {
      var n := |samples| - 1;
      var init := samples[..n];
      assert forall k :: 0 <= k < |init| ==> init[k] == samples[k];
      CorrectedSumBounds(init, offset, lo, hi);
      var x := Word(samples[n]) - offset;
      assert lo <= x <= hi;
      assert CorrectedSum(samples, offset) == CorrectedSum(init, offset) + x;
      MulSucc(n, lo);
      MulSucc(n, hi);
    }
  }

  /** The average lies between the smallest and the largest corrected word,
      whatever their signs. */
  lemma AverageWithinBounds(samples: seq<Sample>, offset: int, lo: int, hi: int)
    requires |samples| == RejectSamples
    requires forall k :: 0 <= k < |samples| ==> lo <= Word(samples[k]) - offset <= hi
    ensures lo <= CDiv(CorrectedSum(samples, offset), RejectSamples) <= hi
  {
    CorrectedSumBounds(samples, offset, lo, hi);
    var sum := CorrectedSum(samples, offset);
    var q := CDiv(sum, 200);
    if sum >= 0 {
      assert q * 200 <= sum < q * 200 + 200;
      assert q * 200 < 200 * hi + 200;
    } else {
      assert sum <= q * 200 < sum + 200;
      assert 200 * lo <= q * 200;
    }
  }
}
