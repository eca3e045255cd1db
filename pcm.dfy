/** The PCM exporter: each sample is scaled by the largest 16-bit value and
    cast to a 16-bit integer, and the WAV header is a fixed constant. The cast
    follows Rust's float-to-integer `as`: the fraction is dropped toward zero
    and out-of-range values saturate at the type's bounds. */
module Pcm {
  import opened Brightness
  import opened Buffers

  const I16Max: int := 32767
  const I16Min: int := -32768

  /** Drops the fractional part, moving toward zero. */
  function TruncateTowardZero(x: real): (n: int)
    ensures 0.0 <= x ==> 0 <= n && n as real <= x < n as real + 1.0
    ensures x < 0.0 ==> n <= 0 && n as real - 1.0 < x <= n as real
  {
    if x >= 0.0 then x.Floor else -((-x).Floor)
  }

  /** A saturating cast to a signed 16-bit integer. */
  function CastToI16(x: real): (q: int)
    ensures I16Min <= q <= I16Max
    ensures x >= I16Max as real ==> q == I16Max
    ensures x <= I16Min as real ==> q == I16Min
    ensures I16Min as real < x < I16Max as real ==> q == TruncateTowardZero(x)
  {
    var t := TruncateTowardZero(x);
    if t > I16Max then I16Max else if t < I16Min then I16Min else t
  }

  /** The 16-bit value written for one sample. A sample in [-1, 1] never
      reaches the most negative 16-bit value. */
  function Quantize(sample: real): (q: int)
    ensures I16Min <= q <= I16Max
    ensures -1.0 <= sample <= 1.0 ==> -I16Max <= q <= I16Max
  {
    CastToI16(sample * I16Max as real)
  }

  /** Silence and both full-scale samples land exactly on 16-bit values. */
  lemma QuantizeFixedPoints()
    ensures Quantize(0.0) == 0
    ensures Quantize(1.0) == I16Max
    ensures Quantize(-1.0) == -I16Max
  {
  }

  lemma TruncateMonotone(x: real, y: real)
    requires x <= y
    ensures TruncateTowardZero(x) <= TruncateTowardZero(y)
  {
    if 0.0 <= x {
      assert x.Floor as real <= y;
    } else if y < 0.0 {
      assert (-y).Floor as real <= -x;
    }
  }

  /** A larger sample never gives a smaller 16-bit value. */
  lemma QuantizeMonotone(s: real, t: real)
    requires s <= t
    ensures Quantize(s) <= Quantize(t)
  {
    TruncateMonotone(s * I16Max as real, t * I16Max as real);
  }

  /** Inside [-1, 1] the quantiser is odd: negating a sample negates its
      16-bit value (truncation toward zero is symmetric; flooring is not). */
  lemma QuantizeOdd(s: real)
    requires -1.0 <= s <= 1.0
    ensures Quantize(-s) == -Quantize(s)
  {
    var x := s * I16Max as real;
    assert -s * I16Max as real == -x;
    if x > 0.0 {
      assert TruncateTowardZero(-x) == -(x.Floor);
    } else if x < 0.0 {
      assert TruncateTowardZero(-x) == (-x).Floor;
    }
  }

  /** Reading a quantised sample back and dividing by the largest 16-bit
      value gives the original sample to within one quantisation step. */
  lemma QuantizeRoundTrip(s: real)
    requires -1.0 <= s <= 1.0
    ensures -1.0 / I16Max as real < Quantize(s) as real / I16Max as real - s < 1.0 / I16Max as real
  {
    var x := s * I16Max as real;
    var q := Quantize(s);
    assert -1.0 < q as real - x < 1.0;
    assert q as real / I16Max as real - s == (q as real - x) / I16Max as real;
  }

  /** The 16-bit values of a whole signal, in signal order. */
  function QuantizeAll(samples: seq<real>): (out: seq<int>)
    ensures |out| == |samples|
    ensures forall i :: 0 <= i < |samples| ==> out[i] == Quantize(samples[i])
  {
    if samples == [] then [] else [Quantize(samples[0])] + QuantizeAll(samples[1..])
  }

  datatype SampleFormat = Float | Int

  /** The header fields of a WAV file. */
  datatype WavSpec = WavSpec(channels: nat, sampleRate: nat, bitsPerSample: nat, sampleFormat: SampleFormat)

  /** The header the exporter always writes. */
  const ExportSpec: WavSpec := WavSpec(1, 88200, 16, Int)

  function Pow2(n: nat): nat {
    if n == 0 then 1 else 2 * Pow2(n - 1)
  }

  /** The exported header describes every buffer the program builds: the same
      channel count and sample rate, and a sample width whose signed range is
      exactly the range the quantiser produces. */
  lemma ExportSpecMatchesBuffer(samples: seq<real>)
    ensures ExportSpec.channels == Build(samples).channels
    ensures ExportSpec.sampleRate == Build(samples).sampleRate
    ensures ExportSpec.sampleFormat == Int
    ensures I16Max == Pow2(ExportSpec.bitsPerSample - 1) - 1
    ensures I16Min + Pow2(ExportSpec.bitsPerSample - 1) == 0
  {
    assert Pow2(15) == 32768;
  }

  /** Writes the buffer out: the fixed header, then one 16-bit value per
      buffer sample, in buffer order. */
  method SaveToFile(buffer: AudioBuffer) returns (spec: WavSpec, written: seq<int>)
    ensures spec == ExportSpec
    ensures written == QuantizeAll(buffer.samples)
  {
    spec := WavSpec(1, 88200, 16, Int);
    written := [];
    var i := 0;
    while i < |buffer.samples|
      invariant 0 <= i <= |buffer.samples|
      invariant |written| == i
      invariant forall k :: 0 <= k < i ==> written[k] == Quantize(buffer.samples[k])
    {
      var sample := buffer.samples[i];
      written := written + [CastToI16(sample * I16Max as real)];
      i := i + 1;
    }
  }

  /** Exporting a signal in [-1, 1] and reading it back reproduces every
      sample to within one quantisation step. */
  lemma ExportRoundTrip(samples: seq<real>)
    requires forall i :: 0 <= i < |samples| ==> -1.0 <= samples[i] <= 1.0
    ensures |QuantizeAll(samples)| == |samples|
    ensures forall i :: 0 <= i < |samples| ==>
      -1.0 / I16Max as real < QuantizeAll(samples)[i] as real / I16Max as real - samples[i] < 1.0 / I16Max as real
  {
    forall i | 0 <= i < |samples|
      ensures -1.0 / I16Max as real < QuantizeAll(samples)[i] as real / I16Max as real - samples[i] < 1.0 / I16Max as real
    {
      QuantizeRoundTrip(samples[i]);
    }
  }

  /** Silence, full positive and full negative scale export as 0, 32767 and
      -32767: clamped, never wrapped. */
  lemma ExportExtremes()
    ensures QuantizeAll([0.0, 1.0, -1.0]) == [0, 32767, -32767]
  {
    QuantizeFixedPoints();
  }

  /** Exporting a transcoded image writes one value per pixel, every one in
      [-32767, 32767]; a black pixel exports as -32767 and a white one as
      32767. */
  lemma ExportImage(pixels: seq<Rgba>)
    ensures |QuantizeAll(Build(Transcode(pixels)).samples)| == |pixels|
    ensures forall i :: 0 <= i < |pixels| ==>
      -I16Max <= QuantizeAll(Build(Transcode(pixels)).samples)[i] <= I16Max
    ensures forall i :: 0 <= i < |pixels| && pixels[i].r == pixels[i].g == pixels[i].b == 0 ==>
      QuantizeAll(Build(Transcode(pixels)).samples)[i] == -I16Max
    ensures forall i :: 0 <= i < |pixels| && pixels[i].r == pixels[i].g == pixels[i].b == 255 ==>
      QuantizeAll(Build(Transcode(pixels)).samples)[i] == I16Max
  {
    QuantizeFixedPoints();
  }
}
