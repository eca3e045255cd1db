/** The brightness transcoder: every RGBA pixel of the decoded image becomes
    one bipolar audio sample, in the image's row-major order. Colour values
    are exact reals here; the single-precision arithmetic of the program is
    not modelled. */
module Brightness {

  /** One 8-bit colour channel. */
  type Byte = x: int | 0 <= x < 256

  /** A decoded pixel: red, green, blue and alpha channels, in that order. */
  datatype Rgba = Rgba(r: Byte, g: Byte, b: Byte, a: Byte)

  /** A decoded image: `pixels` holds the rows one after another. */
  datatype Image = Image(width: nat, height: nat, pixels: seq<Rgba>)

  ghost predicate WellFormed(img: Image) {
    |img.pixels| == img.width * img.height
  }

  /** The sample a pixel maps to: the mean of its colour channels scaled to
      [0, 1], then stretched to [-1, 1]. Alpha takes no part. */
  function PixelSample(p: Rgba): (s: real)
    ensures s == 2.0 * (p.r + p.g + p.b) as real / 765.0 - 1.0
    ensures -1.0 <= s <= 1.0
  {
    ((p.r as real + p.g as real + p.b as real) / 3.0 / 255.0) * 2.0 - 1.0
  }

  /** The signal of a pixel sequence: one sample per pixel, in pixel order. */
  function Transcode(pixels: seq<Rgba>): (samples: seq<real>)
    ensures |samples| == |pixels|
    ensures forall i :: 0 <= i < |pixels| ==> samples[i] == PixelSample(pixels[i])
    ensures forall i :: 0 <= i < |samples| ==> -1.0 <= samples[i] <= 1.0
  {
    if pixels == [] then [] else [PixelSample(pixels[0])] + Transcode(pixels[1..])
  }

  /** Builds the signal by pushing one sample per pixel onto a growing
      vector, as the program does. */
  method CalculateBrightness(data: seq<Rgba>) returns (brightness: seq<real>)
    ensures brightness == Transcode(data)
  {
    brightness := [];
    for i := 0 to |data|
      invariant |brightness| == i
      invariant forall k :: 0 <= k < i ==> brightness[k] == PixelSample(data[k])
    {
      var r, g, b := data[i].r as real, data[i].g as real, data[i].b as real;
      brightness := brightness + [((r + g + b) / 3.0 / 255.0) * 2.0 - 1.0];
    }
  }

  /** Black is the most negative sample and white the most positive, whatever
      the alpha channel holds. */
  lemma BlackAndWhite(alpha: Byte)
    ensures PixelSample(Rgba(0, 0, 0, alpha)) == -1.0
    ensures PixelSample(Rgba(255, 255, 255, alpha)) == 1.0
  {
  }

  /** The alpha channel never changes a sample. */
  lemma AlphaIgnored(p: Rgba, alpha: Byte)
    ensures PixelSample(p.(a := alpha)) == PixelSample(p)
  {
  }

  /** A pixel that is at least as bright in every colour channel gives a
      sample at least as large; pixels with the same channel sum give the
      same sample. */
  lemma PixelSampleMonotone(p: Rgba, q: Rgba)
    ensures p.r <= q.r && p.g <= q.g && p.b <= q.b ==> PixelSample(p) <= PixelSample(q)
    ensures p.r + p.g + p.b == q.r + q.g + q.b ==> PixelSample(p) == PixelSample(q)
  {
  }

  /** Transcoding a concatenation transcodes each part in place: samples
      come out in the order their pixels went in. */
  lemma {:induction false} TranscodeAppend(a: seq<Rgba>, b: seq<Rgba>)
    ensures Transcode(a + b) == Transcode(a) + Transcode(b)
  {
    var lhs, rhs := Transcode(a + b), Transcode(a) + Transcode(b);
    assert |lhs| == |rhs|;
    forall i | 0 <= i < |lhs| ensures lhs[i] == rhs[i] {
      if i < |a| {
        assert (a + b)[i] == a[i];
      } else {
        assert (a + b)[i] == b[i - |a|];
      }
    }
  }

  /** Any slice of the signal is the signal of the same slice of pixels. */
  lemma {:induction false} TranscodeSlice(pixels: seq<Rgba>, lo: nat, hi: nat)
    requires lo <= hi <= |pixels|
    ensures Transcode(pixels)[lo..hi] == Transcode(pixels[lo..hi])
  {
    var lhs, rhs := Transcode(pixels)[lo..hi], Transcode(pixels[lo..hi]);
    assert |lhs| == |rhs|;
    forall i | 0 <= i < |lhs| ensures lhs[i] == rhs[i] {
      assert pixels[lo..hi][i] == pixels[lo + i];
    }
  }

  lemma RowBounds(width: nat, height: nat, y: nat)
    requires y < height
    ensures (y + 1) * width <= width * height
  {
    assert (y + 1) * width <= height * width by {
      if width > 0 {
        assert y + 1 <= height;
      }
    }
  }

  /** Row `y` of the image. */
  function Row(img: Image, y: nat): (row: seq<Rgba>)
    requires WellFormed(img) && y < img.height
    ensures |row| == img.width
  {
    RowBounds(img.width, img.height, y);
    img.pixels[y * img.width..(y + 1) * img.width]
  }

  /** Row-major order: row `y` of the image occupies samples
      `y * width` up to `(y + 1) * width` of the signal, left to right. */
  lemma RowIsContiguous(img: Image, y: nat)
    requires WellFormed(img) && y < img.height
    ensures (y + 1) * img.width <= |Transcode(img.pixels)|
    ensures Transcode(img.pixels)[y * img.width..(y + 1) * img.width] == Transcode(Row(img, y))
  {
    RowBounds(img.width, img.height, y);
    TranscodeSlice(img.pixels, y * img.width, (y + 1) * img.width);
  }

  /** The signal of a well-formed image has exactly `width * height` samples. */
  lemma ImageSignalLength(img: Image)
    requires WellFormed(img)
    ensures |Transcode(img.pixels)| == img.width * img.height
  {
  }
}
