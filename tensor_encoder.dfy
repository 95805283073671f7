/**
 * The tensor encoder of the classifier component: a 32x32 RGBA pixel
 * buffer, interleaved four bytes per pixel, becomes a planar 3x32x32
 * tensor of reals in [0, 1] (red plane, then green, then blue; alpha
 * dropped), tagged with the shape [1, 3, 32, 32].
 */
module TensorEncoder {

  /** One entry of the canvas's pixel buffer (a Uint8ClampedArray). */
  type byte = x: int | 0 <= x < 256

  const Width: nat := 32
  const Height: nat := 32
  /** Pixels per frame, and so entries per colour plane. */
  const Pixels: nat := Width * Height
  /** Interleaved channels per pixel in the input: red, green, blue, alpha. */
  const Channels: nat := 4
  const ImageLength: nat := Pixels * Channels
  /** Colour planes in the output. */
  const Planes: nat := 3
  const TensorLength: nat := Planes * Pixels

  /** The tensor handed to the inference engine. */
  datatype Tensor = Tensor(kind: string, data: seq<real>, dims: seq<nat>)

  /** The declared input shape of the model: batch 1, 3 planes, 32x32. */
  const InputShape: seq<nat> := [1, Planes, Height, Width]

  /** Number of elements a tensor of the given shape holds. */
  function Volume(dims: seq<nat>): nat
  {
    if dims == [] then 1 else dims[0] * Volume(dims[1..])
  }

  /** A byte scaled into [0, 1]. */
  function Normalize(b: byte): (r: real)
    ensures 0.0 <= r <= 1.0
    ensures b == 0 <==> r == 0.0
    ensures b == 255 <==> r == 1.0
  {
    b as real / 255.0
  }

  /** Plane `c` of the tensor: channel `c` of every pixel, in pixel order. */
  function Plane(img: seq<byte>, c: nat): seq<real>
    requires |img| == ImageLength && c < Planes
  {
    seq(Pixels, i requires 0 <= i < Pixels => Normalize(img[Channels * i + c]))
  }

  /** The reference encoding: the red, green and blue planes, one after the other. */
  function Encode(img: seq<byte>): (t: seq<real>)
    requires |img| == ImageLength
    ensures |t| == TensorLength
  {
    Plane(img, 0) + Plane(img, 1) + Plane(img, 2)
  }

  /** Position in the output of channel `c` of pixel `i`. */
  function OutputIndex(c: nat, i: nat): nat {
    c * Pixels + i
  }

  /** The plane that output entry `k` belongs to. */
  function PlaneOf(k: nat): (c: nat)
    requires k < TensorLength
    ensures c < Planes && c == k / Pixels
  {
    if k < Pixels then 0 else if k < 2 * Pixels then 1 else 2
  }

  /** The pixel that output entry `k` belongs to. */
  function PixelOf(k: nat): (i: nat)
    requires k < TensorLength
    ensures i < Pixels && i == k % Pixels
    ensures OutputIndex(PlaneOf(k), i) == k
  {
    k - PlaneOf(k) * Pixels
  }

  /** Position in the input that output entry `k` is read from. */
  function SourceIndex(k: nat): nat
    requires k < TensorLength
  {
    Channels * PixelOf(k) + PlaneOf(k)
  }

  /**
   * The loop of the component: fills a zeroed buffer of 3*32*32 entries,
   * writing for each pixel its red, green and blue entries into the
   * three planes, and wraps it with the model's input shape.
   */
  method PreprocessImage(imageData: array<byte>) returns (t: Tensor)
    requires imageData.Length == ImageLength
    ensures t.kind == "float32"
    ensures t.dims == InputShape
    ensures t.data == Encode(imageData[..])
    ensures |t.data| == Volume(t.dims) == TensorLength
  {
    var floatArray := new real[TensorLength];
    for i := 0 to Pixels
      invariant forall j :: 0 <= j < i ==> floatArray[j] == Normalize(imageData[Channels * j])
      invariant forall j :: 0 <= j < i ==> floatArray[j + Pixels] == Normalize(imageData[Channels * j + 1])
      invariant forall j :: 0 <= j < i ==> floatArray[j + 2 * Pixels] == Normalize(imageData[Channels * j + 2])
    {
      floatArray[i] := Normalize(imageData[i * 4]);
      floatArray[i + 1024] := Normalize(imageData[i * 4 + 1]);
      floatArray[i + 2048] := Normalize(imageData[i * 4 + 2]);
    }
    forall k | 0 <= k < TensorLength
      ensures floatArray[k] == Encode(imageData[..])[k]
    {
      EncodeAt(imageData[..], k);
    }
    t := Tensor("float32", floatArray[..], InputShape);
    InputShapeVolume();
  }

  /** The declared shape holds exactly as many elements as the encoder writes. */
  lemma InputShapeVolume()
    ensures Volume(InputShape) == TensorLength
  {
    assert Volume([Width]) == Width;
    assert Volume([Height, Width]) == Pixels;
    assert Volume([Planes, Height, Width]) == TensorLength;
  }

  /** Entry `k` of the encoding is the byte at `SourceIndex(k)`, scaled. */
  lemma EncodeAt(img: seq<byte>, k: nat)
    requires |img| == ImageLength && k < TensorLength
    ensures SourceIndex(k) < ImageLength
    ensures Encode(img)[k] == Normalize(img[SourceIndex(k)])
  {
    var c, i := PlaneOf(k), PixelOf(k);
    if c == 0 {
      assert Encode(img)[k] == Plane(img, 0)[i];
    } else if c == 1 {
      assert Encode(img)[k] == Plane(img, 1)[i];
    } else {
      assert Encode(img)[k] == Plane(img, 2)[i];
    }
  }

  /** The planar layout: pixel `i`'s red, green and blue bytes land at `i`, `i + 1024`, `i + 2048`. */
  lemma PlanarLayout(img: seq<byte>, i: nat)
    requires |img| == ImageLength && i < Pixels
    ensures Encode(img)[i] == Normalize(img[4 * i])
    ensures Encode(img)[i + 1024] == Normalize(img[4 * i + 1])
    ensures Encode(img)[i + 2048] == Normalize(img[4 * i + 2])
  {
    EncodeAt(img, i);
    EncodeAt(img, i + 1024);
    EncodeAt(img, i + 2048);
  }

  /** The three planes cover every output index exactly once. */
  lemma PlanesPartitionOutput(k: nat)
    requires k < TensorLength
    ensures exists c: nat, i: nat :: c < Planes && i < Pixels && OutputIndex(c, i) == k
    ensures forall c: nat, i: nat, c': nat, i': nat ::
      (c < Planes && i < Pixels && c' < Planes && i' < Pixels &&
       OutputIndex(c, i) == k && OutputIndex(c', i') == k) ==> c == c' && i == i'
  {
    assert OutputIndex(PlaneOf(k), PixelOf(k)) == k;
  }

  /** No output entry is read from an alpha byte, and no two entries share an input byte. */
  lemma SourceIndexSkipsAlpha(k: nat, k': nat)
    requires k < TensorLength && k' < TensorLength
    ensures SourceIndex(k) % Channels == k / Pixels < Planes
    ensures SourceIndex(k) / Channels == k % Pixels
    ensures SourceIndex(k) == SourceIndex(k') ==> k == k'
  {
  }

  /** Two frames agree on every red, green and blue byte. */
  ghost predicate SameColours(a: seq<byte>, b: seq<byte>)
    requires |a| == ImageLength && |b| == ImageLength
  {
    forall j :: 0 <= j < ImageLength && j % Channels != 3 ==> a[j] == b[j]
  }

  /**
   * The encoding depends on the colour bytes and on nothing else: two
   * frames encode identically exactly when they differ at most in alpha.
   */
  lemma EncodeIgnoresOnlyAlpha(a: seq<byte>, b: seq<byte>)
    requires |a| == ImageLength && |b| == ImageLength
    ensures Encode(a) == Encode(b) <==> SameColours(a, b)
  {
    if SameColours(a, b) {
      AlphaIgnored(a, b);
    }
    if Encode(a) == Encode(b) {
      forall j | 0 <= j < ImageLength && j % Channels != 3
        ensures a[j] == b[j]
      {
        ColourByteIsRead(a, j);
        ColourByteIsRead(b, j);
      }
    }
  }

  /** Frames that differ only in alpha encode identically. */
  lemma AlphaIgnored(a: seq<byte>, b: seq<byte>)
    requires |a| == ImageLength && |b| == ImageLength
    requires SameColours(a, b)
    ensures Encode(a) == Encode(b)
  {
    forall k | 0 <= k < TensorLength
      ensures Encode(a)[k] == Encode(b)[k]
    {
      EncodeAt(a, k);
      EncodeAt(b, k);
      SourceIndexSkipsAlpha(k, k);
    }
  }

  /** Every colour byte `j` of the frame is read by some output entry. */
  lemma ColourByteIsRead(img: seq<byte>, j: nat)
    requires |img| == ImageLength && j < ImageLength && j % Channels != 3
    ensures OutputIndex(j % Channels, j / Channels) < TensorLength
    ensures Encode(img)[OutputIndex(j % Channels, j / Channels)] == Normalize(img[j])
  {
    var c, i := j % Channels, j / Channels;
    assert j == Channels * i + c;
    var k := OutputIndex(c, i);
    EncodeAt(img, k);
    assert PlaneOf(k) == c && PixelOf(k) == i;
  }

  /** Every entry of the encoding lies in [0, 1]. */
  lemma EncodeBounded(img: seq<byte>)
    requires |img| == ImageLength
    ensures forall k :: 0 <= k < TensorLength ==> 0.0 <= Encode(img)[k] <= 1.0
  {
    forall k | 0 <= k < TensorLength
      ensures 0.0 <= Encode(img)[k] <= 1.0
    {
      EncodeAt(img, k);
    }
  }
}
