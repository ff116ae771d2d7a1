/**
 * Frame quantisation and composite geometry (src/utils/canvasUtils.js).
 * Bitmap decoding and drawing are platform calls; only the index
 * classification and the placement arithmetic are modelled.
 */
module CanvasUtils {
  import opened Wrappers
  import opened Images
  import opened FrameUtils

  /** Frame index values. */
  const White: int := 0
  const LightGray: int := 1
  const DarkGray: int := 2
  const Black: int := 3
  const Transparent: int := 4

  /** Alpha below this is transparent. */
  const AlphaThreshold: int := 128

  /** Lowest red value of each opaque shade, brightest first. */
  function ShadeFloor(shade: int): int
    requires White <= shade <= Black
  {
    if shade == White then 200
    else if shade == LightGray then 120
    else if shade == DarkGray then 40
    else 0
  }

  /** The index one pixel gets from its red and alpha bytes. */
  function ClassifyPixel(red: Byte, alpha: Byte): (idx: int)
    ensures White <= idx <= Transparent
    ensures idx == Transparent <==> alpha < AlphaThreshold
  {
    if alpha < AlphaThreshold then Transparent
    else if red >= 200 then White
    else if red >= 120 then LightGray
    else if red >= 40 then DarkGray
    else Black
  }

  /**
   * An opaque pixel gets shade `k` exactly when its red byte lies between the
   * floor of `k` and the floor of the next brighter shade.
   */
  lemma ClassifyPixelBands(red: Byte, alpha: Byte, k: int)
    requires alpha >= AlphaThreshold
    requires White <= k <= Black
    ensures ClassifyPixel(red, alpha) == k <==>
              ShadeFloor(k) <= red && (k == White || red < ShadeFloor(k - 1))
  {
  }

  /** For opaque pixels a brighter red never yields a darker (larger) index. */
  lemma ClassifyPixelAntitone(r1: Byte, r2: Byte, alpha: Byte)
    requires alpha >= AlphaThreshold
    requires r1 <= r2
    ensures ClassifyPixel(r2, alpha) <= ClassifyPixel(r1, alpha)
  {
  }

  /** The RGBA buffer of a `getImageData` call together with its size. */
  datatype FrameData = FrameData(width: int, height: int, data: seq<Byte>)

  /** Index of pixel `p`, read from its red byte `4p` and alpha byte `4p+3`. */
  function PixelIndexAt(rgba: seq<Byte>, p: int): int
    requires 0 <= p && 4 * p + 3 < |rgba|
  {
    ClassifyPixel(rgba[4 * p], rgba[4 * p + 3])
  }

  /**
   * `convertFrameToData`, from the `getImageData` buffer on: a fresh
   * zero-filled array of `width*height` indices, filled by stepping through
   * the RGBA bytes four at a time.
   */
  method ConvertFrameToData(rgba: seq<Byte>, width: nat, height: nat) returns (frame: FrameData)
    requires |rgba| == 4 * (width * height)
    ensures frame.width == width && frame.height == height
    ensures |frame.data| == width * height == |rgba| / 4
    ensures forall p :: 0 <= p < |frame.data| ==> frame.data[p] == PixelIndexAt(rgba, p)
    ensures forall p :: 0 <= p < |frame.data| ==>
              (frame.data[p] == Transparent <==> rgba[4 * p + 3] < AlphaThreshold)
  {
    var n := width * height;
    var out: seq<Byte> := seq(n, _ => 0);
    var i := 0;
    while i < |rgba|
      invariant 0 <= i <= |rgba| && i % 4 == 0
      invariant |out| == n
      invariant forall p :: 0 <= p < i / 4 ==> out[p] == PixelIndexAt(rgba, p)
    {
      var r := rgba[i];
      var a := rgba[i + 3];
      var idx;
      if a < AlphaThreshold {
        idx := Transparent;
      } else if r >= 200 {
        idx := White;
      } else if r >= 120 {
        idx := LightGray;
      } else if r >= 40 {
        idx := DarkGray;
      } else {
        idx := Black;
      }
      out := out[i / 4 := idx];
      i := i + 4;
    }
    frame := FrameData(width, height, out);
  }

  /** Only the red and alpha bytes are read: green and blue never change an index. */
  lemma ConvertFrameIgnoresGreenBlue(a: seq<Byte>, b: seq<Byte>, p: int)
    requires |a| == |b| && 0 <= p && 4 * p + 3 < |a|
    requires a[4 * p] == b[4 * p] && a[4 * p + 3] == b[4 * p + 3]
    ensures PixelIndexAt(a, p) == PixelIndexAt(b, p)
  {
  }

  /** The `offsets` argument of `composeImage`: any field may be undefined. */
  datatype OffsetsArg = OffsetsArg(top: Option<int>, bottom: Option<int>, left: Option<int>, right: Option<int>)

  /** An offsets object with every field present. */
  function AllGiven(o: Offsets): OffsetsArg {
    OffsetsArg(Some(o.top), Some(o.bottom), Some(o.left), Some(o.right))
  }

  /** An axis-aligned rectangle in composite pixels. */
  datatype Rect = Rect(x: int, y: int, width: int, height: int)

  /** Where `composeImage` draws: the composite size, the photo and the stretched frame. */
  datatype Composition = Composition(width: int, height: int, photo: Rect, frame: Option<Rect>)

  /** A destructuring default: the given field, or 16 with a frame and 0 without. */
  function OffsetOrDefault(field: Option<int>, hasFrame: bool): (v: int)
    ensures field.Some? ==> v == field.value
    ensures field.None? ==> v == (if hasFrame then StandardBorder else 0)
  {
    match field
    case Some(x) => x
    case None => if hasFrame then StandardBorder else 0
  }

  /** The offsets `composeImage` actually uses. */
  function ResolveOffsets(hasFrame: bool, offsets: Option<OffsetsArg>): Offsets {
    var o := if offsets.Some? then offsets.value else OffsetsArg(None, None, None, None);
    Offsets(OffsetOrDefault(o.top, hasFrame), OffsetOrDefault(o.bottom, hasFrame),
            OffsetOrDefault(o.left, hasFrame), OffsetOrDefault(o.right, hasFrame))
  }

  /** `composeImage`: the composite canvas and the rectangles drawn onto it. */
  function ComposeImage(hasFrame: bool, width: int, height: int, offsets: Option<OffsetsArg>): (c: Composition)
    ensures var o := ResolveOffsets(hasFrame, offsets);
            && c.width == width + o.left + o.right
            && c.height == height + o.top + o.bottom
            && c.photo == Rect(o.left, o.top, width, height)
    ensures c.frame.Some? <==> hasFrame
    ensures hasFrame ==> c.frame == Some(Rect(0, 0, c.width, c.height))
  {
    var o := ResolveOffsets(hasFrame, offsets);
    var w := width + o.left + o.right;
    var h := height + o.top + o.bottom;
    Composition(w, h, Rect(o.left, o.top, width, height),
                if hasFrame then Some(Rect(0, 0, w, h)) else None)
  }

  /** `r` lies within a `w` by `h` canvas. */
  predicate Inside(r: Rect, w: int, h: int) {
    0 <= r.x && 0 <= r.y && r.x + r.width <= w && r.y + r.height <= h
  }

  /**
   * With non-negative offsets the photo sits inside the composite and leaves
   * exactly `left`, `right`, `top` and `bottom` pixels of border around it.
   */
  lemma ComposedPhotoInside(hasFrame: bool, width: nat, height: nat, offsets: Option<OffsetsArg>)
    requires var o := ResolveOffsets(hasFrame, offsets);
             o.top >= 0 && o.bottom >= 0 && o.left >= 0 && o.right >= 0
    ensures var c := ComposeImage(hasFrame, width, height, offsets);
            var o := ResolveOffsets(hasFrame, offsets);
            && Inside(c.photo, c.width, c.height)
            && c.photo.x == o.left && c.width - (c.photo.x + c.photo.width) == o.right
            && c.photo.y == o.top && c.height - (c.photo.y + c.photo.height) == o.bottom
  {
  }

  /**
   * With `getFrameOffsets` and a 128x112 photo the composite is 128x112
   * without a frame, 160x144 with a standard frame and 160x224 with a wild one.
   */
  lemma ComposedPhotoSizes(frame: Option<Frame>)
    ensures var c := ComposeImage(frame.Some?, PhotoWidth, PhotoHeight, Some(AllGiven(GetFrameOffsets(frame))));
            && (frame.None? ==> c.width == 128 && c.height == 112)
            && (frame.Some? && !IsWild(frame.value) ==> c.width == 160 && c.height == 144)
            && (frame.Some? && IsWild(frame.value) ==> c.width == 160 && c.height == 224)
  {
  }
}
