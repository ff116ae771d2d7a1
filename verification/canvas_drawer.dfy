/**
 * Freehand painting on a photo (src/hooks/useCanvasDrawer.js): map a canvas
 * point to a photo pixel, stamp a square brush of one colour index, and track
 * whether a stroke is in progress.
 */
module CanvasDrawer {
  import opened Wrappers
  import opened Images
  import opened FrameUtils

  /** Canvas pixels per photo pixel in the editor. */
  const DrawScale: int := 8

  /** Number of entries of a photo buffer. */
  const PhotoSize: int := PhotoWidth * PhotoHeight

  /** Photo coordinate of a canvas coordinate: `floor(c / 8 - offset)`. */
  function ImageCoord(canvasCoord: real, offset: int): (u: int)
    ensures u as real <= canvasCoord / 8.0 - offset as real < u as real + 1.0
  {
    (canvasCoord / DrawScale as real - offset as real).Floor
  }

  /** For a whole canvas coordinate the mapping is floor division by 8, then the offset. */
  lemma ImageCoordWhole(c: int, offset: int)
    ensures ImageCoord(c as real, offset) == c / DrawScale - offset
  {
    var q := c / DrawScale;
    var m := c % DrawScale;
    assert c == DrawScale * q + m && 0 <= m < DrawScale;
    var v := c as real / DrawScale as real - offset as real;
    assert v == (q - offset) as real + m as real / DrawScale as real;
    assert (q - offset) as real <= v < (q - offset + 1) as real;
  }

  /** Position of photo pixel (x, y) in the row-major buffer. */
  function PixelIndex(x: int, y: int): int {
    y * PhotoWidth + x
  }

  /** (x, y) is a pixel of the 128x112 photo. */
  predicate InPhoto(x: int, y: int) {
    0 <= x < PhotoWidth && 0 <= y < PhotoHeight
  }

  /** (x, y) is covered by the `size`-wide square brush whose corner is (ux, uy). */
  predicate UnderBrush(x: int, y: int, ux: int, uy: int, size: int) {
    ux <= x < ux + size && uy <= y < uy + size
  }

  /** Reference result of one brush stamp, entry by entry of the buffer. */
  function BrushResult(data: seq<int>, ux: int, uy: int, size: int, color: int): (out: seq<int>)
    ensures |out| == |data|
  {
    seq(|data|, k requires 0 <= k < |data| =>
          if k < PhotoSize && UnderBrush(k % PhotoWidth, k / PhotoWidth, ux, uy, size) then color else data[k])
  }

  /**
   * The brush loop of `drawOnCanvas`: for every (i, j) in the square, write
   * the colour at (ux+i, uy+j) when that pixel lies inside the photo.
   */
  method PaintBrush(data: seq<int>, ux: int, uy: int, size: int, color: int) returns (out: seq<int>)
    requires |data| >= PhotoSize
    ensures |out| == |data|
    ensures forall x, y :: InPhoto(x, y) ==>
              out[PixelIndex(x, y)] == (if UnderBrush(x, y, ux, uy, size) then color else data[PixelIndex(x, y)])
    ensures forall k :: PhotoSize <= k < |data| ==> out[k] == data[k]
    ensures size <= 0 ==> out == data
    ensures out == BrushResult(data, ux, uy, size, color)
  {
    out := data;
    var i := 0;
    while i < size
      invariant 0 <= i <= (if size < 0 then 0 else size)
      invariant |out| == |data|
      invariant forall x, y :: InPhoto(x, y) ==>
                  out[PixelIndex(x, y)] ==
                    (if ux <= x < ux + i && uy <= y < uy + size then color else data[PixelIndex(x, y)])
      invariant forall k :: PhotoSize <= k < |data| ==> out[k] == data[k]
    {
      var j := 0;
      while j < size
        invariant 0 <= j <= size
        invariant |out| == |data|
        invariant forall x, y :: InPhoto(x, y) ==>
                    out[PixelIndex(x, y)] ==
                      (if (ux <= x < ux + i && uy <= y < uy + size) || (x == ux + i && uy <= y < uy + j)
                       then color else data[PixelIndex(x, y)])
        invariant forall k :: PhotoSize <= k < |data| ==> out[k] == data[k]
      {
        var drawX := ux + i;
        var drawY := uy + j;
        if drawX >= 0 && drawX < PhotoWidth && drawY >= 0 && drawY < PhotoHeight {
          out := out[PixelIndex(drawX, drawY) := color];
        }
        j := j + 1;
      }
      i := i + 1;
    }
    forall k | 0 <= k < PhotoSize
      ensures out[k] == BrushResult(data, ux, uy, size, color)[k]
    {
      assert k == PixelIndex(k % PhotoWidth, k / PhotoWidth);
    }
  }

  /**
   * `drawOnCanvas` at canvas point (x, y): `None` when there is no image to
   * edit (no update); otherwise the image with the brushed buffer and every
   * other field unchanged.
   */
  method DrawOnCanvas(edited: Option<Photo>, frame: Option<Frame>, color: int, brushSize: int, x: real, y: real)
    returns (r: Option<Photo>)
    requires edited.Some? ==> |edited.value.photoData| >= PhotoSize
    ensures r.Some? <==> edited.Some?
    ensures r.Some? ==>
              var o := GetFrameOffsets(frame);
              r.value == edited.value.(photoData := BrushResult(edited.value.photoData,
                                         ImageCoord(x, o.left), ImageCoord(y, o.top), brushSize, color))
  {
    if edited.None? {
      return None;
    }
    var offsets := GetFrameOffsets(frame);
    var unscaledX := ImageCoord(x, offsets.left);
    var unscaledY := ImageCoord(y, offsets.top);
    var newPhotoData := PaintBrush(edited.value.photoData, unscaledX, unscaledY, brushSize, color);
    r := Some(edited.value.(photoData := newPhotoData));
  }

  /** The hook's state: the image being edited and whether a stroke is in progress. */
  datatype Drawer = Drawer(edited: Option<Photo>, isDrawing: bool)

  /** Mouse and touch events of a stroke, at canvas coordinates. */
  datatype StrokeEvent = DrawStart(x: real, y: real) | DrawMove(x: real, y: real) | DrawEnd | MouseLeave

  /** Every edited image holds a whole photo buffer. */
  predicate Paintable(d: Drawer) {
    d.edited.Some? ==> |d.edited.value.photoData| >= PhotoSize
  }

  /** The edited image after a stamp at (x, y), if there is one. */
  function Stamped(d: Drawer, frame: Option<Frame>, color: int, brushSize: int, x: real, y: real): Option<Photo> {
    var o := GetFrameOffsets(frame);
    match d.edited
    case None => None
    case Some(p) => Some(p.(photoData := BrushResult(p.photoData, ImageCoord(x, o.left), ImageCoord(y, o.top), brushSize, color)))
  }

  /**
   * The draw handlers: a start begins a stroke and paints, a move paints only
   * during a stroke, and an end or a mouse-leave stops the stroke.
   */
  method HandleEvent(d: Drawer, e: StrokeEvent, frame: Option<Frame>, color: int, brushSize: int)
    returns (next: Drawer)
    requires Paintable(d)
    ensures Paintable(next)
    ensures e.DrawStart? ==> next == Drawer(Stamped(d, frame, color, brushSize, e.x, e.y), true)
    ensures e.DrawMove? && d.isDrawing ==> next == Drawer(Stamped(d, frame, color, brushSize, e.x, e.y), true)
    ensures e.DrawMove? && !d.isDrawing ==> next == d
    ensures e.DrawEnd? || e.MouseLeave? ==> next == d.(isDrawing := false)
  {
    match e
    case DrawStart(x, y) =>
      var r := DrawOnCanvas(d.edited, frame, color, brushSize, x, y);
      next := Drawer(r, true);
    case DrawMove(x, y) =>
      if d.isDrawing {
        var r := DrawOnCanvas(d.edited, frame, color, brushSize, x, y);
        next := d.(edited := r);
      } else {
        next := d;
      }
    case DrawEnd =>
      next := d.(isDrawing := false);
    case MouseLeave =>
      next := d.(isDrawing := false);
  }
}
