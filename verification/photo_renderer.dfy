/**
 * The rendering effect of `usePhotoRenderer` (src/hooks/usePhotoRenderer.js):
 * choose the colour path, recolour the frame, compose, and size the save and
 * display canvases. Bitmap creation and drawing are platform calls; the model
 * keeps the buffers handed to them and the canvas sizes.
 */
module PhotoRenderer {
  import opened Wrappers
  import opened Images
  import opened FrameUtils
  import opened CanvasUtils
  import opened TrickLens

  /** Upscaling of the high-resolution export canvas. */
  const SaveScale: int := 10
  const TwoTo32: int := 0x1_0000_0000

  /**
   * `new ImageData(pixels, width, height)` accepts a buffer of `len` bytes
   * exactly when it holds `width*height` RGBA pixels and neither side is zero;
   * otherwise it throws and the hook's `catch` ends the render.
   */
  predicate ImageDataAccepts(len: int, width: int, height: int) {
    width > 0 && height > 0 && len == 4 * (width * height)
  }

  /** The photo's RGBA pixels: RGB mixing when green and blue planes are both given, else the palette. */
  function PhotoPixels(lib: Library, image: Photo, imageG: Option<Photo>, imageB: Option<Photo>,
                       paletteId: string, paletteOrder: Option<string>,
                       brightness: real, contrast: real): (px: seq<Byte>)
    ensures imageG.Some? && imageB.Some? ==>
              px == lib.applyRGB(image.photoData, imageG.value.photoData, imageB.value.photoData,
                                 image.width, image.height, brightness, contrast)
    ensures imageG.None? || imageB.None? ==> px == lib.applyPalette(image.photoData, paletteId, paletteOrder)
  {
    if imageG.Some? && imageB.Some? then
      lib.applyRGB(image.photoData, imageG.value.photoData, imageB.value.photoData,
                   image.width, image.height, brightness, contrast)
    else
      lib.applyPalette(image.photoData, paletteId, paletteOrder)
  }

  /** A fresh copy of the frame indices with every transparent index replaced by white. */
  function CleanFrameData(data: seq<Byte>): (clean: seq<Byte>)
    ensures |clean| == |data|
    ensures forall i :: 0 <= i < |data| ==>
              clean[i] == (if data[i] == Transparent then White else data[i])
  {
    seq(|data|, i requires 0 <= i < |data| => if data[i] == Transparent then White else data[i])
  }

  /**
   * Frame indices from the quantiser (0..4) become palette inputs (0..3);
   * the cleaning is idempotent.
   */
  lemma CleanFrameInPaletteRange(data: seq<Byte>)
    requires forall i :: 0 <= i < |data| ==> data[i] <= Transparent
    ensures forall i :: 0 <= i < |data| ==> 0 <= CleanFrameData(data)[i] <= Black
    ensures CleanFrameData(CleanFrameData(data)) == CleanFrameData(data)
  {
  }

  /**
   * The alpha byte of every pixel whose frame index is transparent set to 0.
   * Writes past the end of the typed array are ignored, as JavaScript does.
   */
  function RestoreTransparency(pixels: seq<Byte>, data: seq<Byte>): (out: seq<Byte>)
    ensures |out| == |pixels|
    ensures forall i :: 0 <= i < |data| && 4 * i + 3 < |pixels| ==>
              out[4 * i + 3] == (if data[i] == Transparent then 0 else pixels[4 * i + 3])
    ensures forall k :: 0 <= k < |pixels| && (k % 4 != 3 || k / 4 >= |data|) ==> out[k] == pixels[k]
  {
    var out := seq(|pixels|, k requires 0 <= k < |pixels| =>
                   if k % 4 == 3 && k / 4 < |data| && data[k / 4] == Transparent then 0 else pixels[k]);
    assert forall i :: 0 <= i && 4 * i + 3 < |pixels| ==> (4 * i + 3) % 4 == 3 && (4 * i + 3) / 4 == i;
    out
  }

  /** The frame's RGBA pixels: palette colours, with transparency restored. */
  function RecolorFrame(lib: Library, data: seq<Byte>, paletteId: string, paletteOrder: Option<string>): (out: seq<Byte>)
    ensures var p := lib.applyPalette(CleanFrameData(data), paletteId, paletteOrder);
            && |out| == |p|
            && (forall i :: 0 <= i < |data| && 4 * i + 3 < |out| && data[i] == Transparent ==> out[4 * i + 3] == 0)
            && (forall k :: 0 <= k < |out| && (k % 4 != 3 || k / 4 >= |data|) ==> out[k] == p[k])
            && (forall i :: 0 <= i < |data| && 4 * i + 3 < |out| && data[i] != Transparent ==> out[4 * i + 3] == p[4 * i + 3])
  {
    RestoreTransparency(lib.applyPalette(CleanFrameData(data), paletteId, paletteOrder), data)
  }

  /**
   * If the palette output is opaque (alpha 255), a recoloured frame pixel is
   * transparent exactly where the frame index is 4, and its colour bytes are
   * the palette's.
   */
  lemma RecolorFrameAlpha(lib: Library, data: seq<Byte>, paletteId: string, paletteOrder: Option<string>)
    requires var p := lib.applyPalette(CleanFrameData(data), paletteId, paletteOrder);
             forall k :: 0 <= k < |p| && k % 4 == 3 ==> p[k] == 255
    ensures var p := lib.applyPalette(CleanFrameData(data), paletteId, paletteOrder);
            var out := RecolorFrame(lib, data, paletteId, paletteOrder);
            && |out| == |p|
            && (forall i :: 0 <= i < |data| && 4 * i + 3 < |out| ==> (out[4 * i + 3] == 0 <==> data[i] == Transparent))
            && (forall k :: 0 <= k < |out| && k % 4 != 3 ==> out[k] == p[k])
  {
    var p := lib.applyPalette(CleanFrameData(data), paletteId, paletteOrder);
    forall i | 0 <= i < |data| && 4 * i + 3 < |p|
      ensures p[4 * i + 3] == 255
    {
      assert (4 * i + 3) % 4 == 3;
    }
  }

  /**
   * The WebIDL `unsigned long` conversion applied when a number is assigned
   * to a canvas's `width` or `height`: truncate toward zero, then wrap modulo 2^32.
   */
  function CanvasDimension(x: real): (d: int)
    ensures 0 <= d < TwoTo32
    ensures 0.0 <= x < TwoTo32 as real ==> d == x.Floor
  {
    var t := if x >= 0.0 then x.Floor else -((-x).Floor);
    t % TwoTo32
  }

  /** Display canvas size: the composite scaled by twice the display scale. */
  function DisplayDims(c: Composition, displayScale: real): (d: Dims)
    ensures 0 <= d.width < TwoTo32 && 0 <= d.height < TwoTo32
    ensures 0.0 <= c.width as real * (displayScale * 2.0) < TwoTo32 as real ==>
              d.width == (c.width as real * (displayScale * 2.0)).Floor
    ensures 0.0 <= c.height as real * (displayScale * 2.0) < TwoTo32 as real ==>
              d.height == (c.height as real * (displayScale * 2.0)).Floor
  {
    var scale := displayScale * 2.0;
    Dims(CanvasDimension(c.width as real * scale), CanvasDimension(c.height as real * scale))
  }

  /** A completed render: the buffers handed to `createImageBitmap` and the canvases produced. */
  datatype Rendered = Rendered(
    pixels: seq<Byte>,
    framePixels: Option<seq<Byte>>,
    composition: Composition,
    save: Dims,
    display: Option<Dims>)

  /**
   * One run of the hook's effect, with its declared parameters. `None` means
   * nothing was rendered: no primary image, or an `ImageData` constructor
   * threw. `hasDisplayCanvas` says whether the display canvas is mounted.
   */
  function Render(lib: Library, image: Option<Photo>, imageG: Option<Photo>, imageB: Option<Photo>,
                  paletteId: string, frame: Option<Frame>, displayScale: real,
                  paletteOrder: Option<string>, brightness: real, contrast: real,
                  hasDisplayCanvas: bool): (r: Option<Rendered>)
    ensures image.None? ==> r.None?
    ensures image.Some? ==>
              var img := image.value;
              var px := PhotoPixels(lib, img, imageG, imageB, paletteId, paletteOrder, brightness, contrast);
              (r.Some? <==> ImageDataAccepts(|px|, img.width, img.height)
                            && (frame.Some? ==> ImageDataAccepts(|RecolorFrame(lib, frame.value.data, paletteId, paletteOrder)|,
                                                                 frame.value.width, frame.value.height)))
    ensures r.Some? ==>
              var img := image.value;
              var out := r.value;
              var o := GetFrameOffsets(frame);
              && out.pixels == PhotoPixels(lib, img, imageG, imageB, paletteId, paletteOrder, brightness, contrast)
              && (out.framePixels.Some? <==> frame.Some?)
              && (frame.Some? ==> out.framePixels.value == RecolorFrame(lib, frame.value.data, paletteId, paletteOrder))
              && out.composition.width == img.width + o.left + o.right
              && out.composition.height == img.height + o.top + o.bottom
              && out.composition.photo == Rect(o.left, o.top, img.width, img.height)
              && out.save == Dims(out.composition.width * SaveScale, out.composition.height * SaveScale)
              && (out.display.Some? <==> hasDisplayCanvas)
              && (hasDisplayCanvas ==> out.display.value == DisplayDims(out.composition, displayScale))
  {
    if image.None? then None
    else
      var img := image.value;
      var pixels := PhotoPixels(lib, img, imageG, imageB, paletteId, paletteOrder, brightness, contrast);
      if !ImageDataAccepts(|pixels|, img.width, img.height) then None
      else
        var framePixels := if frame.Some? then Some(RecolorFrame(lib, frame.value.data, paletteId, paletteOrder)) else None;
        if frame.Some? && !ImageDataAccepts(|framePixels.value|, frame.value.width, frame.value.height) then None
        else
          var composition := ComposeImage(frame.Some?, img.width, img.height, Some(AllGiven(GetFrameOffsets(frame))));
          var save := Dims(composition.width * SaveScale, composition.height * SaveScale);
          var display := if hasDisplayCanvas then Some(DisplayDims(composition, displayScale)) else None;
          Some(Rendered(pixels, framePixels, composition, save, display))
  }

  /** With a whole-number doubled scale `k`, the display canvas is exactly `k` times the composite. */
  lemma DisplayDimsWholeScale(c: Composition, displayScale: real, k: nat)
    requires displayScale * 2.0 == k as real
    requires 0 <= c.width && 0 <= c.height
    requires c.width * k < TwoTo32 && c.height * k < TwoTo32
    ensures DisplayDims(c, displayScale) == Dims(c.width * k, c.height * k)
  {
    assert c.width as real * (displayScale * 2.0) == (c.width * k) as real;
    assert c.height as real * (displayScale * 2.0) == (c.height * k) as real;
  }

  /**
   * A 128x112 photo exports at 1280x1120 without a frame, 1600x1440 with a
   * standard frame and 1600x2240 with a wild one.
   */
  lemma RenderSaveSizes(lib: Library, image: Photo, imageG: Option<Photo>, imageB: Option<Photo>,
                        paletteId: string, frame: Option<Frame>, displayScale: real,
                        paletteOrder: Option<string>, brightness: real, contrast: real, hasDisplayCanvas: bool)
    requires image.width == PhotoWidth && image.height == PhotoHeight
    ensures var r := Render(lib, Some(image), imageG, imageB, paletteId, frame, displayScale,
                            paletteOrder, brightness, contrast, hasDisplayCanvas);
            r.Some? ==>
              && (frame.None? ==> r.value.save == Dims(1280, 1120))
              && (frame.Some? && !IsWild(frame.value) ==> r.value.save == Dims(1600, 1440))
              && (frame.Some? && IsWild(frame.value) ==> r.value.save == Dims(1600, 2240))
  {
  }

  /**
   * The `PhotoThumb` component renders an unframed photo at display scale 0.2:
   * its display canvas is 51x44, the fractional size truncated.
   */
  lemma ThumbnailDisplaySize(lib: Library, image: Photo, paletteId: string)
    requires image.width == PhotoWidth && image.height == PhotoHeight
    ensures var r := Render(lib, Some(image), None, None, paletteId, None, 0.2, None, 0.0, 0.0, true);
            r.Some? ==> r.value.display == Some(Dims(51, 44))
  {
    var r := Render(lib, Some(image), None, None, paletteId, None, 0.2, None, 0.0, 0.0, true);
    if r.Some? {
      assert r.value.composition.width == 128 && r.value.composition.height == 112;
      assert 128.0 * (0.2 * 2.0) == 51.2;
      assert 112.0 * (0.2 * 2.0) == 44.8;
    }
  }
}
