/**
 * Canvas sizing of the `Photo` component (src/components/Photo.js): the base
 * size it assumes for a frame, the scaled canvas size, the padding and the
 * deleted marker. Markup, styling and the control buttons are not modelled.
 */
module PhotoView {
  import opened Wrappers
  import opened Images
  import opened FrameUtils
  import opened CanvasUtils
  import PhotoRenderer

  /** CSS padding of the canvas: "0" or a number of pixels. */
  datatype Padding = NoPadding | PaddingPx(px: real)

  /** What the component lays out for one photo. */
  datatype Layout = Layout(
    baseWidth: int,
    baseHeight: int,
    canvasWidth: real,
    canvasHeight: real,
    padding: Padding,
    showsDeletedMarker: bool)

  /** Base size: 160 wide with a frame; 224 high for a wild frame, 144 for another, 112 without. */
  function BaseDims(frame: Option<Frame>): (d: Dims)
    ensures frame.None? ==> d == Dims(128, 112)
    ensures frame.Some? && OccursIn(frame.value.name, WildTag) ==> d == Dims(160, 224)
    ensures frame.Some? && !OccursIn(frame.value.name, WildTag) ==> d == Dims(160, 144)
  {
    var baseWidth := if frame.Some? then 160 else 128;
    var isWild := frame.Some? && Includes(frame.value.name, "wild");
    var frameHeight := if isWild then 224 else 144;
    Dims(baseWidth, if frame.Some? then frameHeight else 112)
  }

  /**
   * The component's hard-coded base size is the composite size the renderer
   * derives from `getFrameOffsets` for a 128x112 photo, for every frame.
   */
  lemma BaseDimsMatchOffsets(frame: Option<Frame>)
    ensures var o := GetFrameOffsets(frame);
            BaseDims(frame) == Dims(PhotoWidth + o.left + o.right, PhotoHeight + o.top + o.bottom)
  {
  }

  /**
   * The rendered layout, `None` when there is no image. The canvas is the base
   * size times the scale factor; an unframed photo is padded by 16 scaled
   * pixels; the deleted marker shows for a deleted photo when the setting asks.
   */
  function LayoutPhoto(image: Option<Photo>, frame: Option<Frame>, scaleFactor: real, showDeletedFlag: bool)
    : (r: Option<Layout>)
    ensures r.Some? <==> image.Some?
    ensures r.Some? ==>
              && Dims(r.value.baseWidth, r.value.baseHeight) == BaseDims(frame)
              && r.value.canvasWidth == r.value.baseWidth as real * scaleFactor
              && r.value.canvasHeight == r.value.baseHeight as real * scaleFactor
              && (r.value.padding == NoPadding <==> frame.Some?)
              && (frame.None? ==> r.value.padding == PaddingPx(16.0 * scaleFactor))
              && (r.value.showsDeletedMarker <==> image.value.isDeleted && showDeletedFlag)
  {
    var base := BaseDims(frame);
    var padding := if frame.Some? then NoPadding else PaddingPx(16.0 * scaleFactor);
    if image.None? then None
    else
      Some(Layout(base.width, base.height, base.width as real * scaleFactor, base.height as real * scaleFactor,
                  padding, image.value.isDeleted && showDeletedFlag))
  }

  /**
   * When the renderer draws a 128x112 photo into this component's canvas at
   * the same scale factor, taking the hook's parameters as it declares them
   * (the component's own call passes its arguments in other slots), the canvas holds twice as many pixels per side as
   * the CSS size the component gives it (for scales whose double is a whole
   * number `k`; the bound on `k` keeps the canvas below the 2^32 wrap-around).
   */
  lemma DisplayCanvasIsTwiceCssSize(frame: Option<Frame>, scaleFactor: real, k: nat)
    requires scaleFactor * 2.0 == k as real && k <= 10000
    ensures var c := ComposeImage(frame.Some?, PhotoWidth, PhotoHeight, Some(AllGiven(GetFrameOffsets(frame))));
            var base := BaseDims(frame);
            var d := PhotoRenderer.DisplayDims(c, scaleFactor);
            d.width as real == 2.0 * (base.width as real * scaleFactor)
            && d.height as real == 2.0 * (base.height as real * scaleFactor)
  {
    var c := ComposeImage(frame.Some?, PhotoWidth, PhotoHeight, Some(AllGiven(GetFrameOffsets(frame))));
    BaseDimsMatchOffsets(frame);
    PhotoRenderer.DisplayDimsWholeScale(c, scaleFactor, k);
  }
}
