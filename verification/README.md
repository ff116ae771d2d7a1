# TrickLens Studio: verified model of the rendering and editing logic

TrickLens Studio is a web application for Game Boy Camera photos (128×112
pixels, four grey levels). The heavy imaging work is done by the external
`tricklens-js` library. The application's own logic around that library is
modelled here in Dafny:

- the frame quantiser that turns a frame image into 5-value frame indices;
- the border offsets of a frame and the geometry of the composite;
- the renderer hook: colour-path choice, frame recolouring with transparency,
  and the sizes of the export and display canvases;
- the brush of the drawing hook and its stroke state;
- the effect/montage decision of the effect hook;
- which montage layouts are offered for a number of photos;
- export file naming;
- the canvas sizing of the `Photo` component;
- the settings store.

The library is the `TrickLens.Library` record. Its fields `applyPalette`,
`applyRGB`, `applyEffect` and `createMontage` are arbitrary total functions,
so each property proved here holds whatever the library computes. Browser
services are parameters: the timestamp, the colour-scheme preference, storage
reads, whether a canvas exists, and whether the browser can share a file.

| file | module | source |
|---|---|---|
| wrappers.dfy | `Wrappers` | `Option` for undefined/null |
| images.dfy | `Images` | bytes, the photo record, canvas sizes |
| frame_utils.dfy | `FrameUtils` | src/utils/frameUtils.js |
| canvas_utils.dfy | `CanvasUtils` | src/utils/canvasUtils.js |
| montage_utils.dfy | `MontageUtils` | src/utils/montageUtils.js |
| tricklens.dfy | `TrickLens` | the library interface; effect ids from src/components/EditModal.js |
| photo_renderer.dfy | `PhotoRenderer` | src/hooks/usePhotoRenderer.js |
| canvas_drawer.dfy | `CanvasDrawer` | src/hooks/useCanvasDrawer.js |
| effect_applier.dfy | `EffectApplier` | src/hooks/useEffectApplier.js |
| photo_exporter.dfy | `PhotoExporter` | src/hooks/usePhotoExporter.js |
| photo_view.dfy | `PhotoView` | src/components/Photo.js |
| settings.dfy | `Settings` | src/context/SettingsContext.js |

Choices the code makes that differ from what one might expect:

- Layout 'horizontal-bars' is offered from 2 photos and 'four-quadrant' from 3 photos.
- `composeImage`'s own default offset is 16 on every side, even for a wild frame.
  The wild geometry (40/72/16/16) comes only from `getFrameOffsets`.
- A transparent frame pixel keeps the RGB bytes that the palette gives index 0.
  Only its alpha byte is set to 0.

## Model

| member | source | states |
|---|---|---|
| FrameUtils.Includes | src/utils/frameUtils.js:6 | `includes` is true exactly when the tag occurs as a contiguous run at some position |
| FrameUtils.GetFrameOffsets | src/utils/frameUtils.js:1-14 | no frame gives 0 on every side; a name containing 'wild' gives 40/72/16/16; any other frame gives 16 on every side; left equals right and no offset is negative |
| CanvasUtils.ClassifyPixel | src/utils/canvasUtils.js:22-32 | every index is in 0..4, and it is 4 exactly when alpha < 128 |
| CanvasUtils.ClassifyPixelBands | src/utils/canvasUtils.js:24-31 | an opaque pixel gets shade k exactly when red lies in that shade's band: ≥200 white, 120..199 light gray, 40..119 dark gray, below 40 black |
| CanvasUtils.ClassifyPixelAntitone | src/utils/canvasUtils.js:24-31 | for opaque pixels a brighter red never gives a larger index |
| CanvasUtils.ConvertFrameToData | src/utils/canvasUtils.js:16-35 | one index per RGBA pixel (width·height = bytes/4); pixel p's index comes from red byte 4p and alpha byte 4p+3; it is 4 exactly when that alpha < 128 |
| CanvasUtils.ConvertFrameIgnoresGreenBlue | src/utils/canvasUtils.js:19-20 | two buffers that agree on a pixel's red and alpha bytes give it the same index, whatever the green and blue bytes |
| CanvasUtils.OffsetOrDefault | src/utils/canvasUtils.js:48-53 | a missing offset field is 16 when a frame bitmap is present and 0 when absent; a given field is used as is |
| CanvasUtils.ComposeImage | src/utils/canvasUtils.js:54-64 | the composite is (width+left+right)×(height+top+bottom); the photo is drawn at (left, top) at its own size; the frame is stretched over the whole composite exactly when there is one |
| CanvasUtils.ComposedPhotoInside | src/utils/canvasUtils.js:54-61 | with non-negative offsets the photo lies inside the composite, with exactly left/right/top/bottom pixels of border |
| CanvasUtils.ComposedPhotoSizes | src/utils/canvasUtils.js:54-55 | with the frame offsets, a 128×112 photo composes to 128×112 (no frame), 160×144 (standard) or 160×224 (wild) |
| MontageUtils.AvailableMontageTypes | src/utils/montageUtils.js:1-16 | a missing or ≤0 count gives no layouts; otherwise the list starts with the six base layouts in order; 'horizontal-bars' is present iff n > 1; 'four-quadrant' iff n > 2; the length is 6, 7 or 8 |
| MontageUtils.AvailableMontageTypesDistinct | src/utils/montageUtils.js:6-13 | no layout appears twice, and 'four-quadrant' always comes after 'horizontal-bars' |
| MontageUtils.AvailableMontageTypesMonotone | src/utils/montageUtils.js:6-13 | for 1 ≤ n ≤ m the layouts for n are a prefix of the layouts for m |
| MontageUtils.ParseMontageTypeId | src/utils/montageUtils.js:6-12 | every layout name reads back as its layout, so the names are distinct |
| TrickLens.ParseEffectId | src/components/EditModal.js:17-26 | every effect id reads back as its effect; no id is empty; only the no-effect entry has id 'none' |
| PhotoRenderer.PhotoPixels | src/hooks/usePhotoRenderer.js:51-65 | the RGB path runs iff both the green and blue images are present; otherwise the palette is applied with the palette order |
| PhotoRenderer.CleanFrameData | src/hooks/usePhotoRenderer.js:74-78 | the cleaned copy has the frame's length and equals the frame data except that every 4 becomes 0 |
| PhotoRenderer.CleanFrameInPaletteRange | src/hooks/usePhotoRenderer.js:74-81 | frame indices in 0..4 give palette inputs in 0..3, and cleaning twice changes nothing more |
| PhotoRenderer.RestoreTransparency | src/hooks/usePhotoRenderer.js:84-88 | the alpha byte of pixel i becomes 0 where frame index i is 4; every other byte, and any write past the end, leaves the palette output unchanged |
| PhotoRenderer.RecolorFrame | src/hooks/usePhotoRenderer.js:72-88 | the recoloured frame has the palette output's length; alpha is 0 at every transparent frame pixel; every other byte is the palette output's |
| PhotoRenderer.RecolorFrameAlpha | src/hooks/usePhotoRenderer.js:72-88 | if the palette output is opaque, a recoloured frame pixel has alpha 0 exactly where the frame index is 4, and its colour bytes are the palette's |
| PhotoRenderer.Render | src/hooks/usePhotoRenderer.js:41-131 | nothing is rendered without a primary image or when an `ImageData` buffer has the wrong size; the frame is recoloured iff present; the composite uses the frame offsets; the save raster is the composite ×10; the display raster is the composite ×(displayScale·2) iff a display canvas exists |
| PhotoRenderer.CanvasDimension | src/hooks/usePhotoRenderer.js:121-122 | a number assigned to a canvas side becomes a size in 0..2^32−1, and a non-negative value below 2^32 is truncated to its floor |
| PhotoRenderer.DisplayDims | src/hooks/usePhotoRenderer.js:120-122 | each display side is in 0..2^32−1 and is the floor of the composite side × (displayScale·2) when that product is non-negative and below 2^32 |
| PhotoRenderer.DisplayDimsWholeScale | src/hooks/usePhotoRenderer.js:120-122 | when displayScale·2 is a whole number k, the display canvas is exactly k times the composite |
| PhotoRenderer.RenderSaveSizes | src/hooks/usePhotoRenderer.js:38 | a 128×112 photo exports at 1280×1120, 1600×1440 or 1600×2240 for no, standard or wild frame |
| PhotoRenderer.ThumbnailDisplaySize | src/components/PhotoThumb.js:5 | the 0.2-scale unframed thumbnail gets a 51×44 display canvas, the fractional size truncated |
| CanvasDrawer.ImageCoord | src/hooks/useCanvasDrawer.js:42-43 | the photo coordinate u is floor(c/8 − offset): u ≤ c/8 − offset < u+1 |
| CanvasDrawer.ImageCoordWhole | src/hooks/useCanvasDrawer.js:38-43 | for whole canvas coordinates, floor(c/8 − offset) is floor division by 8 minus the offset |
| CanvasDrawer.PaintBrush | src/hooks/useCanvasDrawer.js:47-61 | the buffer keeps its length; pixel (x, y) at index y·128+x takes the colour iff it is under the square brush and inside 128×112; every other entry is unchanged, so a size ≤ 0 changes nothing |
| CanvasDrawer.DrawOnCanvas | src/hooks/useCanvasDrawer.js:25-65 | no update without an edited image; otherwise the brush is placed at floor(x/8 − left), floor(y/8 − top) from the frame offsets, and every other field of the image is kept |
| CanvasDrawer.HandleEvent | src/hooks/useCanvasDrawer.js:67-102 | start sets drawing and paints; move paints only while drawing; end and mouse-leave clear drawing and change nothing else |
| EffectApplier.ApplyEffectsDecisions | src/hooks/useEffectApplier.js:13-44 | no sources, no update; a montage (more than one source, type ≠ 'none') sets applyEffect(createMontage(all pixels, type), effect) even for effect 'none'; a real effect on a present edited image applies to the first source; 'none' without a montage resets to the first source; a falsy effect without a montage does nothing; at most one update; the first source's other fields are kept |
| EffectApplier.ApplyEffects | src/hooks/useEffectApplier.js:13-44 | without an edit image, no update; at most one `setEditedImage` call; an update keeps every field of the first source except pixels; a falsy effect without a montage makes no update |
| EffectApplier.DialogEffect | src/components/EditModal.js:17-35 | the dialog passes null for 'none' and the effect's id otherwise; every id passed is truthy, not 'none', and names its effect |
| EffectApplier.DialogEffectOnSinglePhoto | src/hooks/useEffectApplier.js:23-42 | for an effect value of the form the edit dialog produces (null for 'none', the id otherwise) on one edited photo: null makes no update, so an earlier effect is not undone; any other effect is applied to the photo |
| PhotoExporter.SlugChars | src/hooks/usePhotoExporter.js:9 | each character is lowercased, then replaced by '-' if it is whitespace; the result has no whitespace and no capital |
| PhotoExporter.FormattedUsername | src/hooks/usePhotoExporter.js:4-10 | an absent or empty username gives ''; otherwise '-' followed by the slug, one character longer than the name |
| PhotoExporter.OnlyJpgIsJpeg | src/hooks/usePhotoExporter.js:29-35 | JPEG (MIME and extension) iff the format is exactly 'jpg'; 'jpeg' gives PNG |
| PhotoExporter.DecimalString | src/hooks/usePhotoExporter.js:54 | the timestamp prints as a non-empty run of decimal digits without a leading zero |
| PhotoExporter.DecimalStringValue | src/hooks/usePhotoExporter.js:54 | the printed digits read back as the timestamp |
| PhotoExporter.GetFormatDetails | src/hooks/usePhotoExporter.js:29-35 | the details are either ('image/jpeg', 'jpg') or ('image/png', 'png') |
| PhotoExporter.ExportFilename | src/hooks/usePhotoExporter.js:52-54 | the name is 'gbcam', the slug, '-', the palette id, '-', the timestamp digits, then '.' and the extension, each at its position |
| PhotoExporter.ExportFilenameShape | src/hooks/usePhotoExporter.js:52-54 | the name starts 'gbcam' and ends '.jpg' iff the format is 'jpg', '.png' otherwise |
| PhotoExporter.HandleExport | src/hooks/usePhotoExporter.js:38-60 | nothing without a save canvas; otherwise a download named gbcam+slug+'-'+palette+'-'+timestamp+'.'+extension with the format's MIME type and quality |
| PhotoExporter.HandleShare | src/hooks/usePhotoExporter.js:63-91 | nothing without a save canvas or share support; otherwise the file with the same name and MIME type, encoded at the given quality |
| PhotoExporter.ExportAndShareAgree | src/hooks/usePhotoExporter.js:52-54 | export and share at the same instant build the same file name and type |
| PhotoView.BaseDims | src/components/Photo.js:40-43 | 128×112 without a frame, 160×224 for a frame whose name contains 'wild', 160×144 for any other frame |
| PhotoView.BaseDimsMatchOffsets | src/components/Photo.js:40-43 | the hard-coded base sizes 160/128 and 224/144/112 equal 128+left+right and 112+top+bottom from the frame offsets |
| PhotoView.LayoutPhoto | src/components/Photo.js:39-57 | nothing without an image; canvas = base × scale; padding '0' with a frame and 16·scale px without; the deleted marker shows iff the photo is deleted and the flag is set |
| PhotoView.DisplayCanvasIsTwiceCssSize | src/components/Photo.js:45-46 | rendered at the same scale, the display canvas holds twice the pixels per side of the component's CSS size |
| Settings.InitialSettings | src/context/SettingsContext.js:10-21 | the initial settings hold exactly the seven known keys |
| Settings.InitialSettingsDefaults | src/context/SettingsContext.js:11-19 | with empty storage: scale 2, showDeleted false, colour 'green', reversed false, format 'png', quality 0.9, theme 'system' |
| Settings.InitialSettingsFromStorage | src/context/SettingsContext.js:11-19 | for any storage: isReversed keeps every stored value but null, which becomes false; each setting defaulted with logical or keeps its stored value iff it is truthy, else takes its default; exportQuality applies that rule to Number(stored) |
| Settings.HandleKeyDown | src/context/SettingsContext.js:48-56 | the shortcut handler keeps every key and every setting but the scale; without Ctrl/Meta or with another key it changes nothing; a changed scale is a number |
| Settings.UpdateSetting | src/context/SettingsContext.js:64-66 | the named key takes the value; every other key keeps its value |
| Settings.HandleKeyDownScale | src/context/SettingsContext.js:48-56 | Ctrl/Meta with '+' or '=' sets min(s+1, 4); with '-' sets max(s−1, 1); any other key or no modifier changes nothing; only the scale changes; a scale in 1..4 stays in 1..4 |
| Settings.HandleSettingChange | src/context/SettingsContext.js:69-79 | a checkbox stores checked; scaleFactor and exportQuality store Number(value); other inputs store the raw value |
| Settings.UpdatesKeepSettingKeys | src/context/SettingsContext.js:64-66 | updates never remove a key, so the scale the shortcuts read is always present |
| Settings.ResolveTheme | src/context/SettingsContext.js:34-37 | 'system' becomes 'dark' or 'light' from the preference; other themes pass through; the result is never 'system' |
| Settings.ResolveThemeIdempotent | src/context/SettingsContext.js:34-37 | resolving a resolved theme changes nothing |

## Left out

- The internals of `tricklens-js` (palette tables, RGB mixing, effects, montages): its source is not part of this model. Its operations are arbitrary functions.
- The palette table of the sibling repository (src/components/PaletteSelector.js:3): not part of this model. The lookup `palettes[paletteId]` is folded into `applyPalette`.
- Bitmap and canvas I/O: `createImageBitmap`, `OffscreenCanvas`, `drawImage` blending, image smoothing and `getImageData`. Only geometry and buffer arithmetic are modelled. `ConvertFrameToData` starts from the RGBA buffer `getImageData` returns.
- PhotoRenderer.Render: the `ImageData` constructor is modelled only by its size check. A failing `createImageBitmap` and the error log in the `catch` are not modelled.
- Export and share plumbing: `convertToBlob`, download links, object URLs and the Web Share API. `Date.now()` is the `timestamp` parameter. JPEG quality is an opaque number.
- Persistence and DOM: localStorage writes, `matchMedia` listeners and `FileReader`. Storage reads and the colour-scheme preference are parameters.
- PhotoRenderer.DisplayDims: display sizes use exact reals, where the browser multiplies doubles. The HTML reflection rule that replaces a canvas size above 2^31−1 with the default (300 or 150) is not modelled. Neither arises at the application's scales (1 to 4, 0.4, 0.2).
- EffectApplier.DialogEffectOnSinglePhoto: EditModal.js:35 hands its `effect` value to `Photo`, which does not read it, and no shown file calls `useEffectApplier`; the wiring from the dialog to the hook is therefore not modelled, only the hook's behaviour on values of the dialog's form.
- React lifecycle: async effects, dependency arrays, state batching and stale closures. The drawer's state updates take effect at once.
- CanvasDrawer.DrawOnCanvas: takes canvas coordinates already scaled from the client rectangle. It assumes the photo buffer holds at least 128·112 entries. A shorter JavaScript array would grow with holes, and that is not modelled. The brush size is a whole number; fractional and NaN sizes are not modelled.
- PhotoExporter.FormattedUsername: lowercases ASCII letters only. Other characters keep their case. Whitespace is the full `\s` class.
- MontageUtils.AvailableMontageTypes: the count is a whole number or missing. NaN and fractional counts are not modelled.
- Settings.InitialSettings: stored values are null, booleans, numbers or strings. Stored objects and arrays are not modelled. `Number()` on a string is the `parse` parameter.
- The `usePhotoRenderer` call in src/components/Photo.js:25-31 passes its arguments in a different order from the hook's declared parameters. The model uses the declared parameters, as src/components/PhotoThumb.js:5 calls them, and does not model that call.
- Pure UI and build files (PhotoTile, PaletteSelector, MontageToolbar, SettingsMenu, PhotoControls, EditModal markup, ToolBar, Modal, PhotoThumb markup, Home, app.js, styles.js, webpack.config.js): markup, styling and configuration.
