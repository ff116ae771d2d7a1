/** Shapes shared by the hooks and components: bytes, the photo record, raster sizes. */
module Images {

  /** One element of a `Uint8Array` or `Uint8ClampedArray`. */
  type Byte = x: int | 0 <= x < 256

  /** Resolution of a Game Boy Camera photo. */
  const PhotoWidth: int := 128
  const PhotoHeight: int := 112

  /**
   * A decoded photo as the hooks pass it around. The renderer and the drawer
   * read `photoData`; the effect applier reads and replaces `pixels`. Both are
   * colour-index buffers handed to the imaging library.
   */
  datatype Photo = Photo(
    width: int,
    height: int,
    photoData: seq<int>,
    pixels: seq<int>,
    index: int,
    isDeleted: bool)

  /** Width and height of a canvas. */
  datatype Dims = Dims(width: int, height: int)
}
