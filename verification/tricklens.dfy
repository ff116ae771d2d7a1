/**
 * The interface of the external imaging library the hooks call. Its
 * implementation is not part of this model: each operation is an arbitrary
 * total function supplied by the caller, so every property proved about the
 * hooks holds whatever the library computes.
 */
module TrickLens {
  import opened Wrappers
  import opened Images

  /**
   * - `applyPalette(indices, paletteId, order)`: RGBA bytes for an index buffer;
   *   the lookup `palettes[paletteId]` is folded into it.
   * - `applyRGB(r, g, b, width, height, brightness, contrast)`: RGBA bytes
   *   combining three index buffers as colour channels.
   * - `applyEffect(indices, effect)`: an effect applied to an index buffer.
   * - `createMontage(buffers, layout)`: several index buffers combined into one.
   */
  datatype Library = Library(
    applyPalette: (seq<int>, string, Option<string>) -> seq<Byte>,
    applyRGB: (seq<int>, seq<int>, seq<int>, int, int, real, real) -> seq<Byte>,
    applyEffect: (seq<int>, Option<string>) -> seq<int>,
    createMontage: (seq<seq<int>>, Option<string>) -> seq<int>)

  /** The effects the edit dialog offers. */
  datatype Effect =
    | NoEffect | Invert | MirrorRtl | MirrorLtr | MirrorBtt | MirrorTtb
    | Zoom | ZoomH | ZoomV | Tile
  {
    /** The effect's identifier as passed to `applyEffect`. */
    function Id(): string {
      match this
      case NoEffect => "none"
      case Invert => "invert"
      case MirrorRtl => "mirror-rtl"
      case MirrorLtr => "mirror-ltr"
      case MirrorBtt => "mirror-btt"
      case MirrorTtb => "mirror-ttb"
      case Zoom => "zoom"
      case ZoomH => "zoom-h"
      case ZoomV => "zoom-v"
      case Tile => "tile"
    }
  }

  /** The effect an identifier names, if any. */
  function ParseEffect(s: string): (e: Option<Effect>)
    ensures e.Some? ==> e.value.Id() == s
  {
    if s == "none" then Some(NoEffect)
    else if s == "invert" then Some(Invert)
    else if s == "mirror-rtl" then Some(MirrorRtl)
    else if s == "mirror-ltr" then Some(MirrorLtr)
    else if s == "mirror-btt" then Some(MirrorBtt)
    else if s == "mirror-ttb" then Some(MirrorTtb)
    else if s == "zoom" then Some(Zoom)
    else if s == "zoom-h" then Some(ZoomH)
    else if s == "zoom-v" then Some(ZoomV)
    else if s == "tile" then Some(Tile)
    else None
  }

  /** Every effect's identifier parses back to that effect, so identifiers are distinct. */
  lemma ParseEffectId(e: Effect)
    ensures ParseEffect(e.Id()) == Some(e)
    ensures e.Id() != ""
    ensures e.Id() == "none" <==> e == NoEffect
  {
  }
}
