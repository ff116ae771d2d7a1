/** Which montage layouts are offered for a number of photos (src/utils/montageUtils.js). */
module MontageUtils {
  import opened Wrappers

  /** The layout names the montage toolbar can offer. */
  datatype MontageType =
    | NoMontage | Vertical | Horizontal | Quadrant | HorizontalTwoThirds | Border
    | HorizontalBars | FourQuadrant
  {
    /** The layout's identifier as passed to `createMontage`. */
    function Id(): string {
      match this
      case NoMontage => "none"
      case Vertical => "vertical"
      case Horizontal => "horizontal"
      case Quadrant => "quadrant"
      case HorizontalTwoThirds => "horizontal-2/3"
      case Border => "border"
      case HorizontalBars => "horizontal-bars"
      case FourQuadrant => "four-quadrant"
    }
  }

  /** The layout an identifier names, if any. */
  function ParseMontageType(s: string): (m: Option<MontageType>)
    ensures m.Some? ==> m.value.Id() == s
  {
    if s == "none" then Some(NoMontage)
    else if s == "vertical" then Some(Vertical)
    else if s == "horizontal" then Some(Horizontal)
    else if s == "quadrant" then Some(Quadrant)
    else if s == "horizontal-2/3" then Some(HorizontalTwoThirds)
    else if s == "border" then Some(Border)
    else if s == "horizontal-bars" then Some(HorizontalBars)
    else if s == "four-quadrant" then Some(FourQuadrant)
    else None
  }

  /** Every layout's identifier parses back to that layout, so identifiers are distinct. */
  lemma ParseMontageTypeId(m: MontageType)
    ensures ParseMontageType(m.Id()) == Some(m)
  {
  }

  /** The layouts offered for any positive number of photos, in order. */
  const BaseLayouts: seq<MontageType> :=
    [NoMontage, Vertical, Horizontal, Quadrant, HorizontalTwoThirds, Border]

  /**
   * `getAvailableMontageTypes`. `None` is a missing count; a count of zero or
   * less offers nothing.
   */
  function AvailableMontageTypes(numPhotos: Option<int>): (r: seq<MontageType>)
    ensures numPhotos.None? || numPhotos.value <= 0 <==> r == []
    ensures numPhotos.Some? && numPhotos.value >= 1 ==> |r| >= 6 && r[..6] == BaseLayouts
    ensures HorizontalBars in r <==> numPhotos.Some? && numPhotos.value > 1
    ensures FourQuadrant in r <==> numPhotos.Some? && numPhotos.value > 2
    ensures |r| == (if numPhotos.None? || numPhotos.value <= 0 then 0
                    else if numPhotos.value == 1 then 6
                    else if numPhotos.value == 2 then 7
                    else 8)
  {
    if numPhotos.None? || numPhotos.value <= 0 then []
    else
      var n := numPhotos.value;
      var withBars := BaseLayouts + (if n > 1 then [HorizontalBars] else []);
      withBars + (if n > 2 then [FourQuadrant] else [])
  }

  /** No layout is offered twice, and four-quadrant comes after horizontal-bars. */
  lemma AvailableMontageTypesDistinct(numPhotos: Option<int>)
    ensures var r := AvailableMontageTypes(numPhotos);
            && (forall i, j :: 0 <= i < j < |r| ==> r[i] != r[j])
            && (forall j :: 0 <= j < |r| && r[j] == FourQuadrant ==>
                  exists i :: 0 <= i < j && r[i] == HorizontalBars)
  {
    var r := AvailableMontageTypes(numPhotos);
    if |r| == 8 {
      assert r[6] == HorizontalBars;
    }
  }

  /** Offering layouts for more photos only appends: fewer photos give a prefix. */
  lemma AvailableMontageTypesMonotone(n: int, m: int)
    requires 1 <= n <= m
    ensures AvailableMontageTypes(Some(n)) <= AvailableMontageTypes(Some(m))
  {
  }
}
