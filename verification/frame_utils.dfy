/** Border geometry of a decorative frame (src/utils/frameUtils.js). */
module FrameUtils {
  import opened Wrappers
  import opened Images

  /**
   * A loaded frame: its file name, raster size and 5-value index data
   * (0 white, 1 light gray, 2 dark gray, 3 black, 4 transparent).
   */
  datatype Frame = Frame(name: string, width: int, height: int, data: seq<Byte>)

  /** Space, in photo pixels, between the photo and each edge of the composite. */
  datatype Offsets = Offsets(top: int, bottom: int, left: int, right: int)

  /** Border of a standard frame on every side. */
  const StandardBorder: int := 16
  /** Top and bottom borders of a "wild" frame; its sides are standard. */
  const WildTop: int := 40
  const WildBottom: int := 72
  /** Tag in a frame name that selects the wild geometry. */
  const WildTag: string := "wild"

  /** `sub` occurs in `s` starting at position `i`. */
  predicate OccursAt(s: string, sub: string, i: int) {
    0 <= i && i + |sub| <= |s| && s[i..i + |sub|] == sub
  }

  /** `sub` occurs in `s` as a contiguous run, at some position. */
  ghost predicate OccursIn(s: string, sub: string) {
    exists i :: OccursAt(s, sub, i)
  }

  /** `String.prototype.includes`, scanning start positions left to right. */
  function Includes(s: string, sub: string): (r: bool)
    ensures r <==> OccursIn(s, sub)
    decreases |s|
  {
    if |sub| > |s| then
      assert forall i :: !OccursAt(s, sub, i);
      false
    else if s[..|sub|] == sub then
      assert OccursAt(s, sub, 0);
      true
    else
      var r := Includes(s[1..], sub);
      if r then
        var i :| OccursAt(s[1..], sub, i);
        assert OccursAt(s, sub, i + 1);
        r
      else
        assert forall i :: OccursAt(s, sub, i) ==> i >= 1 && OccursAt(s[1..], sub, i - 1);
        r
  }

  /** The frame is a "wild" frame: its name contains the tag, case-sensitively. */
  predicate IsWild(frame: Frame) {
    Includes(frame.name, WildTag)
  }

  /** `getFrameOffsets`: the border around the photo for the given frame, if any. */
  function GetFrameOffsets(frame: Option<Frame>): (o: Offsets)
    ensures frame.None? ==> o == Offsets(0, 0, 0, 0)
    ensures frame.Some? && OccursIn(frame.value.name, WildTag) ==> o == Offsets(40, 72, 16, 16)
    ensures frame.Some? && !OccursIn(frame.value.name, WildTag) ==> o == Offsets(16, 16, 16, 16)
    ensures o.left == o.right
    ensures o.top >= 0 && o.bottom >= 0 && o.left >= 0 && o.right >= 0
  {
    if frame.None? then Offsets(0, 0, 0, 0)
    else if IsWild(frame.value) then Offsets(WildTop, WildBottom, StandardBorder, StandardBorder)
    else Offsets(StandardBorder, StandardBorder, StandardBorder, StandardBorder)
  }
}
