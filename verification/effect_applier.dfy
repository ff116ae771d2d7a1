/**
 * The effect/montage decision of `useEffectApplier`
 * (src/hooks/useEffectApplier.js), over the library's `applyEffect` and
 * `createMontage`.
 */
module EffectApplier {
  import opened Wrappers
  import opened Images
  import opened TrickLens

  /**
   * What one run of the effect does: the `setEditedImage` calls it makes, in
   * order (`None` is a call with `undefined`), or a `TypeError` when it reads
   * the pixels of a first source that does not exist.
   */
  datatype Outcome = Calls(images: seq<Option<Photo>>) | ThrowsTypeError

  /** JavaScript truthiness of an effect identifier. */
  predicate TruthyEffect(s: Option<string>) {
    s.Some? && s.value != ""
  }

  /** The effect is the explicit identifier "none". */
  predicate IsNone(s: Option<string>) {
    s == Some("none")
  }

  /** A montage is made from more than one source unless the layout is "none". */
  predicate IsMontage(sources: seq<Photo>, montageType: Option<string>) {
    |sources| > 1 && !IsNone(montageType)
  }

  /** The sources' pixel buffers, in order. */
  function AllPixels(sources: seq<Photo>): (bufs: seq<seq<int>>)
    ensures |bufs| == |sources|
    ensures forall i :: 0 <= i < |sources| ==> bufs[i] == sources[i].pixels
  {
    seq(|sources|, i requires 0 <= i < |sources| => sources[i].pixels)
  }

  /**
   * One run of the effect. `editImage` is the list of sources (`None` when
   * absent); `editedPresent` is the truthiness of the current edited image.
   */
  function ApplyEffects(lib: Library, editImage: Option<seq<Photo>>, editedPresent: bool,
                        effect: Option<string>, montageType: Option<string>): (r: Outcome)
    ensures editImage.None? ==> r == Calls([])
    ensures r.Calls? ==> |r.images| <= 1
    ensures r.Calls? && |r.images| == 1 && r.images[0].Some? ==> editImage.Some? && |editImage.value| > 0
    ensures r.Calls? && |r.images| == 1 && r.images[0].Some? && editImage.Some? && |editImage.value| > 0 ==>
              r.images[0].value == editImage.value[0].(pixels := r.images[0].value.pixels)
    ensures editImage.Some? && !IsMontage(editImage.value, montageType) && !TruthyEffect(effect) ==> r == Calls([])
  {
    if editImage.None? then Calls([])
    else
      var sources := editImage.value;
      var isMontage := IsMontage(sources, montageType);
      var applies := (editedPresent && TruthyEffect(effect) && !IsNone(effect)) || isMontage;
      var resets := IsNone(effect) && !isMontage;
      if applies && |sources| == 0 then ThrowsTypeError
      else
        var applied :=
          if applies then
            var base := if isMontage then lib.createMontage(AllPixels(sources), montageType) else sources[0].pixels;
            [Some(sources[0].(pixels := lib.applyEffect(base, effect)))]
          else [];
        var reset := if resets then [if |sources| > 0 then Some(sources[0]) else None] else [];
        Calls(applied + reset)
  }

  /**
   * The decision table: no sources, no update; a montage applies the effect
   * (even "none") to the montage of every source in order; a real effect on
   * a single source applies it to the first source; effect "none" without a
   * montage resets to the first source; a falsy effect without a montage does
   * nothing. Every update keeps the first source's other fields, and at most
   * one update happens.
   */
  lemma ApplyEffectsDecisions(lib: Library, editImage: Option<seq<Photo>>, editedPresent: bool,
                              effect: Option<string>, montageType: Option<string>)
    ensures var r := ApplyEffects(lib, editImage, editedPresent, effect, montageType);
            && (editImage.None? ==> r == Calls([]))
            && (r.Calls? ==> |r.images| <= 1)
            && (r.ThrowsTypeError? <==>
                  editImage.Some? && |editImage.value| == 0 && editedPresent && TruthyEffect(effect) && !IsNone(effect))
            && (editImage.Some? && IsMontage(editImage.value, montageType) ==>
                  var s := editImage.value;
                  r == Calls([Some(s[0].(pixels := lib.applyEffect(lib.createMontage(AllPixels(s), montageType), effect)))]))
            && (editImage.Some? && |editImage.value| >= 1 && !IsMontage(editImage.value, montageType)
                && editedPresent && TruthyEffect(effect) && !IsNone(effect) ==>
                  var s := editImage.value;
                  r == Calls([Some(s[0].(pixels := lib.applyEffect(s[0].pixels, effect)))]))
            && (editImage.Some? && !IsMontage(editImage.value, montageType) && IsNone(effect) ==>
                  r == Calls([if |editImage.value| > 0 then Some(editImage.value[0]) else None]))
            && (editImage.Some? && !IsMontage(editImage.value, montageType) && !TruthyEffect(effect) ==> r == Calls([]))
            && (editImage.Some? && !IsMontage(editImage.value, montageType) && !editedPresent && !IsNone(effect) ==>
                  r == Calls([]))
  {
  }

  /** The effect value the edit dialog passes on: `null` for "none", the id otherwise. */
  function DialogEffect(e: Effect): (v: Option<string>)
    ensures v.None? <==> e == NoEffect
    ensures v.Some? ==> TruthyEffect(v) && !IsNone(v) && ParseEffect(v.value) == Some(e)
  {
    ParseEffectId(e);
    if e == NoEffect then None else Some(e.Id())
  }

  /**
   * For an effect value of the form the edit dialog produces (`null` for
   * "none", the id otherwise) on a single photo that is being edited: `null`
   * makes no update (an earlier effect is not undone); every other effect is
   * applied to the photo. Which component hands the dialog's value to the
   * hook is not part of this model.
   */
  lemma DialogEffectOnSinglePhoto(lib: Library, photo: Photo, e: Effect, montageType: Option<string>)
    ensures var r := ApplyEffects(lib, Some([photo]), true, DialogEffect(e), montageType);
            && (e == NoEffect ==> r == Calls([]))
            && (e != NoEffect ==> r == Calls([Some(photo.(pixels := lib.applyEffect(photo.pixels, Some(e.Id()))))]))
  {
  }
}
