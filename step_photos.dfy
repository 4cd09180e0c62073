/**
 * The photo step of the listing wizard
 * (frontend/src/pages/PropertyCreate/steps/StepPhotos.tsx): picked files
 * become preview URLs appended to the draft's photos, and the cross on a
 * preview removes that one. `URL.createObjectURL` is the parameter `urlOf`.
 */
module StepPhotos {
  import opened Wrappers
  import opened Wizard

  /** `d.photos || []`: a missing list reads as empty. */
  function Photos(d: Draft): seq<string> {
    if d.photos.Some? then d.photos.value else []
  }

  /** `onFiles`: no selection changes nothing; otherwise one URL per file, in order, after the existing photos. */
  function OnFiles(d: Draft, files: seq<FileRef>, urlOf: FileRef -> string): (r: Draft)
    ensures files == [] ==> r == d
    ensures files != [] ==>
      && r.(photos := d.photos) == d
      && r.photos.Some? && |r.photos.value| == |Photos(d)| + |files|
      && r.photos.value[..|Photos(d)|] == Photos(d)
      && forall j :: 0 <= j < |files| ==> r.photos.value[|Photos(d)| + j] == urlOf(files[j])
  {
    if files == [] then d
    else
      var urls := seq(|files|, j requires 0 <= j < |files| => urlOf(files[j]));
      d.(photos := Some(Photos(d) + urls))
  }

  /** `photos.filter((_, i) => i !== idx)`: every photo but the one at `idx`, in order. */
  function Remove(d: Draft, idx: int): (r: Draft)
    ensures r.(photos := d.photos) == d && r.photos.Some?
    ensures 0 <= idx < |Photos(d)| ==> r.photos.value == Photos(d)[..idx] + Photos(d)[idx + 1..]
    ensures !(0 <= idx < |Photos(d)|) ==> r.photos.value == Photos(d)
  {
    d.(photos := Some(DropIndex(Photos(d), idx, 0)))
  }

  /** The elements of `s[from..]` whose index is not `idx`. */
  function DropIndex(s: seq<string>, idx: int, from: nat): (r: seq<string>)
    requires from <= |s|
    ensures from <= idx < |s| ==> r == s[from..idx] + s[idx + 1..]
    ensures !(from <= idx < |s|) ==> r == s[from..]
    decreases |s| - from
  {
    if from == |s| then []
    else if from == idx then DropIndex(s, idx, from + 1)
    else [s[from]] + DropIndex(s, idx, from + 1)
  }

  /** Removing a valid index shortens the list by one and keeps the other photos in order. */
  lemma RemoveValid(d: Draft, i: nat)
    requires i < |Photos(d)|
    ensures |Photos(Remove(d, i))| == |Photos(d)| - 1
    ensures forall j :: 0 <= j < i ==> Photos(Remove(d, i))[j] == Photos(d)[j]
    ensures forall j :: i <= j < |Photos(d)| - 1 ==> Photos(Remove(d, i))[j] == Photos(d)[j + 1]
  {
  }

  /** Removing the preview of a photo just added gives back the photos that were there. */
  lemma RemoveUndoesOnFiles(d: Draft, f: FileRef, urlOf: FileRef -> string)
    ensures Photos(Remove(OnFiles(d, [f], urlOf), |Photos(d)|)) == Photos(d)
  {
    var s := Photos(OnFiles(d, [f], urlOf));
    assert s[..|Photos(d)|] == Photos(d);
  }
}
