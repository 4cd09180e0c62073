/**
 * The documents step of the listing wizard
 * (frontend/src/pages/PropertyCreate/steps/StepDocuments.tsx): the
 * check-box lists of documents and utilities, toggled through a JavaScript
 * `Set`, and the list of floor-plan files with its add and remove buttons.
 */
module StepDocuments {
  import opened Wrappers
  import opened Wizard

  predicate NoDuplicates(s: seq<string>) {
    forall i, j :: 0 <= i < j < |s| ==> s[i] != s[j]
  }

  /** `Array.from(new Set(s))`: each element once, where it first occurs. */
  function Distinct(s: seq<string>): (r: seq<string>)
    ensures NoDuplicates(r)
    ensures forall x :: x in r <==> x in s
    ensures |r| <= |s|
  {
    if s == [] then []
    else
      var init := Distinct(s[..|s| - 1]);
      assert forall x :: x in s <==> x in s[..|s| - 1] || x == s[|s| - 1] by {
        assert s == s[..|s| - 1] + [s[|s| - 1]];
      }
      if s[|s| - 1] in init then init else init + [s[|s| - 1]]
  }

  /** A list that repeats nothing is its own `Set`. */
  lemma {:induction false} DistinctOfDistinct(s: seq<string>)
    requires NoDuplicates(s)
    ensures Distinct(s) == s
  {
    if s != [] {
      var init := s[..|s| - 1];
      assert NoDuplicates(init);
      DistinctOfDistinct(init);
      assert s[|s| - 1] !in init;
      assert init + [s[|s| - 1]] == s;
    }
  }

  /** `set.delete(v)` on the array form of a set: `v` is taken out, the rest keep their order. */
  function Without(s: seq<string>, v: string): (r: seq<string>)
    ensures forall x :: x in r <==> x in s && x != v
    ensures NoDuplicates(s) ==> NoDuplicates(r)
    ensures |r| <= |s|
  {
    if s == [] then []
    else
      var rest := Without(s[1..], v);
      assert forall x :: x in s <==> x == s[0] || x in s[1..] by {
        assert s == [s[0]] + s[1..];
      }
      if s[0] == v then rest
      else
        var r := [s[0]] + rest;
        assert NoDuplicates(s) ==> NoDuplicates(r) by {
          if NoDuplicates(s) {
            assert NoDuplicates(s[1..]) by {
              forall i, j | 0 <= i < j < |s[1..]| ensures s[1..][i] != s[1..][j] {
                assert s[1..][i] == s[i + 1] && s[1..][j] == s[j + 1];
              }
            }
            assert s[0] !in s[1..];
            forall i, j | 0 <= i < j < |r| ensures r[i] != r[j] {
              assert r[j] == rest[j - 1];
              if i > 0 { assert r[i] == rest[i - 1]; }
            }
          }
        }
        r
  }

  /**
   * `toggle(arr, v)`: a missing list reads as empty; repeated entries
   * collapse; `v` is removed if present, and appended at the end if absent.
   */
  function Toggle(arr: Option<seq<string>>, v: string): (r: seq<string>)
    ensures NoDuplicates(r)
    ensures v in r <==> !(arr.Some? && v in arr.value)
    ensures forall x :: x != v ==> (x in r <==> arr.Some? && x in arr.value)
  {
    var current := Distinct(if arr.Some? then arr.value else []);
    if v in current then Without(current, v)
    else
      assert forall i :: 0 <= i < |current| ==> current[i] != v;
      current + [v]
  }

  /** A box ticked twice is back as it was, and nothing else moved in or out. */
  lemma ToggleTwice(arr: Option<seq<string>>, v: string, x: string)
    ensures x in Toggle(Some(Toggle(arr, v)), v) <==> arr.Some? && x in arr.value
  {
  }

  /** Ticking an absent box appends it after the ticked ones, whose order is kept. */
  lemma ToggleAppends(arr: seq<string>, v: string)
    requires NoDuplicates(arr) && v !in arr
    ensures Toggle(Some(arr), v) == arr + [v]
  {
    DistinctOfDistinct(arr);
  }

  /** `value.planFile ?? []`. */
  function PlanFiles(d: Draft): seq<FileRef> {
    if d.planFile.Some? then d.planFile.value else []
  }

  /** `onFiles`: no selection changes nothing; otherwise the files are added after the existing plans, in order. */
  function OnFiles(d: Draft, files: seq<FileRef>): (r: Draft)
    ensures files == [] ==> r == d
    ensures files != [] ==> r.planFile == Some(PlanFiles(d) + files) && r.(planFile := d.planFile) == d
  {
    if files == [] then d else d.(planFile := Some(PlanFiles(d) + files))
  }

  /**
   * `next.splice(idx, 1)` on a copy: a negative index counts from the end
   * (and is clamped at 0), an index at or past the end removes nothing.
   */
  function Splice1<T>(s: seq<T>, idx: int): (r: seq<T>)
    ensures var start := if idx < 0 then (if |s| + idx < 0 then 0 else |s| + idx) else idx;
      if start < |s| then |r| == |s| - 1
        && (forall j :: 0 <= j < start ==> r[j] == s[j])
        && (forall j :: start <= j < |r| ==> r[j] == s[j + 1])
      else r == s
  {
    var start := if idx < 0 then (if |s| + idx < 0 then 0 else |s| + idx) else idx;
    if start < |s| then s[..start] + s[start + 1..] else s
  }

  /** `removeAt(idx)`: the plan list without the entry at `idx`; the other fields are untouched. */
  function RemoveAt(d: Draft, idx: int): (r: Draft)
    ensures r.planFile == Some(Splice1(PlanFiles(d), idx))
    ensures r.(planFile := d.planFile) == d
  {
    d.(planFile := Some(Splice1(PlanFiles(d), idx)))
  }

  /** Removing a plan just added, by its index, gives back the plans that were there. */
  lemma RemoveAtUndoesOnFiles(d: Draft, f: FileRef)
    ensures RemoveAt(OnFiles(d, [f]), |PlanFiles(d)|).planFile == Some(PlanFiles(d))
  {
    var s := PlanFiles(d) + [f];
    assert Splice1(s, |PlanFiles(d)|) == PlanFiles(d);
  }

  /** Removing a valid index takes exactly one plan out and keeps the order of the rest. */
  lemma RemoveAtValid(d: Draft, i: nat)
    requires i < |PlanFiles(d)|
    ensures |PlanFiles(RemoveAt(d, i))| == |PlanFiles(d)| - 1
    ensures PlanFiles(RemoveAt(d, i)) == PlanFiles(d)[..i] + PlanFiles(d)[i + 1..]
  {
    var s, r := PlanFiles(d), PlanFiles(RemoveAt(d, i));
    assert r == s[..i] + s[i + 1..];
  }
}
