/**
 * The infinite feeds of the Showings page and the Objects page share two
 * pieces: `mergeById`, which appends a loaded page to the items already shown
 * while skipping every item whose `String(id)` is already present, and the
 * load guard with its `items`/`page`/`hasMore`/`loading`/`error` state.
 */
module Feed {
  import opened Wrappers
  import opened Text

  /** An item id as the server sends it: a number or a string. */
  datatype Id = NumId(n: int) | StrId(s: string) {
    /** `String(id)`, the key the feeds de-duplicate by. */
    function Key(): string {
      match this
      case NumId(n) => IntToString(n)
      case StrId(s) => s
    }

    /** `!!id`: 0 and "" are falsy. */
    predicate Truthy() {
      match this
      case NumId(n) => n != 0
      case StrId(s) => s != ""
    }
  }

  /** The `String(id)` values of a list of items. */
  function Keys<T>(items: seq<T>, key: T -> string): set<string> {
    set i | 0 <= i < |items| :: key(items[i])
  }

  /** Whether `next[j]` is appended: its key is neither in `prev` nor earlier in `next`. */
  predicate IsNew<T>(prev: seq<T>, next: seq<T>, key: T -> string, j: nat)
    requires j < |next|
  {
    key(next[j]) !in Keys(prev, key) + Keys(next[..j], key)
  }

  predicate DistinctKeys<T>(items: seq<T>, key: T -> string) {
    forall i, j :: 0 <= i < j < |items| ==> key(items[i]) != key(items[j])
  }

  /** The result of `mergeById(prev, next)`, defined one item of `next` at a time. */
  function Merged<T>(prev: seq<T>, next: seq<T>, key: T -> string): seq<T> {
    if next == [] then prev
    else
      var m := Merged(prev, next[..|next| - 1], key);
      var last := next[|next| - 1];
      if key(last) in Keys(m, key) then m else m + [last]
  }

  lemma KeysAppend<T>(items: seq<T>, x: T, key: T -> string)
    ensures Keys(items + [x], key) == Keys(items, key) + {key(x)}
  {
    var r := items + [x];
    forall k | k in Keys(r, key) ensures k in Keys(items, key) + {key(x)} {
      var i :| 0 <= i < |r| && key(r[i]) == k;
      if i < |items| { assert r[i] == items[i]; }
    }
    forall k | k in Keys(items, key) ensures k in Keys(r, key) {
      var i :| 0 <= i < |items| && key(items[i]) == k;
      assert r[i] == items[i];
    }
    assert r[|items|] == x;
  }

  /**
   * `mergeById`: copies `prev`, then walks `next`, pushing each item whose id
   * is not yet in the `seen` set and adding that id to the set.
   */
  method MergeById<T>(prev: seq<T>, next: seq<T>, key: T -> string) returns (out: seq<T>)
    ensures out == Merged(prev, next, key)
  {
    var seen := set i | 0 <= i < |prev| :: key(prev[i]);
    out := prev;
    for j := 0 to |next|
      invariant seen == Keys(out, key)
      invariant out == Merged(prev, next[..j], key)
    {
      assert next[..j + 1][..j] == next[..j];
      var id := key(next[j]);
      if id !in seen {
        KeysAppend(out, next[j], key);
        seen := seen + {id};
        out := out + [next[j]];
      }
    }
    assert next[..|next|] == next;
  }

  /** `prev` is kept as the prefix of the result, and at most |next| items are added. */
  lemma {:induction false} MergedKeepsPrefix<T>(prev: seq<T>, next: seq<T>, key: T -> string)
    ensures |prev| <= |Merged(prev, next, key)| <= |prev| + |next|
    ensures Merged(prev, next, key)[..|prev|] == prev
  {
    if next != [] {
      MergedKeepsPrefix(prev, next[..|next| - 1], key);
    }
  }

  /** The ids of the result are exactly those of `prev` and of `next`. */
  lemma {:induction false} MergedKeys<T>(prev: seq<T>, next: seq<T>, key: T -> string)
    ensures Keys(Merged(prev, next, key), key) == Keys(prev, key) + Keys(next, key)
  {
    if next != [] {
      var init := next[..|next| - 1];
      var last := next[|next| - 1];
      MergedKeys(prev, init, key);
      assert next == init + [last];
      KeysAppend(init, last, key);
      var m := Merged(prev, init, key);
      if key(last) !in Keys(m, key) {
        KeysAppend(m, last, key);
      }
    }
  }

  /** If the ids already shown are pairwise distinct, so are the ids after the merge. */
  lemma {:induction false} MergedDistinct<T>(prev: seq<T>, next: seq<T>, key: T -> string)
    requires DistinctKeys(prev, key)
    ensures DistinctKeys(Merged(prev, next, key), key)
  {
    if next != [] {
      var init := next[..|next| - 1];
      var last := next[|next| - 1];
      MergedDistinct(prev, init, key);
      var m := Merged(prev, init, key);
      if key(last) !in Keys(m, key) {
        var r := m + [last];
        forall i, j | 0 <= i < j < |r| ensures key(r[i]) != key(r[j]) {
          if j == |m| {
            assert key(r[i]) in Keys(m, key) by { assert r[i] == m[i]; }
          } else {
            assert r[i] == m[i] && r[j] == m[j];
          }
        }
      }
    }
  }

  /**
   * The appended part of the result is the subsequence of `next` made of
   * exactly the items that are new (their id is not in `prev` nor earlier in
   * `next`), in their order in `next`: `idx` lists their positions.
   */
  lemma {:induction false} MergedAppendsNewInOrder<T>(prev: seq<T>, next: seq<T>, key: T -> string)
    returns (idx: seq<nat>)
    ensures |Merged(prev, next, key)| == |prev| + |idx|
    ensures forall t :: 0 <= t < |idx| ==> idx[t] < |next| && Merged(prev, next, key)[|prev| + t] == next[idx[t]]
    ensures forall t, u :: 0 <= t < u < |idx| ==> idx[t] < idx[u]
    ensures forall j :: 0 <= j < |next| ==> (j in idx <==> IsNew(prev, next, key, j))
  {
    if next == [] {
      return [];
    }
    var init := next[..|next| - 1];
    var last := next[|next| - 1];
    var j0 := |next| - 1;
    idx := MergedAppendsNewInOrder(prev, init, key);
    var m := Merged(prev, init, key);
    MergedKeys(prev, init, key);
    assert next[..j0] == init;
    forall j | 0 <= j < j0 ensures IsNew(prev, next, key, j) == IsNew(prev, init, key, j) {
      assert next[j] == init[j];
      assert next[..j] == init[..j];
    }
    if key(last) in Keys(m, key) {
      assert !IsNew(prev, next, key, j0);
    } else {
      assert IsNew(prev, next, key, j0);
      idx := idx + [j0];
    }
  }

  /** How a load ended: a page of results and the `next` link, or an error. */
  datatype LoadOutcome<T> =
    | Loaded(results: Option<seq<T>>, next: Option<string>)
    | NotOk(text: string)
    | Thrown(message: Option<string>)

  /**
   * The message stored for a failed load: a non-ok response throws its text
   * (or a default), and the catch keeps any string message, else "Ошибка".
   */
  function ErrorText<T>(outcome: LoadOutcome<T>): (msg: string)
    requires !outcome.Loaded?
    ensures outcome.NotOk? && outcome.text != "" ==> msg == outcome.text
    ensures outcome.NotOk? && outcome.text == "" ==> msg == "Ошибка загрузки"
    ensures outcome.Thrown? && outcome.message.Some? ==> msg == outcome.message.value
    ensures outcome.Thrown? && outcome.message.None? ==> msg == "Ошибка"
    ensures msg == "" <==> outcome == Thrown(Some(""))
  {
    match outcome
    case NotOk(text) => if text != "" then text else "Ошибка загрузки"
    case Thrown(message) => message.GetOr("Ошибка")
  }

  /** The state of one feed: the items shown, the page to load, and the load flags. */
  class FeedLoader<T> {
    const key: T -> string
    var items: seq<T>
    var page: int
    var hasMore: bool
    var loading: bool
    var error: Option<string>

    constructor (key: T -> string)
      ensures this.key == key
      ensures items == [] && page == 1 && hasMore && !loading && error == None
    {
      this.key := key;
      items := [];
      page := 1;
      hasMore := true;
      loading := false;
      error := None;
    }

    /** The reset effect run when the tab, preset, filters or category change. */
    method Reset()
      modifies this
      ensures items == [] && page == 1 && hasMore && error == None && loading == old(loading)
    {
      items := [];
      page := 1;
      hasMore := true;
      error := None;
    }

    /** "Показать ещё": `setPage(p => p + 1)`, a button disabled while loading or when nothing is left. */
    method NextPage()
      modifies this
      ensures page == if old(hasMore) && !old(loading) then old(page) + 1 else old(page)
      ensures items == old(items) && hasMore == old(hasMore) && loading == old(loading) && error == old(error)
    {
      if hasMore && !loading {
        page := page + 1;
      }
    }

    /**
     * The guard at the top of `load`/`loadPage`: without `force`, nothing
     * happens while a load runs or when there is nothing more; otherwise the
     * load starts, setting `loading` and clearing the error.
     */
    method Start(force: bool) returns (go: bool)
      modifies this
      ensures go <==> force || (!old(loading) && old(hasMore))
      ensures go ==> loading && error == None
      ensures !go ==> loading == old(loading) && error == old(error)
      ensures items == old(items) && page == old(page) && hasMore == old(hasMore)
    {
      if !force && (loading || !hasMore) {
        return false;
      }
      loading := true;
      error := None;
      return true;
    }

    /**
     * The end of a load: a page merges its results into the items and sets
     * `hasMore` to `Boolean(data.next)`; a failure records its message; in
     * every case `loading` drops back to false.
     */
    method Finish(outcome: LoadOutcome<T>)
      modifies this
      ensures !loading && page == old(page)
      ensures outcome.Loaded? ==>
        items == Merged(old(items), outcome.results.GetOr([]), key)
        && hasMore == (outcome.next.Some? && outcome.next.value != "")
        && error == old(error)
      ensures !outcome.Loaded? ==>
        items == old(items) && hasMore == old(hasMore) && error == Some(ErrorText(outcome))
    {
      if outcome.Loaded? {
        items := MergeById(items, outcome.results.GetOr([]), key);
        hasMore := outcome.next.Some? && outcome.next.value != "";
      } else {
        error := Some(ErrorText(outcome));
      }
      loading := false;
    }
  }
}
