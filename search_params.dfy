/**
 * A `URLSearchParams` value: the ordered list of name/value pairs of a query
 * string, with the standard's `get`, `set` and `delete` operations.
 */
module SearchParams {
  import opened Wrappers

  type Params = seq<(string, string)>

  /** The names present in the query. */
  function Names(p: Params): set<string> {
    set i | 0 <= i < |p| :: p[i].0
  }

  lemma NamesCons(x: (string, string), q: Params)
    ensures Names([x] + q) == {x.0} + Names(q)
  {
    var r := [x] + q;
    forall n | n in Names(r) ensures n in {x.0} + Names(q) {
      var i :| 0 <= i < |r| && r[i].0 == n;
      if i > 0 { assert q[i - 1] == r[i]; }
    }
    forall n | n in Names(q) ensures n in Names(r) {
      var i :| 0 <= i < |q| && q[i].0 == n;
      assert r[i + 1] == q[i];
    }
    assert r[0] == x;
  }

  /** `get(name)`: the value of the first pair with that name, or null. */
  function Get(p: Params, name: string): (r: Option<string>)
    ensures r.Some? <==> name in Names(p)
  {
    if p == [] then None
    else if p[0].0 == name then Some(p[0].1)
    else
      assert p == [p[0]] + p[1..];
      NamesCons(p[0], p[1..]);
      Get(p[1..], name)
  }

  /** `delete(name)`: removes every pair with that name and keeps the others in order. */
  function Delete(p: Params, name: string): (r: Params)
    ensures Names(r) == Names(p) - {name}
    ensures forall other :: other != name ==> Get(r, other) == Get(p, other)
  {
    if p == [] then []
    else
      assert p == [p[0]] + p[1..];
      NamesCons(p[0], p[1..]);
      if p[0].0 == name then Delete(p[1..], name)
      else
        var r := [p[0]] + Delete(p[1..], name);
        NamesCons(p[0], Delete(p[1..], name));
        r
  }

  /**
   * `set(name, value)`: the first pair with that name takes the new value and
   * the later ones are removed; without such a pair, one is appended.
   */
  function Set(p: Params, name: string, value: string): (r: Params)
    ensures Names(r) == Names(p) + {name}
    ensures Get(r, name) == Some(value)
    ensures forall other :: other != name ==> Get(r, other) == Get(p, other)
    ensures name !in Names(p) ==> r == p + [(name, value)]
  {
    if p == [] then
      NamesCons((name, value), []);
      [(name, value)]
    else
      assert p == [p[0]] + p[1..];
      NamesCons(p[0], p[1..]);
      if p[0].0 == name then
        var r := [(name, value)] + Delete(p[1..], name);
        NamesCons((name, value), Delete(p[1..], name));
        r
      else
        var r := [p[0]] + Set(p[1..], name, value);
        NamesCons(p[0], Set(p[1..], name, value));
        r
  }

  /** The value of the last pair with that name, or null. */
  function LastGet(p: Params, name: string): Option<string> {
    if p == [] then None
    else if p[|p| - 1].0 == name then Some(p[|p| - 1].1)
    else LastGet(p[..|p| - 1], name)
  }

  /**
   * `new URLSearchParams(Object.fromEntries(p))`: one pair per name, in the
   * order the names first appear, holding the value of the name's last pair.
   */
  function FromEntries(p: Params): Params {
    if p == [] then []
    else Set(FromEntries(p[..|p| - 1]), p[|p| - 1].0, p[|p| - 1].1)
  }

  /** Collapsing keeps every name, and each name reads the value its last pair had. */
  lemma {:induction false} FromEntriesSpec(p: Params)
    ensures Names(FromEntries(p)) == Names(p)
    ensures forall name :: Get(FromEntries(p), name) == LastGet(p, name)
  {
    if p != [] {
      var q := p[..|p| - 1];
      FromEntriesSpec(q);
      assert p == q + [p[|p| - 1]];
      assert Names(p) == Names(q) + {p[|p| - 1].0} by {
        forall n | n in Names(p) ensures n in Names(q) + {p[|p| - 1].0} {
          var i :| 0 <= i < |p| && p[i].0 == n;
          if i < |p| - 1 { assert q[i] == p[i]; }
        }
        forall n | n in Names(q) ensures n in Names(p) {
          var i :| 0 <= i < |q| && q[i].0 == n;
          assert p[i] == q[i];
        }
      }
    }
  }
}
