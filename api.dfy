/**
 * The front end's API client (frontend/src/lib/api.ts): the base URL, the
 * bearer header, the 401 handler, the login body choice, the numeric
 * normalisation of a property and the query string of the property list.
 *
 * `localStorage` and `window.location` are fields of a `Browser` object; the
 * response that `fetch` would produce is a parameter of each call.
 */
module Api {
  import opened Wrappers
  import opened Text
  import opened Js
  import SP = SearchParams

  predicate IsSlash(c: char) { c == '/' }

  /** BASE: the configured API root with every trailing "/" removed. */
  function Base(configured: string): (b: string)
    ensures StartsWith(configured, b)
    ensures b == [] || b[|b| - 1] != '/'
    ensures forall i :: |b| <= i < |configured| ==> configured[i] == '/'
  {
    DropTrailingSpec(configured, IsSlash);
    DropTrailing(configured, IsSlash)
  }

  lemma BaseIdempotent(configured: string)
    ensures Base(Base(configured)) == Base(configured)
  {
    var b := Base(configured);
    DropTrailingSpec(b, IsSlash);
    if b != [] {
      assert !IsSlash(b[|b| - 1]);
    }
  }

  /** `url(p)`. */
  function Url(base: string, path: string): string { base + path }

  /** `auth()`: the bearer header when a non-empty access token is stored, otherwise no header. */
  function Auth(storage: map<string, string>): (h: map<string, string>)
    ensures h.Keys <= {"Authorization"}
    ensures "Authorization" in h <==> "access" in storage && storage["access"] != ""
    ensures "Authorization" in h ==> h["Authorization"] == "Bearer " + storage["access"]
  {
    if "access" in storage && storage["access"] != "" then
      map["Authorization" := "Bearer " + storage["access"]]
    else
      map[]
  }

  datatype Response = Response(status: int, body: string) {
    /** `res.ok`. */
    predicate Ok() { 200 <= status <= 299 }
  }

  datatype Request = Request(url: string, verb: string, headers: map<string, string>)

  /** The JSON body of the login request. */
  datatype LoginBody =
    | EmailLogin(email: string, password: string)
    | UsernameLogin(username: string, password: string)

  /** The body is keyed by email exactly when the identity contains "@". */
  function LoginBodyFor(identity: string, password: string): (b: LoginBody)
    ensures b.EmailLogin? <==> '@' in identity
    ensures b.password == password
    ensures b.EmailLogin? ==> b.email == identity
    ensures b.UsernameLogin? ==> b.username == identity
  {
    if '@' in identity then EmailLogin(identity, password) else UsernameLogin(identity, password)
  }

  const Unauthorized := "Unauthorized"
  const LoginFailed := "Ошибка при логине"

  /** The browser state the client touches: local storage and the last assigned location. */
  class Browser {
    var storage: map<string, string>
    var location: Option<string>

    constructor (storage: map<string, string>)
      ensures this.storage == storage && location == None
    {
      this.storage := storage;
      location := None;
    }

    /**
     * `handleAuth(res)`: a 401 removes the access token, sends the page to
     * /login and throws; any other response passes through untouched.
     */
    method HandleAuth(res: Response) returns (r: Result<Response, string>)
      modifies this
      ensures res.status == 401 ==>
        r == Err(Unauthorized) && storage == old(storage) - {"access"} && location == Some("/login")
      ensures res.status != 401 ==>
        r == Ok(res) && storage == old(storage) && location == old(location)
    {
      if res.status == 401 {
        storage := storage - {"access"};
        location := Some("/login");
        return Err(Unauthorized);
      }
      return Ok(res);
    }

    /**
     * `login(identity, password)`: posts the chosen body to /auth/login; the
     * 401 handler runs before the `ok` check, so a 401 from login itself
     * clears the access token and redirects. On success the JSON text is returned.
     */
    method Login(base: string, identity: string, password: string, res: Response)
      returns (request: Request, body: LoginBody, r: Result<string, string>)
      modifies this
      ensures request == Request(Url(base, "/auth/login"), "POST", map["Content-Type" := "application/json"])
      ensures body == LoginBodyFor(identity, password)
      ensures res.status == 401 ==>
        r == Err(Unauthorized) && storage == old(storage) - {"access"} && location == Some("/login")
      ensures res.status != 401 ==> storage == old(storage) && location == old(location)
      ensures res.status != 401 ==> r == (if res.Ok() then Ok(res.body) else Err(LoginFailed))
    {
      body := LoginBodyFor(identity, password);
      request := Request(Url(base, "/auth/login"), "POST", map["Content-Type" := "application/json"]);
      var checked := HandleAuth(res);
      if checked.Err? {
        return request, body, Err(checked.error);
      }
      if !res.Ok() {
        return request, body, Err(LoginFailed);
      }
      r := Ok(res.body);
    }
  }

  /**
   * `normalizeProperty(p)`: a string price or area becomes `Number(...)` of
   * it; every other field, and a non-string price or area, is kept.
   */
  function NormalizeProperty(p: Object, toNumber: string -> Num): (r: Object)
    ensures r.Keys == p.Keys + {"price", "area"}
    ensures forall k :: k in p && k != "price" && k != "area" ==> r[k] == p[k]
    ensures forall k :: k in {"price", "area"} && Prop(p, k).Str? ==> r[k] == Number(toNumber(Prop(p, k).s))
    ensures forall k :: k in {"price", "area"} && !Prop(p, k).Str? ==> r[k] == Prop(p, k)
  {
    p["price" := NumericField(Prop(p, "price"), toNumber)]["area" := NumericField(Prop(p, "area"), toNumber)]
  }

  function NumericField(v: Value, toNumber: string -> Num): Value {
    if v.Str? then Number(toNumber(v.s)) else v
  }

  /** Normalising twice is the same as normalising once. */
  lemma NormalizePropertyIdempotent(p: Object, toNumber: string -> Num)
    ensures NormalizeProperty(NormalizeProperty(p, toNumber), toNumber) == NormalizeProperty(p, toNumber)
  {
    var once := NormalizeProperty(p, toNumber);
    var twice := NormalizeProperty(once, toNumber);
    assert !once["price"].Str? && !once["area"].Str?;
    assert twice.Keys == once.Keys;
    forall k | k in once ensures twice[k] == once[k] {
      if k == "price" || k == "area" {
        assert Prop(once, k) == once[k];
      }
    }
  }

  /** `String(v)` for a query value; how a number is printed is a parameter. */
  function StringOf(v: Value, showNumber: Num -> string): string {
    match v
    case Undefined => "undefined"
    case Null => "null"
    case Bool(b) => if b then "true" else "false"
    case Number(n) => showNumber(n)
    case Str(s) => s
    case Obj => "[object Object]"
  }

  /** A list parameter is sent unless it is undefined, null or the empty string. */
  predicate Sent(v: Value) {
    v != Undefined && v != Null && v != Str("")
  }

  /** The query after the first |entries| steps of the `forEach` of `getProperties`. */
  function PropertiesQuery(entries: seq<(string, Value)>, showNumber: Num -> string): SP.Params {
    if entries == [] then []
    else
      var qs := PropertiesQuery(entries[..|entries| - 1], showNumber);
      var (k, v) := entries[|entries| - 1];
      if Sent(v) then SP.Set(qs, k, StringOf(v, showNumber)) else qs
  }

  /**
   * The loop of `getProperties`: `Object.entries(params || {})` in order, each
   * sent value written with `qs.set(k, String(v))`.
   */
  method BuildPropertiesQuery(params: Option<seq<(string, Value)>>, showNumber: Num -> string)
    returns (qs: SP.Params)
    ensures qs == PropertiesQuery(params.GetOr([]), showNumber)
  {
    var entries := params.GetOr([]);
    qs := [];
    var i := 0;
    while i < |entries|
      invariant 0 <= i <= |entries|
      invariant qs == PropertiesQuery(entries[..i], showNumber)
    {
      assert entries[..i + 1][..i] == entries[..i];
      var (k, v) := entries[i];
      if Sent(v) {
        qs := SP.Set(qs, k, StringOf(v, showNumber));
      }
      i := i + 1;
    }
    assert entries[..|entries|] == entries;
  }

  /** The object's keys, which a JavaScript object never repeats. */
  predicate DistinctKeys(entries: seq<(string, Value)>) {
    forall i, j :: 0 <= i < j < |entries| ==> entries[i].0 != entries[j].0
  }

  /** The query names exactly the parameters that are sent, 0 and false included. */
  lemma {:induction false} PropertiesQueryNames(entries: seq<(string, Value)>, showNumber: Num -> string)
    ensures SP.Names(PropertiesQuery(entries, showNumber))
         == set i | 0 <= i < |entries| && Sent(entries[i].1) :: entries[i].0
  {
    if entries != [] {
      var init := entries[..|entries| - 1];
      PropertiesQueryNames(init, showNumber);
      var last := entries[|entries| - 1];
      var all := set i | 0 <= i < |entries| && Sent(entries[i].1) :: entries[i].0;
      var before := set i | 0 <= i < |init| && Sent(init[i].1) :: init[i].0;
      assert all == before + (if Sent(last.1) then {last.0} else {}) by {
        forall n | n in all ensures n in before + (if Sent(last.1) then {last.0} else {}) {
          var i :| 0 <= i < |entries| && Sent(entries[i].1) && entries[i].0 == n;
          if i < |init| { assert init[i] == entries[i]; }
        }
        forall n | n in before ensures n in all {
          var i :| 0 <= i < |init| && Sent(init[i].1) && init[i].0 == n;
          assert entries[i] == init[i];
        }
      }
    }
  }

  /** With distinct keys, each sent parameter carries `String(v)` of its own value. */
  lemma {:induction false} PropertiesQueryValue(entries: seq<(string, Value)>, showNumber: Num -> string, i: nat)
    requires DistinctKeys(entries)
    requires i < |entries| && Sent(entries[i].1)
    ensures SP.Get(PropertiesQuery(entries, showNumber), entries[i].0) == Some(StringOf(entries[i].1, showNumber))
  {
    var init := entries[..|entries| - 1];
    if i < |init| {
      assert init[i] == entries[i];
      PropertiesQueryValue(init, showNumber, i);
    }
  }

  /** With distinct keys, a parameter that is not sent is absent from the query. */
  lemma PropertiesQueryUnsent(entries: seq<(string, Value)>, showNumber: Num -> string, i: nat)
    requires DistinctKeys(entries)
    requires i < |entries| && !Sent(entries[i].1)
    ensures SP.Get(PropertiesQuery(entries, showNumber), entries[i].0) == None
  {
    PropertiesQueryNames(entries, showNumber);
    forall j | 0 <= j < |entries| && Sent(entries[j].1) ensures entries[j].0 != entries[i].0 {
      assert j != i;
    }
  }
}
