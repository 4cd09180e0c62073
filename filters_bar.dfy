/**
 * The filter panel of the Objects page (frontend/src/pages/Objects/Filters.tsx):
 * the filters read from the URL, the query written by "apply", the filters
 * handed to the page, and "clear all". The page's preset decides two fields:
 * "my" always shows only the user's objects, "duty" and "drafts" fix the
 * publication state.
 */
module ObjectFilters {
  import opened Wrappers
  import opened Text
  import SP = SearchParams

  datatype Preset = Duty | My | Drafts

  /** `published` is "1", "0" or "" (any). */
  datatype Filters = Filters(
    q: string,
    mine: bool,
    published: string,
    priceMin: string,
    priceMax: string,
    rooms: string)

  predicate ValidPublished(f: Filters) {
    f.published == "1" || f.published == "0" || f.published == ""
  }

  /** The publication state a preset fixes: "1" for duty, "0" for drafts, none for my. */
  function FixedPublished(preset: Preset): string {
    match preset
    case Duty => "1"
    case Drafts => "0"
    case My => ""
  }

  predicate CanToggleMine(preset: Preset) { preset != My }

  predicate CanChangePublished(preset: Preset) { preset != Duty && preset != Drafts }

  /** The filters taken from the URL when the panel opens or the preset changes. */
  function Initial(sp: SP.Params, preset: Preset): (f: Filters)
    ensures ValidPublished(f)
    ensures f.mine <==> SP.Get(sp, "mine") == Some("1") || preset == My
    ensures !CanChangePublished(preset) ==> f.published == FixedPublished(preset)
    ensures CanChangePublished(preset) ==>
      f.published == (if SP.Get(sp, "published") in {Some("1"), Some("0")} then SP.Get(sp, "published").value else "")
    ensures f.q == SP.Get(sp, "q").GetOr("") && f.rooms == SP.Get(sp, "rooms").GetOr("")
    ensures f.priceMin == SP.Get(sp, "price_min").GetOr("") && f.priceMax == SP.Get(sp, "price_max").GetOr("")
  {
    var published := SP.Get(sp, "published");
    Filters(
      SP.Get(sp, "q").GetOr(""),
      SP.Get(sp, "mine") == Some("1") || preset == My,
      if preset == Duty then "1"
      else if preset == Drafts then "0"
      else if published == Some("1") || published == Some("0") then published.value
      else "",
      SP.Get(sp, "price_min").GetOr(""),
      SP.Get(sp, "price_max").GetOr(""),
      SP.Get(sp, "rooms").GetOr(""))
  }

  /** The value "apply" writes under `name`: a field is written only when it is non-empty and editable. */
  function Written(f: Filters, preset: Preset, name: string): Option<string> {
    if name == "q" then NonEmpty(f.q)
    else if name == "mine" then (if CanToggleMine(preset) && f.mine then Some("1") else None)
    else if name == "published" then (if CanChangePublished(preset) then NonEmpty(f.published) else None)
    else if name == "price_min" then NonEmpty(f.priceMin)
    else if name == "price_max" then NonEmpty(f.priceMax)
    else if name == "rooms" then NonEmpty(f.rooms)
    else None
  }

  /** The filters handed to the page: the fields a preset decides take the preset's value. */
  function Applied(f: Filters, preset: Preset): (r: Filters)
    ensures CanToggleMine(preset) ==> r.mine == f.mine
    ensures !CanToggleMine(preset) ==> r.mine
    ensures CanChangePublished(preset) ==> r.published == f.published
    ensures !CanChangePublished(preset) ==> r.published == FixedPublished(preset)
    ensures r.(mine := f.mine, published := f.published) == f
  {
    f.(mine := if CanToggleMine(preset) then f.mine else preset == My,
       published := if CanChangePublished(preset) then f.published else FixedPublished(preset))
  }

  /** `if (value) qs.set(name, value)`: the query with `name` set when a value is given, else unchanged. */
  function SetIfGiven(query: SP.Params, name: string, value: Option<string>): (r: SP.Params)
    ensures SP.Get(r, name) == if value.Some? then value else SP.Get(query, name)
    ensures forall other :: other != name ==> SP.Get(r, other) == SP.Get(query, other)
  {
    if value.Some? then SP.Set(query, name, value.value) else query
  }

  /**
   * `apply`: a fresh query filled by one `set` per non-empty field, the
   * mine flag only where it can be toggled and the publication state only
   * where it can be changed; then the page receives the applied filters.
   */
  method Apply(f: Filters, preset: Preset) returns (query: SP.Params, applied: Filters)
    ensures forall name :: SP.Get(query, name) == Written(f, preset, name)
    ensures applied == Applied(f, preset)
  {
    var q0: SP.Params := [];
    var q1 := SetIfGiven(q0, "q", Written(f, preset, "q"));
    var q2 := SetIfGiven(q1, "mine", Written(f, preset, "mine"));
    var q3 := SetIfGiven(q2, "published", Written(f, preset, "published"));
    var q4 := SetIfGiven(q3, "price_min", Written(f, preset, "price_min"));
    var q5 := SetIfGiven(q4, "price_max", Written(f, preset, "price_max"));
    query := SetIfGiven(q5, "rooms", Written(f, preset, "rooms"));
    forall name ensures SP.Get(query, name) == Written(f, preset, name) {
      if name !in {"q", "mine", "published", "price_min", "price_max", "rooms"} {
        assert SP.Get(q0, name) == None;
      }
    }
    applied := Applied(f, preset);
  }

  /** The defaults of a preset, which "clear all" puts in the panel and hands to the page. */
  function Cleared(preset: Preset): Filters {
    Filters("", preset == My, FixedPublished(preset), "", "", "")
  }

  /** `clearAll`: the panel state, the (empty) query and the filters handed to the page. */
  function ClearAll(preset: Preset): (r: (Filters, SP.Params, Filters))
    ensures r.0 == r.2 && r.1 == []
    ensures r.0.q == "" && r.0.priceMin == "" && r.0.priceMax == "" && r.0.rooms == ""
    ensures r.0.mine <==> preset == My
    ensures r.0.published == FixedPublished(preset)
  {
    (Cleared(preset), [], Cleared(preset))
  }

  /**
   * "Clear all" agrees with the other two paths: an empty URL yields the same
   * defaults, handing them on changes nothing, and applying them writes no key.
   */
  lemma ClearedIsInitialOfEmptyQuery(preset: Preset)
    ensures Initial([], preset) == ClearAll(preset).0
    ensures Applied(ClearAll(preset).0, preset) == ClearAll(preset).2
    ensures forall name :: Written(ClearAll(preset).0, preset, name) == None
  {
  }

  /** Whatever is edited, the page receives mine=true for "my" and the fixed publication state for duty and drafts. */
  lemma AppliedHonoursPreset(f: Filters, preset: Preset)
    ensures preset == My ==> Applied(f, preset).mine
    ensures preset == Duty ==> Applied(f, preset).published == "1"
    ensures preset == Drafts ==> Applied(f, preset).published == "0"
    ensures Applied(Applied(f, preset), preset) == Applied(f, preset)
  {
  }

  /**
   * Round trip through the URL: reading back the query that "apply" wrote
   * gives exactly the filters that were handed to the page.
   */
  lemma InitialAfterApply(query: SP.Params, f: Filters, preset: Preset)
    requires ValidPublished(f)
    requires forall name :: SP.Get(query, name) == Written(f, preset, name)
    ensures Initial(query, preset) == Applied(f, preset)
  {
    var g, h := Initial(query, preset), Applied(f, preset);
    assert SP.Get(query, "q") == Written(f, preset, "q");
    assert SP.Get(query, "mine") == Written(f, preset, "mine");
    assert SP.Get(query, "published") == Written(f, preset, "published");
    assert SP.Get(query, "price_min") == Written(f, preset, "price_min");
    assert SP.Get(query, "price_max") == Written(f, preset, "price_max");
    assert SP.Get(query, "rooms") == Written(f, preset, "rooms");
    assert g.q == h.q && g.rooms == h.rooms && g.priceMin == h.priceMin && g.priceMax == h.priceMax;
    assert g.mine == h.mine && g.published == h.published;
  }

  /** The price inputs keep only the digits that were typed. */
  function EditPriceMin(f: Filters, typed: string): (r: Filters)
    ensures r.priceMin == DigitsOnly(typed)
    ensures AllDigits(r.priceMin) && r.(priceMin := f.priceMin) == f
    ensures AllDigits(typed) ==> r.priceMin == typed
  {
    DigitsOnlySpec(typed);
    f.(priceMin := DigitsOnly(typed))
  }

  function EditPriceMax(f: Filters, typed: string): (r: Filters)
    ensures r.priceMax == DigitsOnly(typed)
    ensures AllDigits(r.priceMax) && r.(priceMax := f.priceMax) == f
    ensures AllDigits(typed) ==> r.priceMax == typed
  {
    DigitsOnlySpec(typed);
    f.(priceMax := DigitsOnly(typed))
  }
}
