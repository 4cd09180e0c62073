/**
 * The Objects page (frontend/src/pages/Objects/index.tsx): the preset read
 * from the route, the category read from the URL, the query of each page of
 * the feed, and the category picker. The feed's merge and load guard are
 * `Feed.MergeById` and `Feed.FeedLoader`.
 */
module ObjectsPage {
  import opened Wrappers
  import opened Text
  import opened ObjectFilters
  import SP = SearchParams

  /** The route segment: "my" and "drafts" are kept, anything else (or nothing) is duty. */
  function NormalizePreset(raw: Option<string>): (p: Preset)
    ensures p == My <==> raw == Some("my")
    ensures p == Drafts <==> raw == Some("drafts")
    ensures p == Duty <==> raw != Some("my") && raw != Some("drafts")
  {
    if raw == Some("my") then My else if raw == Some("drafts") then Drafts else Duty
  }

  /** `sp.get("cat") ?? ""`: the category of the URL, unchecked, or "" when absent. */
  function InitialCategory(search: SP.Params): (cat: string)
    ensures "cat" in SP.Names(search) ==> cat == SP.Get(search, "cat").value
    ensures "cat" !in SP.Names(search) ==> cat == ""
  {
    SP.Get(search, "cat").GetOr("")
  }

  /** The value of one query parameter of a feed page, by name. */
  function PageParam(p: int, preset: Preset, cat: string, filters: Option<Filters>, name: string): Option<string> {
    var f := filters.GetOr(Cleared(Duty));
    if name == "page" then Some(IntToString(p))
    else if name == "published" then
      (if preset == Duty then Some("1")
       else if preset == Drafts then Some("0")
       else if filters.Some? then NonEmpty(f.published)
       else None)
    else if name == "mine" then (if preset == My || (filters.Some? && f.mine) then Some("1") else None)
    else if name == "deal_type" then (if cat == "sale" || cat == "rent" then Some(cat) else None)
    else if name == "category" then (if cat == "newbuild" || cat == "land" then Some(cat) else None)
    else if filters.None? then None
    else if name == "q" then NonEmpty(f.q)
    else if name == "price_min" then NonEmpty(f.priceMin)
    else if name == "price_max" then NonEmpty(f.priceMax)
    else if name == "rooms" then NonEmpty(f.rooms)
    else None
  }

  /**
   * The query of `loadPage(p)`: the page number, the preset's fixed
   * parameter, the category, then the panel's filters, each by `qs.set`.
   */
  method LoadPageQuery(p: int, preset: Preset, cat: string, filters: Option<Filters>) returns (qs: SP.Params)
    ensures forall name :: SP.Get(qs, name) == PageParam(p, preset, cat, filters, name)
  {
    var fixed := SetPresetParams(p, preset);
    var withCategory := SetCategoryParams(fixed, cat);
    qs := withCategory;
    if filters.Some? {
      qs := SetFilterParams(withCategory, preset, filters.value);
    }
    forall name ensures SP.Get(qs, name) == PageParam(p, preset, cat, filters, name) {
      if filters.Some? {
        assert SP.Get(qs, name) == Written(filters.value, preset, name).Or(SP.Get(withCategory, name));
      }
    }
  }

  function PresetParam(p: int, preset: Preset, name: string): Option<string> {
    if name == "page" then Some(IntToString(p))
    else if name == "published" && preset != My then Some(FixedPublished(preset))
    else if name == "mine" && preset == My then Some("1")
    else None
  }

  function CategoryParam(cat: string, name: string): Option<string> {
    if name == "deal_type" && (cat == "sale" || cat == "rent") then Some(cat)
    else if name == "category" && (cat == "newbuild" || cat == "land") then Some(cat)
    else None
  }

  /** `{ page: String(p) }`, then published=1 for duty, mine=1 for my, published=0 for drafts. */
  method SetPresetParams(p: int, preset: Preset) returns (qs: SP.Params)
    ensures forall name :: SP.Get(qs, name) == PresetParam(p, preset, name)
  {
    qs := SP.Set([], "page", IntToString(p));
    if preset == Duty { qs := SP.Set(qs, "published", "1"); }
    if preset == My { qs := SP.Set(qs, "mine", "1"); }
    if preset == Drafts { qs := SP.Set(qs, "published", "0"); }
    forall name | name != "page" && name != "published" && name != "mine" ensures SP.Get(qs, name) == None {
      assert SP.Get([], name) == None;
    }
  }

  /** sale and rent become `deal_type`, newbuild and land become `category`; any other category adds nothing. */
  method SetCategoryParams(qs0: SP.Params, cat: string) returns (qs: SP.Params)
    ensures forall name :: SP.Get(qs, name) == CategoryParam(cat, name).Or(SP.Get(qs0, name))
  {
    qs := qs0;
    if cat == "sale" || cat == "rent" { qs := SP.Set(qs, "deal_type", cat); }
    if cat == "newbuild" { qs := SP.Set(qs, "category", "newbuild"); }
    if cat == "land" { qs := SP.Set(qs, "category", "land"); }
  }

  /**
   * The panel's filters: exactly the keys the panel itself writes to the URL
   * (`ObjectFilters.Written`), each overriding what the query held.
   */
  method SetFilterParams(qs0: SP.Params, preset: Preset, f: Filters) returns (qs: SP.Params)
    ensures forall name :: SP.Get(qs, name) == Written(f, preset, name).Or(SP.Get(qs0, name))
  {
    var q1 := SetIfGiven(qs0, "q", Written(f, preset, "q"));
    var q2 := SetIfGiven(q1, "mine", Written(f, preset, "mine"));
    var q3 := SetIfGiven(q2, "published", Written(f, preset, "published"));
    var q4 := SetIfGiven(q3, "price_min", Written(f, preset, "price_min"));
    var q5 := SetIfGiven(q4, "price_max", Written(f, preset, "price_max"));
    qs := SetIfGiven(q5, "rooms", Written(f, preset, "rooms"));
    forall name ensures SP.Get(qs, name) == Written(f, preset, name).Or(SP.Get(qs0, name)) {
      if name !in {"q", "mine", "published", "price_min", "price_max", "rooms"} {
        assert Written(f, preset, name) == None;
      }
    }
  }

  /**
   * What the page sends agrees with what the filter panel hands it: the
   * publication state and the mine flag of the applied filters are what
   * the query carries, and duty and drafts send their fixed state whatever
   * the panel held.
   */
  lemma PageParamFollowsAppliedFilters(p: int, preset: Preset, cat: string, f: Filters)
    ensures PageParam(p, preset, cat, Some(Applied(f, preset)), "published")
         == (if preset == My then NonEmpty(f.published) else Some(FixedPublished(preset)))
    ensures PageParam(p, preset, cat, Some(Applied(f, preset)), "mine") == (if Applied(f, preset).mine then Some("1") else None)
    ensures PageParam(p, preset, cat, Some(Applied(f, preset)), "page") == Some(IntToString(p))
  {
  }

  /** Without filters, only the page, the preset's parameter and the category are sent. */
  lemma PageParamWithoutFilters(p: int, preset: Preset, cat: string, name: string)
    requires name !in {"page", "published", "mine", "deal_type", "category"}
    ensures PageParam(p, preset, cat, None, name) == None
  {
  }

  /**
   * `selectCat(next)`: the category becomes `next`; the URL query gets
   * `cat=next`, or loses `cat` when `next` is "", and keeps every other key.
   */
  function SelectCategory(search: SP.Params, next: string): (r: (string, SP.Params))
    ensures r.0 == next
    ensures SP.Get(r.1, "cat") == NonEmpty(next)
    ensures forall other :: other != "cat" ==> SP.Get(r.1, other) == SP.Get(search, other)
    ensures SP.Names(r.1) == if next != "" then SP.Names(search) + {"cat"} else SP.Names(search) - {"cat"}
  {
    if next != "" then (next, SP.Set(search, "cat", next))
    else (next, SP.Delete(search, "cat"))
  }

  /** Picking a category and reloading the page restores it. */
  lemma SelectedCategoryIsInitial(search: SP.Params, next: string)
    ensures InitialCategory(SelectCategory(search, next).1) == next
  {
  }
}
