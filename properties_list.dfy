/**
 * The property list page (frontend/src/pages/PropertiesList.tsx): the
 * filters read from the URL with their defaults, the request they make, the
 * filter setter that always goes back to page 1, the reset, the page count
 * and the pager's bounds.
 */
module PropertiesList {
  import opened Wrappers
  import opened Text
  import opened Js
  import SP = SearchParams
  import Api

  const PageSize := 20

  /** `Number(params.get("page") || 1)`: a missing or empty page is 1. */
  function PageOf(params: SP.Params, toNumber: string -> Num): (page: Num)
    ensures SP.Get(params, "page").GetOr("") == "" ==> page == Fin(1.0)
    ensures SP.Get(params, "page").GetOr("") != "" ==> page == toNumber(SP.Get(params, "page").value)
  {
    var raw := SP.Get(params, "page").GetOr("");
    if raw == "" then Fin(1.0) else toNumber(raw)
  }

  /** `deal_type`: "sale" or "rent" from the URL, anything else is no deal type. */
  function DealType(params: SP.Params): (d: Option<string>)
    ensures d.Some? <==> SP.Get(params, "deal_type") in {Some("sale"), Some("rent")}
    ensures d.Some? ==> d == SP.Get(params, "deal_type")
  {
    var raw := SP.Get(params, "deal_type").GetOr("");
    if raw == "sale" || raw == "rent" then Some(raw) else None
  }

  /** `params.get(k) || ""` for the text filters. */
  function TextParam(params: SP.Params, k: string): string {
    SP.Get(params, k).GetOr("")
  }

  /** `params.get("ordering") || "-created_at"`: newest first unless another order is chosen. */
  function Ordering(params: SP.Params): (o: string)
    ensures o != ""
    ensures TextParam(params, "ordering") != "" ==> o == TextParam(params, "ordering")
    ensures TextParam(params, "ordering") == "" ==> o == "-created_at"
  {
    var raw := TextParam(params, "ordering");
    if raw == "" then "-created_at" else raw
  }

  /** `v ? Number(v) : undefined` for the numeric filters. */
  function NumberOrUndefined(v: string, toNumber: string -> Num): (r: Value)
    ensures v == "" <==> r == Undefined
  {
    if v != "" then Number(toNumber(v)) else Undefined
  }

  /** The parameters handed to `getProperties`, in the order of the call. */
  function Request(params: SP.Params, toNumber: string -> Num): seq<(string, Value)> {
    var dealType := DealType(params);
    [ ("page", Number(PageOf(params, toNumber))),
      ("page_size", Number(Fin(PageSize as real))),
      ("deal_type", if dealType.Some? then Str(dealType.value) else Undefined),
      ("district", Str(TextParam(params, "district"))),
      ("rooms", NumberOrUndefined(TextParam(params, "rooms"), toNumber)),
      ("price_min", NumberOrUndefined(TextParam(params, "price_min"), toNumber)),
      ("price_max", NumberOrUndefined(TextParam(params, "price_max"), toNumber)),
      ("search", Str(TextParam(params, "search"))),
      ("ordering", Str(Ordering(params))) ]
  }

  /** The nine request entries have nine different names. */
  lemma RequestDistinctKeys(params: SP.Params, toNumber: string -> Num)
    ensures Api.DistinctKeys(Request(params, toNumber))
  {
    var names := ["page", "page_size", "deal_type", "district", "rooms", "price_min", "price_max", "search", "ordering"];
    assert forall i :: 0 <= i < 9 ==> Request(params, toNumber)[i].0 == names[i];
  }

  /** The value the server receives for parameter `i` of the request, named `name` and holding `v`. */
  lemma RequestParam(params: SP.Params, toNumber: string -> Num, showNumber: Num -> string, i: nat, name: string, v: Value)
    requires i < 9 && Request(params, toNumber)[i] == (name, v)
    ensures SP.Get(Api.PropertiesQuery(Request(params, toNumber), showNumber), name)
        == if Api.Sent(v) then Some(Api.StringOf(v, showNumber)) else None
  {
    var entries := Request(params, toNumber);
    RequestDistinctKeys(params, toNumber);
    if Api.Sent(entries[i].1) {
      Api.PropertiesQueryValue(entries, showNumber, i);
    } else {
      Api.PropertiesQueryUnsent(entries, showNumber, i);
    }
  }

  /**
   * The query that reaches the server: the page, the page size of 20 and the
   * ordering always; the deal type only for sale or rent; every other filter
   * only when it is set in the URL.
   */
  lemma RequestQuery(params: SP.Params, toNumber: string -> Num, showNumber: Num -> string)
    ensures SP.Get(Api.PropertiesQuery(Request(params, toNumber), showNumber), "page") == Some(showNumber(PageOf(params, toNumber)))
    ensures SP.Get(Api.PropertiesQuery(Request(params, toNumber), showNumber), "page_size") == Some(showNumber(Fin(20.0)))
    ensures SP.Get(Api.PropertiesQuery(Request(params, toNumber), showNumber), "ordering") == Some(Ordering(params))
    ensures SP.Get(Api.PropertiesQuery(Request(params, toNumber), showNumber), "deal_type") == DealType(params)
    ensures SP.Get(Api.PropertiesQuery(Request(params, toNumber), showNumber), "district") == NonEmpty(TextParam(params, "district"))
    ensures SP.Get(Api.PropertiesQuery(Request(params, toNumber), showNumber), "search") == NonEmpty(TextParam(params, "search"))
    ensures forall k :: k in {"rooms", "price_min", "price_max"} ==>
      SP.Get(Api.PropertiesQuery(Request(params, toNumber), showNumber), k)
        == if TextParam(params, k) == "" then None else Some(showNumber(toNumber(TextParam(params, k))))
  {
    RequestPage(params, toNumber, showNumber);
    RequestPageSize(params, toNumber, showNumber);
    RequestChoices(params, toNumber, showNumber);
    RequestTextFilters(params, toNumber, showNumber);
    RequestNumberFilters(params, toNumber, showNumber);
  }

  /** The page entry of the query. */
  lemma RequestPage(params: SP.Params, toNumber: string -> Num, showNumber: Num -> string)
    ensures SP.Get(Api.PropertiesQuery(Request(params, toNumber), showNumber), "page") == Some(showNumber(PageOf(params, toNumber)))
  {
    RequestParam(params, toNumber, showNumber, 0, "page", Number(PageOf(params, toNumber)));
  }

  /** The page size entry of the query. */
  lemma RequestPageSize(params: SP.Params, toNumber: string -> Num, showNumber: Num -> string)
    ensures SP.Get(Api.PropertiesQuery(Request(params, toNumber), showNumber), "page_size") == Some(showNumber(Fin(20.0)))
  {
    RequestParam(params, toNumber, showNumber, 1, "page_size", Number(Fin(PageSize as real)));
  }

  /** The deal type and ordering entries of the query. */
  lemma RequestChoices(params: SP.Params, toNumber: string -> Num, showNumber: Num -> string)
    ensures SP.Get(Api.PropertiesQuery(Request(params, toNumber), showNumber), "deal_type") == DealType(params)
    ensures SP.Get(Api.PropertiesQuery(Request(params, toNumber), showNumber), "ordering") == Some(Ordering(params))
  {
    RequestParam(params, toNumber, showNumber, 2, "deal_type", if DealType(params).Some? then Str(DealType(params).value) else Undefined);
    RequestParam(params, toNumber, showNumber, 8, "ordering", Str(Ordering(params)));
  }

  /** The district and search entries of the query. */
  lemma RequestTextFilters(params: SP.Params, toNumber: string -> Num, showNumber: Num -> string)
    ensures SP.Get(Api.PropertiesQuery(Request(params, toNumber), showNumber), "district") == NonEmpty(TextParam(params, "district"))
    ensures SP.Get(Api.PropertiesQuery(Request(params, toNumber), showNumber), "search") == NonEmpty(TextParam(params, "search"))
  {
    RequestParam(params, toNumber, showNumber, 3, "district", Str(TextParam(params, "district")));
    RequestParam(params, toNumber, showNumber, 7, "search", Str(TextParam(params, "search")));
  }

  /** The numeric filter entries of the query. */
  lemma RequestNumberFilters(params: SP.Params, toNumber: string -> Num, showNumber: Num -> string)
    ensures forall k :: k in {"rooms", "price_min", "price_max"} ==>
      SP.Get(Api.PropertiesQuery(Request(params, toNumber), showNumber), k)
        == if TextParam(params, k) == "" then None else Some(showNumber(toNumber(TextParam(params, k))))
  {
    RequestParam(params, toNumber, showNumber, 4, "rooms", NumberOrUndefined(TextParam(params, "rooms"), toNumber));
    RequestParam(params, toNumber, showNumber, 5, "price_min", NumberOrUndefined(TextParam(params, "price_min"), toNumber));
    RequestParam(params, toNumber, showNumber, 6, "price_max", NumberOrUndefined(TextParam(params, "price_max"), toNumber));
  }

  /**
   * `setP(k, v)`: a copy of the query with `k` set to `v`, or removed when `v`
   * is empty, and `page` set to "1"; every other key keeps its value.
   */
  function SetParam(params: SP.Params, k: string, v: string): (r: SP.Params)
    ensures SP.Get(r, "page") == Some("1")
    ensures k != "page" ==> SP.Get(r, k) == NonEmpty(v)
    ensures forall other :: other != k && other != "page" ==> SP.Get(r, other) == SP.Get(params, other)
    ensures SP.Names(r) == (if v != "" then SP.Names(params) + {k} else SP.Names(params) - {k}) + {"page"}
  {
    var next := if v != "" then SP.Set(params, k, v) else SP.Delete(params, k);
    SP.Set(next, "page", "1")
  }

  /** Changing a filter always shows the first page. */
  lemma SetParamShowsFirstPage(params: SP.Params, k: string, v: string, toNumber: string -> Num)
    ensures PageOf(SetParam(params, k, v), toNumber) == toNumber("1")
  {
  }

  /** "Сбросить": only page=1 is left. */
  function Reset(): (r: SP.Params)
    ensures SP.Names(r) == {"page"} && SP.Get(r, "page") == Some("1")
  {
    SP.NamesCons(("page", "1"), []);
    [("page", "1")]
  }

  /** After a reset every filter is back at its default. */
  lemma ResetRestoresDefaults(k: string)
    requires k != "page"
    ensures TextParam(Reset(), k) == "" && DealType(Reset()) == None && Ordering(Reset()) == "-created_at"
  {
  }

  /** `Math.max(1, Math.ceil(count / 20))`. */
  function TotalPages(count: int): (t: int)
    ensures t >= 1
    ensures count <= PageSize * t
    ensures count > 0 ==> PageSize * (t - 1) < count
    ensures count <= 0 ==> t == 1
  {
    var ceil := -((-count) / PageSize);
    if ceil < 1 then 1 else ceil
  }

  /** "Назад" is disabled when `page <= 1`; a NaN page disables nothing. */
  predicate BackDisabled(page: Num) {
    LessEq(page, Fin(1.0))
  }

  /** "Вперёд" is disabled when `page >= totalPages`. */
  predicate ForwardDisabled(page: Num, totalPages: int) {
    LessEq(Fin(totalPages as real), page)
  }

  /** Both pager buttons are disabled exactly on page 1 of a single page. */
  lemma PagerBothDisabled(page: Num, count: int)
    ensures BackDisabled(page) && ForwardDisabled(page, TotalPages(count)) <==> page == Fin(1.0) && TotalPages(count) == 1
  {
  }

  /** On a page strictly between 1 and the last, both directions are open. */
  lemma PagerInside(p: int, count: int)
    requires 1 < p < TotalPages(count)
    ensures !BackDisabled(Fin(p as real)) && !ForwardDisabled(Fin(p as real), TotalPages(count))
  {
  }

  /** `page ± 1` on a JavaScript number: NaN and the infinities stay as they are. */
  function Shifted(page: Num, delta: int): (r: Num)
    ensures page.Fin? ==> r == Fin(page.r + delta as real)
    ensures !page.Fin? ==> r == page
  {
    if page.Fin? then Fin(page.r + delta as real) else page
  }

  /**
   * The pager's click, `delta` being -1 for "Назад" and +1 for "Вперёд":
   * `new URLSearchParams({...Object.fromEntries(params), page: String(page + delta)})`.
   */
  function Turn(params: SP.Params, delta: int, toNumber: string -> Num, showNumber: Num -> string): (r: SP.Params)
    ensures SP.Get(r, "page") == Some(showNumber(Shifted(PageOf(params, toNumber), delta)))
    ensures forall k :: k != "page" ==> SP.Get(r, k) == SP.LastGet(params, k)
    ensures SP.Names(r) == SP.Names(params) + {"page"}
  {
    SP.FromEntriesSpec(params);
    SP.Set(SP.FromEntries(params), "page", showNumber(Shifted(PageOf(params, toNumber), delta)))
  }

  /**
   * On page `p`, when printing and reading back the neighbouring page
   * number round-trips, a click shows page `p + delta` and keeps every filter
   * at the last value the query gave it.
   */
  lemma TurnMovesOnePage(params: SP.Params, p: int, delta: int, toNumber: string -> Num, showNumber: Num -> string, k: string)
    requires PageOf(params, toNumber) == Fin(p as real)
    requires showNumber(Fin((p + delta) as real)) != ""
    requires toNumber(showNumber(Fin((p + delta) as real))) == Fin((p + delta) as real)
    requires k != "page"
    ensures PageOf(Turn(params, delta, toNumber, showNumber), toNumber) == Fin((p + delta) as real)
    ensures TextParam(Turn(params, delta, toNumber, showNumber), k) == SP.LastGet(params, k).GetOr("")
  {
    assert Shifted(Fin(p as real), delta) == Fin((p + delta) as real);
  }
}
