/**
 * The Showings page (frontend/src/pages/Showings/Showings.tsx): the list
 * query of the feed, the status badge, and the "Назначить показ" modal's
 * property picker, submit gate and request payload. The feed itself is
 * `Feed.FeedLoader` over showings keyed by `String(id)`.
 */
module ShowingsPage {
  import opened Wrappers
  import opened Text
  import opened Feed
  import SP = SearchParams

  datatype Range = Today | Upcoming | All {
    function Name(): string {
      match this
      case Today => "today"
      case Upcoming => "upcoming"
      case All => "all"
    }
  }

  datatype Showing = Showing(id: Id, datetime: string, status: Option<string>)

  function ShowingKey(s: Showing): string { s.id.Key() }

  /** `new URLSearchParams({ page: String(p), range })`. */
  function ListQuery(p: int, range: Range): (q: SP.Params)
    ensures SP.Names(q) == {"page", "range"}
    ensures SP.Get(q, "page") == Some(IntToString(p)) && SP.Get(q, "range") == Some(range.Name())
  {
    var q := SP.Set(SP.Set([], "page", IntToString(p)), "range", range.Name());
    q
  }

  /** The badge text: "done" and "canceled" have their own words, anything else reads as planned. */
  function StatusLabel(s: Option<string>): (badge: string)
    ensures badge == "прошёл" <==> s == Some("done")
    ensures badge == "отменён" <==> s == Some("canceled")
    ensures badge == "запланирован" <==> s != Some("done") && s != Some("canceled")
  {
    if s == Some("done") then "прошёл"
    else if s == Some("canceled") then "отменён"
    else "запланирован"
  }

  datatype Suggestion = Suggestion(id: Id, title: string, address: string)

  /** The create-showing modal's form state. */
  datatype Modal = Modal(
    query: string,
    suggestions: seq<Suggestion>,
    propId: Option<Id>,
    propTitle: string,
    date: string,
    time: string,
    clientName: string,
    clientPhone: string,
    note: string,
    loading: bool)

  function EmptyModal(): Modal {
    Modal("", [], None, "", "", "", "", "", "", false)
  }

  /** `canSubmit`: a picked (truthy) property id, a date, a time, and no request in flight. */
  predicate CanSubmit(m: Modal) {
    m.propId.Some? && m.propId.value.Truthy() && m.date != "" && m.time != "" && !m.loading
  }

  /** Typing in the property field forgets the picked property. */
  function EditQuery(m: Modal, text: string): (r: Modal)
    ensures r.query == text && r.propId == None && r.propTitle == ""
    ensures !CanSubmit(r)
    ensures r.(query := m.query, propId := m.propId, propTitle := m.propTitle) == m
  {
    m.(query := text, propId := None, propTitle := "")
  }

  /** `pickProperty(it)`: remembers the id and title, shows "title, address" and closes the suggestions. */
  function PickProperty(m: Modal, it: Suggestion): (r: Modal)
    ensures r.propId == Some(it.id) && r.propTitle == it.title && r.suggestions == []
    ensures r.query == if it.address != "" then it.title + ", " + it.address else it.title
    ensures r.date == m.date && r.time == m.time && r.loading == m.loading
    ensures CanSubmit(r) <==> it.id.Truthy() && m.date != "" && m.time != "" && !m.loading
  {
    m.(propId := Some(it.id), propTitle := it.title,
       query := it.title + (if it.address != "" then ", " + it.address else ""),
       suggestions := [])
  }

  /**
   * The suggestions shown for a query: none for a blank query or a failed
   * search, else at most the first 8 results of the search for the trimmed query.
   */
  function Suggestions(query: string, search: string -> Option<seq<Suggestion>>): (r: seq<Suggestion>)
    ensures Trim(query) == "" || search(Trim(query)).None? ==> r == []
    ensures Trim(query) != "" && search(Trim(query)).Some? ==>
      var results := search(Trim(query)).value;
      |r| == (if |results| < 8 then |results| else 8) && r == results[..|r|]
  {
    var q := Trim(query);
    if q == "" then []
    else match search(q)
      case None => []
      case Some(results) => if |results| < 8 then results else results[..8]
  }

  /** The message shown when `createShowing` throws: its message, or a default when that is empty or missing. */
  function SubmitError(message: Option<string>): (msg: string)
    ensures msg != ""
    ensures message.Some? && message.value != "" ==> msg == message.value
    ensures !(message.Some? && message.value != "") ==> msg == "Не удалось создать показ"
  {
    if message.Some? && message.value != "" then message.value else "Не удалось создать показ"
  }

  /** The body of `createShowing`: empty optional fields are sent as undefined. */
  datatype Payload = Payload(
    propertyId: Id,
    datetime: string,
    clientName: Option<string>,
    clientPhone: Option<string>,
    note: Option<string>)

  /**
   * `submit`: nothing is sent unless `canSubmit`; otherwise the payload of
   * the picked property at `iso` (the local date and time converted to ISO,
   * which is not modelled) with the optional fields.
   */
  function Submit(m: Modal, iso: string): (r: Option<Payload>)
    ensures r.Some? <==> CanSubmit(m)
    ensures r.Some? ==> r.value.propertyId == m.propId.value && r.value.datetime == iso
    ensures r.Some? ==>
      r.value.clientName == NonEmpty(m.clientName) && r.value.clientPhone == NonEmpty(m.clientPhone)
      && r.value.note == NonEmpty(m.note)
  {
    if !CanSubmit(m) then None
    else Some(Payload(m.propId.value, iso, NonEmpty(m.clientName), NonEmpty(m.clientPhone), NonEmpty(m.note)))
  }

  /** Editing the query after picking a property disables submission until a property is picked again. */
  lemma EditAfterPickBlocksSubmit(m: Modal, it: Suggestion, text: string)
    ensures Submit(EditQuery(PickProperty(m, it), text), "") == None
  {
  }
}
