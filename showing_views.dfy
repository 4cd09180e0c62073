/**
 * `ShowingViewSet` (backend/showings/views.py): an agent sees only their
 * own showings, by default those of the next fourteen days, and creates and
 * edits showings through the serializer's overlap check. The table of
 * showings is `ShowingStore.rows`; the check keeps it free of double
 * bookings as long as every write goes through these views.
 */
module ShowingViews {
  import opened Wrappers
  import opened Accounts
  import opened ShowingModel
  import opened ShowingSerializer

  const DefaultWindowDays := 14

  /**
   * The day range of the list: `from` and `to` when both are given and
   * non-empty, else today and fourteen days on. `parseDay` is Django's date
   * parsing; a value it rejects makes the query raise.
   */
  function Window(from: Option<string>, to: Option<string>, parseDay: string -> Option<int>, today: int)
    : (r: Result<(int, int), string>)
    ensures (from.None? || from == Some("") || to.None? || to == Some("")) ==> r == Ok((today, today + DefaultWindowDays))
    ensures from.Some? && from.value != "" && to.Some? && to.value != "" ==>
      (r.Ok? <==> parseDay(from.value).Some? && parseDay(to.value).Some?)
      && (r.Ok? ==> r.value == (parseDay(from.value).value, parseDay(to.value).value))
  {
    if from.Some? && from.value != "" && to.Some? && to.value != "" then
      var lo, hi := parseDay(from.value), parseDay(to.value);
      if lo.Some? && hi.Some? then Ok((lo.value, hi.value)) else Err("ValidationError")
    else Ok((today, today + DefaultWindowDays))
  }

  /** `agent=request.user` and `starts_at__date__range=[lo, hi]` on one row. */
  predicate Shown(s: Showing, user: int, lo: int, hi: int) {
    s.agent == Some(user) && s.startsAt.Some? && lo <= Day(s.startsAt.value) <= hi
  }

  /** The rows the filtered queryset yields, in table order. */
  function Select(rows: seq<Showing>, user: int, lo: int, hi: int): seq<Showing> {
    if rows == [] then []
    else (if Shown(rows[0], user, lo, hi) then [rows[0]] else []) + Select(rows[1..], user, lo, hi)
  }

  /** The query yields exactly the rows of the user whose day is in the range, and no more rows than the table has. */
  lemma {:induction false} SelectSpec(rows: seq<Showing>, user: int, lo: int, hi: int)
    ensures forall s :: s in Select(rows, user, lo, hi) <==> s in rows && Shown(s, user, lo, hi)
    ensures |Select(rows, user, lo, hi)| <= |rows|
  {
    if rows != [] {
      SelectSpec(rows[1..], user, lo, hi);
      assert rows == [rows[0]] + rows[1..];
    }
  }

  /** `get_queryset()` for the list: the selected rows, or the error of a date that does not parse. */
  function Listed(rows: seq<Showing>, user: int, from: Option<string>, to: Option<string>,
                  parseDay: string -> Option<int>, today: int): Result<seq<Showing>, string> {
    var w := Window(from, to, parseDay, today);
    if w.Err? then Err(w.error) else Ok(Select(rows, user, w.value.0, w.value.1))
  }

  /** No agent ever sees another agent's showing, whatever the query says. */
  lemma ListedOnlyOwn(rows: seq<Showing>, user: int, from: Option<string>, to: Option<string>,
                      parseDay: string -> Option<int>, today: int)
    ensures var r := Listed(rows, user, from, to, parseDay, today);
      r.Ok? ==> forall s :: s in r.value ==> s in rows && s.agent == Some(user)
  {
    var w := Window(from, to, parseDay, today);
    if w.Ok? {
      SelectSpec(rows, user, w.value.0, w.value.1);
    }
  }

  /**
   * Without both bounds the list holds the user's showings from today to
   * fourteen days on, both days included: one on day 14 is listed, one on
   * day 15 is not.
   */
  lemma DefaultFortnight(rows: seq<Showing>, user: int, from: Option<string>, to: Option<string>,
                         parseDay: string -> Option<int>, today: int, s: Showing)
    requires from.None? || to.None?
    requires s in rows && s.agent == Some(user) && s.startsAt.Some?
    ensures var r := Listed(rows, user, from, to, parseDay, today);
      && r.Ok?
      && (Day(s.startsAt.value) == today + 14 ==> s in r.value)
      && (Day(s.startsAt.value) == today + 15 ==> s !in r.value)
  {
    SelectSpec(rows, user, today, today + DefaultWindowDays);
  }

  /** Two rows that cannot both be planned for one agent at nearly the same time. */
  predicate Apart(a: Showing, b: Showing, slot: int) {
    !(&& a.status == Planned && b.status == Planned
      && a.agent.Some? && a.agent == b.agent
      && a.startsAt.Some? && b.startsAt.Some?
      && InWindow(a.startsAt.value, b.startsAt.value, slot))
  }

  /** No agent has two planned showings less than a slot apart. */
  predicate NoDoubleBooking(rows: seq<Showing>, slot: int) {
    forall i, j :: 0 <= i < |rows| && 0 <= j < |rows| && i != j ==> Apart(rows[i], rows[j], slot)
  }

  /** A showing the overlap query passed is apart from every row it did not exclude. */
  lemma PassedIsApart(m: Showing, rows: seq<Showing>, slot: int, j: int)
    requires m.agent.Some? && m.startsAt.Some? && !Overlaps(m, rows, slot)
    requires 0 <= j < |rows| && !(IsSaved(m) && rows[j].pk == m.pk)
    ensures Apart(m, rows[j], slot) && Apart(rows[j], m, slot)
  {
    assert !Conflicts(m, rows[j], slot);
  }

  /** `get_object()`: the index of the row with key `pk` among those listed for the user in the range, if there is one. */
  function Find(rows: seq<Showing>, pk: int, user: int, lo: int, hi: int): (r: Option<nat>)
    ensures r.Some? ==> r.value < |rows| && rows[r.value].pk == Some(pk) && Shown(rows[r.value], user, lo, hi)
    ensures r.None? ==> forall i :: 0 <= i < |rows| ==> !(rows[i].pk == Some(pk) && Shown(rows[i], user, lo, hi))
  {
    if rows == [] then None
    else if rows[|rows| - 1].pk == Some(pk) && Shown(rows[|rows| - 1], user, lo, hi) then Some(|rows| - 1)
    else Find(rows[..|rows| - 1], pk, user, lo, hi)
  }

  /** The showings table; `slot` is `SHOWING_SLOT_MINUTES`, `nextPk` the next primary key the database hands out. */
  class ShowingStore {
    var rows: seq<Showing>
    var nextPk: int
    const slot: int

    /** Every row is saved under its own key, and no agent is double booked. */
    ghost predicate Valid()
      reads this
    {
      && nextPk > 0
      && (forall i :: 0 <= i < |rows| ==> rows[i].pk.Some? && 0 < rows[i].pk.value < nextPk)
      && (forall i, j :: 0 <= i < |rows| && 0 <= j < |rows| && i != j ==> rows[i].pk != rows[j].pk)
      && NoDoubleBooking(rows, slot)
    }

    constructor (slot: int)
      ensures Valid() && rows == [] && this.slot == slot
    {
      rows := [];
      nextPk := 1;
      this.slot := slot;
    }

    /**
     * `create`: the serializer validates the request with the user as agent;
     * `perform_create` saves the showing with that agent under a new key.
     */
    method Create(user: int, attrs: seq<Attr>) returns (out: Outcome)
      requires Valid()
      modifies this`rows, this`nextPk
      ensures Valid()
      ensures var m := Merged(None, Some(user), attrs);
        && (out.Valid? <==> m.status != Planned || (m.agent.Some? && m.startsAt.Some? && !Overlaps(m, old(rows), slot)))
        && (out.Valid? ==> rows == old(rows) + [m.(pk := Some(old(nextPk)))])
        && (!out.Valid? ==> rows == old(rows))
    {
      ValidateMeaning(None, user, attrs);
      out := Validate(None, Some(user), attrs, rows, slot);
      if out.Valid? {
        var n := Merged(None, Some(user), attrs).(agent := Some(user), pk := Some(nextPk));
        forall j | 0 <= j < |rows|
          ensures Apart(n, rows[j], slot) && Apart(rows[j], n, slot)
        {
          if n.status == Planned {
            PassedIsApart(Merged(None, Some(user), attrs), rows, slot, j);
          }
        }
        rows := rows + [n];
        nextPk := nextPk + 1;
      }
    }

    /**
     * `update` (and `partial_update`): the showing is looked up among the
     * rows `get_queryset` yields — the user's own, in the day range the
     * `from` and `to` query parameters give — and replaced by the validated
     * overlay when it passes. `rangeError` is the error of a date that does
     * not parse, in which case nothing is looked up; `found` is false for a
     * 404.
     */
    method Update(user: int, pk: int, from: Option<string>, to: Option<string>,
                  parseDay: string -> Option<int>, today: int, attrs: seq<Attr>)
      returns (rangeError: Option<string>, found: bool, out: Outcome)
      requires Valid()
      modifies this`rows
      ensures Valid()
      ensures var w := Window(from, to, parseDay, today);
        && (w.Err? ==> rangeError == Some(w.error) && !found && rows == old(rows))
        && (w.Ok? ==> rangeError.None?)
      ensures var w := Window(from, to, parseDay, today);
        w.Ok? ==>
        var at := Find(old(rows), pk, user, w.value.0, w.value.1);
        && found == at.Some?
        && (!found ==> rows == old(rows))
        && (found ==>
              var m := Merged(Some(old(rows)[at.value]), Some(user), attrs);
              && (out.Valid? <==> m.status != Planned || (m.agent.Some? && m.startsAt.Some? && !Overlaps(m, old(rows), slot)))
              && (out.Valid? ==> rows == old(rows)[at.value := m])
              && (!out.Valid? ==> rows == old(rows)))
    {
      var w := Window(from, to, parseDay, today);
      if w.Err? {
        return Some(w.error), false, Invalid(map[]);
      }
      rangeError := None;
      var at := Find(rows, pk, user, w.value.0, w.value.1);
      if at.None? {
        return None, false, Invalid(map[]);
      }
      var i := at.value;
      found := true;
      ValidateMeaning(Some(rows[i]), user, attrs);
      out := Validate(Some(rows[i]), Some(user), attrs, rows, slot);
      if out.Valid? {
        var m := Merged(Some(rows[i]), Some(user), attrs);
        forall j | 0 <= j < |rows| && j != i
          ensures Apart(m, rows[j], slot) && Apart(rows[j], m, slot)
        {
          if m.status == Planned {
            PassedIsApart(m, rows, slot, j);
          }
        }
        rows := rows[i := m];
      }
    }
  }
}
