/**
 * `DealViewSet` (backend/deals/views.py): the deal filter, who sees which
 * deals, and the creator stamped on a new deal. The view builds the
 * restricted queryset with `models.Q`, but the module never imports
 * `models`, so for every role other than admin and manager the query
 * raises `NameError`. `VisibleAsWritten` models that; `Visible` is the rule
 * the comment and the query describe, and the rest of the model uses it.
 */
module DealViews {
  import opened Wrappers
  import opened Accounts

  /** A deal row, as far as the filter and the visibility rule read it. `createdAt` is in microseconds. */
  datatype Deal = Deal(
    id: int, property: int, stage: string, price: real,
    createdBy: int, assignedTo: Option<int>, createdAt: int)

  /** The query parameters of `DealFilter`; dates are day numbers; an absent parameter does not filter. */
  datatype DealFilter = DealFilter(
    priceMin: Option<real>, priceMax: Option<real>, createdFrom: Option<int>, createdTo: Option<int>,
    stage: Option<string>, property: Option<int>, createdBy: Option<int>, assignedTo: Option<int>)

  /** `gte`/`lte` on the price, `date__gte`/`date__lte` on the creation day, exact matches on the four `Meta.fields`. */
  predicate Matches(d: Deal, f: DealFilter) {
    && (f.priceMin.None? || d.price >= f.priceMin.value)
    && (f.priceMax.None? || d.price <= f.priceMax.value)
    && (f.createdFrom.None? || Day(d.createdAt) >= f.createdFrom.value)
    && (f.createdTo.None? || Day(d.createdAt) <= f.createdTo.value)
    && (f.stage.None? || d.stage == f.stage.value)
    && (f.property.None? || d.property == f.property.value)
    && (f.createdBy.None? || d.createdBy == f.createdBy.value)
    && (f.assignedTo.None? || d.assignedTo == f.assignedTo)
  }

  /** The filtered queryset, in table order. */
  function Filtered(rows: seq<Deal>, f: DealFilter): seq<Deal> {
    if rows == [] then []
    else (if Matches(rows[0], f) then [rows[0]] else []) + Filtered(rows[1..], f)
  }

  /** The filter keeps exactly the matching rows. */
  lemma {:induction false} FilteredSpec(rows: seq<Deal>, f: DealFilter)
    ensures forall d :: d in Filtered(rows, f) <==> d in rows && Matches(d, f)
  {
    if rows != [] {
      FilteredSpec(rows[1..], f);
      assert rows == [rows[0]] + rows[1..];
    }
  }

  /** The creation-date bounds take whole days, both ends included: any time on the `created_to` day passes. */
  lemma CreatedToWholeDay(d: Deal, day: int)
    requires Day(d.createdAt) == day
    ensures Matches(d, DealFilter(None, None, Some(day), Some(day), None, None, None, None))
    ensures Matches(d, DealFilter(None, None, None, Some(day - 1), None, None, None, None)) == false
  {
  }

  /** `role in ("admin", "manager")`; a user without a role sees only their own. */
  predicate SeesAll(u: User) {
    u.role == Some("admin") || u.role == Some("manager")
  }

  /** `Q(created_by=u) | Q(assigned_to=u)`. */
  predicate Involves(d: Deal, u: User) {
    IsUser(d.createdBy, u) || (d.assignedTo.Some? && IsUser(d.assignedTo.value, u))
  }

  /** `get_queryset()` as written: every role but admin and manager reaches the unbound name `models`. */
  function VisibleAsWritten(rows: seq<Deal>, u: User): Result<seq<Deal>, string> {
    if SeesAll(u) then Ok(rows) else Err("NameError")
  }

  /** A realtor cannot list even the deals they created: the request fails with `NameError`. */
  lemma RealtorListingFails(rows: seq<Deal>, u: User)
    requires u.role == Some("realtor") && u.id.Some?
    requires exists i :: 0 <= i < |rows| && IsUser(rows[i].createdBy, u)
    ensures VisibleAsWritten(rows, u) == Err("NameError")
  {
  }

  /** The rows that involve `u`, in table order. */
  function Involving(rows: seq<Deal>, u: User): seq<Deal> {
    if rows == [] then []
    else (if Involves(rows[0], u) then [rows[0]] else []) + Involving(rows[1..], u)
  }

  /** `get_queryset()` as intended: admins and managers see all deals, anyone else those they created or are assigned. */
  function Visible(rows: seq<Deal>, u: User): seq<Deal> {
    if SeesAll(u) then rows else Involving(rows, u)
  }

  /** Rows with pairwise different ids. */
  predicate DistinctIds(rows: seq<Deal>) {
    forall i, j :: 0 <= i < |rows| && 0 <= j < |rows| && rows[i].id == rows[j].id ==> i == j
  }

  /** `Involving` keeps exactly the rows that involve the user, and each of them once. */
  lemma {:induction false} InvolvingSpec(rows: seq<Deal>, u: User)
    ensures forall d :: d in Involving(rows, u) <==> d in rows && Involves(d, u)
    ensures DistinctIds(rows) ==> DistinctIds(Involving(rows, u))
  {
    if rows != [] {
      var rest := Involving(rows[1..], u);
      InvolvingSpec(rows[1..], u);
      assert rows == [rows[0]] + rows[1..];
      if DistinctIds(rows) {
        assert DistinctIds(rows[1..]) by {
          forall i, j | 0 <= i < |rows[1..]| && 0 <= j < |rows[1..]| && rows[1..][i].id == rows[1..][j].id
            ensures i == j
          {
            assert rows[i + 1].id == rows[j + 1].id;
          }
        }
        forall d | d in rest ensures d.id != rows[0].id {
          var k :| 0 <= k < |rows[1..]| && rows[1..][k] == d;
          assert rows[k + 1] == d;
        }
      }
    }
  }

  /**
   * With the corrected query, a user who is neither admin nor manager sees
   * exactly the deals they created or are assigned to, each once; admins
   * and managers see every deal.
   */
  lemma VisibleSpec(rows: seq<Deal>, u: User)
    ensures SeesAll(u) ==> Visible(rows, u) == rows
    ensures !SeesAll(u) ==> forall d :: d in Visible(rows, u) <==> d in rows && Involves(d, u)
    ensures DistinctIds(rows) ==> DistinctIds(Visible(rows, u))
  {
    InvolvingSpec(rows, u);
  }

  /** Where the query as written answers at all, it answers as the corrected one does. */
  lemma AsWrittenAgreesWhereItAnswers(rows: seq<Deal>, u: User)
    ensures VisibleAsWritten(rows, u).Ok? ==> VisibleAsWritten(rows, u).value == Visible(rows, u)
  {
  }

  /** `perform_create`: the deal is saved with the requesting user as its creator. */
  function Created(data: Deal, creator: int): (d: Deal)
    ensures d.createdBy == creator
    ensures d.(createdBy := data.createdBy) == data
  {
    data.(createdBy := creator)
  }

  /** A deal one creates is visible to its creator afterwards, whatever the role. */
  lemma CreatorSeesDeal(rows: seq<Deal>, data: Deal, u: User)
    requires u.id.Some?
    ensures Created(data, u.id.value) in Visible(rows + [Created(data, u.id.value)], u)
  {
    InvolvingSpec(rows + [Created(data, u.id.value)], u);
  }
}
