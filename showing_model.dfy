/**
 * A showing of a property to a client (backend/showings/models.py) and the
 * slot rule: a planned showing of the same agent within `SLOT_MINUTES − 1`
 * minutes either side is a conflict. The stored showings are a sequence;
 * `SHOWING_SLOT_MINUTES` is the parameter `slot`, 60 unless configured.
 */
module ShowingModel {
  import opened Wrappers
  import opened Accounts

  const DefaultSlotMinutes := 60
  const Planned := "planned"
  const Statuses: seq<string> := ["planned", "done", "canceled"]

  /**
   * A showing. The agent and the start are unset on a showing that has not
   * been filled in yet; `pk` is set once it is saved.
   */
  datatype Showing = Showing(
    pk: Option<int>, property: Option<int>, agent: Option<int>,
    clientName: string, clientPhone: string, startsAt: Option<int>, status: string)

  /** `Showing()`: nothing set, and the status at its default. */
  const Unsaved := Showing(None, None, None, "", "", None, Planned)

  /** `if self.pk:`: a primary key that is set and not 0. */
  predicate IsSaved(s: Showing) {
    s.pk.Some? && s.pk.value != 0
  }

  /** `starts_at__range=(start, end)`: within `slot − 1` minutes of `at`, both ends included. */
  predicate InWindow(at: int, t: int, slot: int) {
    at - (slot - 1) * MicrosPerMinute <= t <= at + (slot - 1) * MicrosPerMinute
  }

  /** A stored showing `other` that the query of `overlaps()` on `s` finds. */
  predicate Conflicts(s: Showing, other: Showing, slot: int)
    requires s.agent.Some? && s.startsAt.Some?
  {
    && other.agent == s.agent
    && other.status == Planned
    && other.startsAt.Some? && InWindow(s.startsAt.value, other.startsAt.value, slot)
    && !(IsSaved(s) && other.pk == s.pk)
  }

  /**
   * `overlaps()`: some stored showing conflicts. The source reads the agent
   * and the start of `s`, so both must be set (it raises otherwise).
   */
  predicate Overlaps(s: Showing, stored: seq<Showing>, slot: int)
    requires s.agent.Some? && s.startsAt.Some?
  {
    exists i :: 0 <= i < |stored| && Conflicts(s, stored[i], slot)
  }

  /** Against one stored showing, `overlaps()` is that showing's conflict. */
  lemma OverlapsOne(s: Showing, other: Showing, slot: int)
    requires s.agent.Some? && s.startsAt.Some?
    ensures Overlaps(s, [other], slot) <==> Conflicts(s, other, slot)
  {
    assert [other][0] == other;
  }

  /** A saved showing is never its own conflict. */
  lemma NotItsOwnConflict(s: Showing, slot: int)
    requires s.agent.Some? && s.startsAt.Some? && IsSaved(s)
    ensures !Overlaps(s, [s], slot)
  {
  }

  /** Showings of other agents, and showings that are done or canceled, never conflict. */
  lemma OnlyPlannedOfSameAgent(s: Showing, stored: seq<Showing>, slot: int)
    requires s.agent.Some? && s.startsAt.Some?
    ensures Overlaps(s, stored, slot) ==>
      exists i :: 0 <= i < |stored| && stored[i].agent == s.agent && stored[i].status == Planned
  {
  }

  /**
   * Between two saved planned showings of one agent, conflict is symmetric:
   * each finds the other exactly when their starts are at most `slot − 1`
   * minutes apart.
   */
  lemma ConflictSymmetric(a: Showing, b: Showing, slot: int)
    requires a.agent.Some? && a.startsAt.Some? && b.agent.Some? && b.startsAt.Some?
    requires a.agent == b.agent && a.status == Planned && b.status == Planned
    requires IsSaved(a) && IsSaved(b) && a.pk != b.pk
    ensures Overlaps(a, [b], slot) <==> Overlaps(b, [a], slot)
    ensures Overlaps(a, [b], slot) <==> InWindow(a.startsAt.value, b.startsAt.value, slot)
  {
    OverlapsOne(a, b, slot);
    OverlapsOne(b, a, slot);
  }

  /**
   * With a slot of at least a minute, two planned showings of one agent
   * `slot` minutes apart do not conflict, and `slot − 1` minutes apart they do.
   */
  lemma SlotBoundary(a: Showing, b: Showing, slot: int)
    requires slot >= 1
    requires a.agent.Some? && a.startsAt.Some? && b.startsAt.Some?
    requires a.agent == b.agent && b.status == Planned && !IsSaved(a)
    ensures b.startsAt.value == a.startsAt.value + slot * MicrosPerMinute ==> !Overlaps(a, [b], slot)
    ensures b.startsAt.value == a.startsAt.value + (slot - 1) * MicrosPerMinute ==> Overlaps(a, [b], slot)
    ensures b.startsAt.value == a.startsAt.value - (slot - 1) * MicrosPerMinute ==> Overlaps(a, [b], slot)
  {
    OverlapsOne(a, b, slot);
  }

  /** With the default slot: 60 minutes apart is free, 59 minutes apart is taken. */
  lemma DefaultSlotBoundary(a: Showing, b: Showing)
    requires a.agent.Some? && a.startsAt.Some? && b.startsAt.Some?
    requires a.agent == b.agent && b.status == Planned && !IsSaved(a)
    ensures b.startsAt.value == a.startsAt.value + 60 * MicrosPerMinute ==> !Overlaps(a, [b], DefaultSlotMinutes)
    ensures b.startsAt.value == a.startsAt.value + 59 * MicrosPerMinute ==> Overlaps(a, [b], DefaultSlotMinutes)
  {
    SlotBoundary(a, b, DefaultSlotMinutes);
  }
}
