/**
 * `ShowingSerializer.validate` (backend/showings/serializers.py): the
 * validated attributes are laid over the stored showing (or a new one), the
 * requesting user stands in as the agent, and a planned result that
 * overlaps another planned showing of that agent is refused on `starts_at`.
 */
module ShowingSerializer {
  import opened Wrappers
  import opened ShowingModel

  /** One validated attribute. `agent` is read-only, so it never comes in. */
  datatype Attr =
    | PropertyAttr(property: int)
    | ClientNameAttr(name: string)
    | ClientPhoneAttr(phone: string)
    | StartsAtAttr(at: int)
    | StatusAttr(status: string)

  const OverlapMessage := "Пересечение с другим показом этого агента."

  /** The outcome of `validate`: the attributes, a validation error by field, or an exception the source lets escape. */
  datatype Outcome = Valid(attrs: seq<Attr>) | Invalid(errors: map<string, string>) | Raises(name: string)

  /** `setattr(instance, k, v)` for one attribute. */
  function Set(s: Showing, a: Attr): Showing {
    match a
    case PropertyAttr(p) => s.(property := Some(p))
    case ClientNameAttr(n) => s.(clientName := n)
    case ClientPhoneAttr(p) => s.(clientPhone := p)
    case StartsAtAttr(t) => s.(startsAt := Some(t))
    case StatusAttr(st) => s.(status := st)
  }

  /** The attributes applied in order. */
  function SetAll(s: Showing, attrs: seq<Attr>): Showing
    decreases |attrs|
  {
    if attrs == [] then s else SetAll(Set(s, attrs[0]), attrs[1..])
  }

  /** The status an attribute list carries, if any (the last one wins). */
  function StatusIn(attrs: seq<Attr>): Option<string> {
    if attrs == [] then None
    else if attrs[|attrs| - 1].StatusAttr? then Some(attrs[|attrs| - 1].status)
    else StatusIn(attrs[..|attrs| - 1])
  }

  /** The start an attribute list carries, if any (the last one wins). */
  function StartIn(attrs: seq<Attr>): Option<int> {
    if attrs == [] then None
    else if attrs[|attrs| - 1].StartsAtAttr? then Some(attrs[|attrs| - 1].at)
    else StartIn(attrs[..|attrs| - 1])
  }

  lemma SetAllSnoc(s: Showing, attrs: seq<Attr>, a: Attr)
    ensures SetAll(s, attrs + [a]) == Set(SetAll(s, attrs), a)
    decreases |attrs|
  {
    if attrs == [] {
      assert [a][1..] == [];
    } else {
      assert (attrs + [a])[1..] == attrs[1..] + [a];
      SetAllSnoc(Set(s, attrs[0]), attrs[1..], a);
    }
  }

  /**
   * The overlay keeps the primary key and the agent, takes the status and the
   * start from the attributes when they carry one, and keeps the stored
   * ones otherwise.
   */
  lemma {:induction false} SetAllFields(s: Showing, attrs: seq<Attr>)
    ensures var r := SetAll(s, attrs);
      && r.pk == s.pk && r.agent == s.agent
      && r.status == StatusIn(attrs).GetOr(s.status)
      && r.startsAt == (if StartIn(attrs).Some? then StartIn(attrs) else s.startsAt)
    decreases |attrs|
  {
    if attrs != [] {
      var init, last := attrs[..|attrs| - 1], attrs[|attrs| - 1];
      assert attrs == init + [last];
      SetAllSnoc(s, init, last);
      SetAllFields(s, init);
    }
  }

  /** The loop `for k, v in attrs.items(): setattr(instance, k, v)`. */
  method Overlay(instance: Showing, attrs: seq<Attr>) returns (r: Showing)
    ensures r == SetAll(instance, attrs)
  {
    r := instance;
    var i := 0;
    while i < |attrs|
      invariant 0 <= i <= |attrs|
      invariant r == SetAll(instance, attrs[..i])
    {
      assert attrs[..i + 1] == attrs[..i] + [attrs[i]];
      SetAllSnoc(instance, attrs[..i], attrs[i]);
      r := Set(r, attrs[i]);
      i := i + 1;
    }
    assert attrs[..i] == attrs;
  }

  /** The showing checked: the stored one or a new one, with the requesting user as agent, overlaid with the attributes. */
  function Merged(stored: Option<Showing>, user: Option<int>, attrs: seq<Attr>): Showing {
    var base := if stored.Some? then stored.value else Unsaved;
    SetAll(if user.Some? then base.(agent := user) else base, attrs)
  }

  /**
   * `validate(attrs)`. `user` is the requesting user's id, absent when the
   * context has no request; `slot` is `SHOWING_SLOT_MINUTES`. `overlaps()`
   * subtracts from the start before it reads the agent, so a showing without
   * a start raises `TypeError` first, and one without an agent raises next.
   */
  method Validate(stored: Option<Showing>, user: Option<int>, attrs: seq<Attr>, db: seq<Showing>, slot: int)
    returns (out: Outcome)
    ensures var m := Merged(stored, user, attrs);
      && (m.status != Planned ==> out == Valid(attrs))
      && (m.status == Planned && m.startsAt.None? ==> out == Raises("TypeError"))
      && (m.status == Planned && m.startsAt.Some? && m.agent.None? ==> out == Raises("RelatedObjectDoesNotExist"))
      && (m.status == Planned && m.agent.Some? && m.startsAt.Some? ==>
            out == if Overlaps(m, db, slot) then Invalid(map["starts_at" := OverlapMessage]) else Valid(attrs))
  {
    var instance := if stored.Some? then stored.value else Unsaved;
    if user.Some? {
      instance := instance.(agent := user);
    }
    instance := Overlay(instance, attrs);
    if instance.status == Planned {
      if instance.startsAt.None? {
        return Raises("TypeError");
      }
      if instance.agent.None? {
        return Raises("RelatedObjectDoesNotExist");
      }
      if Overlaps(instance, db, slot) {
        return Invalid(map["starts_at" := OverlapMessage]);
      }
    }
    return Valid(attrs);
  }

  /**
   * What validation means for a request: the check runs only when the
   * resulting status is planned; a refusal names `starts_at` alone; a pass
   * returns the attributes untouched. The agent checked is the requesting
   * user, and the start and status are those of the attributes when given.
   */
  lemma ValidateMeaning(stored: Option<Showing>, user: int, attrs: seq<Attr>)
    ensures var base := if stored.Some? then stored.value else Unsaved;
      var m := Merged(stored, Some(user), attrs);
      && m.agent == Some(user)
      && m.status == StatusIn(attrs).GetOr(base.status)
      && m.startsAt == (if StartIn(attrs).Some? then StartIn(attrs) else base.startsAt)
      && m.pk == base.pk
  {
    var base := if stored.Some? then stored.value else Unsaved;
    SetAllFields(base.(agent := Some(user)), attrs);
  }

  /** A new showing without a status in the request is planned, so it is checked. */
  lemma NewShowingIsChecked(user: int, attrs: seq<Attr>)
    requires StatusIn(attrs).None?
    ensures Merged(None, Some(user), attrs).status == Planned
  {
    ValidateMeaning(None, user, attrs);
  }

  /** Moving a showing to "done" or "canceled" is never refused for overlap. */
  lemma ClosingNeverConflicts(stored: Option<Showing>, user: int, attrs: seq<Attr>)
    requires StatusIn(attrs) == Some("done") || StatusIn(attrs) == Some("canceled")
    ensures Merged(stored, Some(user), attrs).status != Planned
  {
    ValidateMeaning(stored, user, attrs);
  }
}
