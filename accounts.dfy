/**
 * `request.user` as the Django views and permission classes see it: a row
 * of the custom user model, or Django's `AnonymousUser`, which has no id,
 * is not staff, is not authenticated and has no role.
 */
module Accounts {
  import opened Wrappers

  datatype User = User(id: Option<int>, isStaff: bool, isAuthenticated: bool, role: Option<string>)

  const Anonymous := User(None, false, false, None)

  /** `a == b` between a stored user `a` and `request.user`: model instances are equal when they share a primary key. */
  predicate IsUser(id: int, user: User) {
    user.id == Some(id)
  }

  /** Microseconds in a minute and in a day: the unit of every date-time of the model. */
  const MicrosPerMinute := 60_000_000
  const MicrosPerDay := 86_400_000_000

  /** The calendar day (days since the epoch, UTC) of a date-time. */
  function Day(t: int): int {
    t / MicrosPerDay
  }
}
