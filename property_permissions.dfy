/**
 * `IsOwnerOrReadOnly` (backend/properties/permissions.py): reading is open,
 * writing an object is for staff and for its owner — its `realtor` when set,
 * else its `created_by`.
 */
module PropertyPermissions {
  import opened Wrappers
  import opened Accounts

  const SafeMethods: set<string> := {"GET", "HEAD", "OPTIONS"}
  const Message := "Вы не владелец объекта."

  /** The owner fields of an object: `realtor` and `created_by`, `None` when unset or when the model has no such field. */
  datatype Owned = Owned(realtor: Option<int>, createdBy: Option<int>)

  /** `has_permission`: every request passes the view-level check. */
  function HasPermission(verb: string, user: User): (r: bool)
    ensures r
  {
    true
  }

  /** The first owner field that is set. A model instance is always truthy, so only an unset field falls through. */
  function Owner(obj: Owned): Option<int> {
    if obj.realtor.Some? then obj.realtor else obj.createdBy
  }

  /** `has_object_permission`. */
  predicate HasObjectPermission(verb: string, user: User, obj: Owned) {
    if verb in SafeMethods then true
    else if user.isStaff then true
    else
      var owner := Owner(obj);
      owner.Some? && IsUser(owner.value, user)
  }

  /** Reading is allowed to everyone, staff or not, owner or not. */
  lemma SafeAlwaysAllowed(verb: string, user: User, obj: Owned)
    requires verb in SafeMethods
    ensures HasObjectPermission(verb, user, obj)
  {
  }

  /** Staff may write any object. */
  lemma StaffAlwaysAllowed(verb: string, user: User, obj: Owned)
    requires user.isStaff
    ensures HasObjectPermission(verb, user, obj)
  {
  }

  /**
   * For anyone else, a write is allowed exactly when the realtor is the user,
   * or there is no realtor and the creator is the user.
   */
  lemma WriteIffOwner(verb: string, user: User, obj: Owned)
    requires verb !in SafeMethods && !user.isStaff
    ensures HasObjectPermission(verb, user, obj) <==>
      (obj.realtor.Some? && IsUser(obj.realtor.value, user))
      || (obj.realtor.None? && obj.createdBy.Some? && IsUser(obj.createdBy.value, user))
  {
  }

  /** A realtor shadows the creator: the creator of an object with another realtor may not write it. */
  lemma RealtorShadowsCreator(verb: string, user: User, obj: Owned)
    requires verb !in SafeMethods && !user.isStaff
    requires obj.realtor.Some? && !IsUser(obj.realtor.value, user)
    ensures !HasObjectPermission(verb, user, obj)
  {
  }

  /** An anonymous visitor, who has no id, may read but never write, and an object with no owner is writable only by staff. */
  lemma NoOwnerNoWrite(verb: string, user: User, obj: Owned)
    requires verb !in SafeMethods && !user.isStaff
    requires user.id.None? || Owner(obj).None?
    ensures !HasObjectPermission(verb, user, obj)
  {
  }
}
