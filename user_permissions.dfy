/**
 * `IsOwnerOrAdmin` (backend/users/permissions.py): the view needs an
 * authenticated user; an object is open to staff and to the user whose id
 * is the object's `user_id`. `request.user` may be absent, and a missing
 * attribute reads as `None`.
 */
module UserPermissions {
  import opened Wrappers
  import opened Accounts

  /** `has_permission`: a user is present and authenticated. */
  predicate HasPermission(user: Option<User>) {
    user.Some? && user.value.isAuthenticated
  }

  /** `getattr(request.user, 'id', None)`. */
  function IdOf(user: Option<User>): Option<int> {
    if user.Some? then user.value.id else None
  }

  /** `has_object_permission`; `objUserId` is `getattr(obj, 'user_id', None)`. */
  predicate HasObjectPermission(user: Option<User>, objUserId: Option<int>) {
    if user.Some? && user.value.isStaff then true
    else objUserId == IdOf(user)
  }

  /** Staff may act on every object. */
  lemma StaffAlwaysAllowed(user: User, objUserId: Option<int>)
    requires user.isStaff
    ensures HasObjectPermission(Some(user), objUserId)
  {
  }

  /** Anyone else may act exactly on the objects whose `user_id` is their own id, both read as `None` when missing. */
  lemma NonStaffIffSameId(user: Option<User>, objUserId: Option<int>)
    requires user.None? || !user.value.isStaff
    ensures HasObjectPermission(user, objUserId) <==> objUserId == IdOf(user)
  {
  }

  /** The object check alone lets a visitor without an id act on an object without `user_id`: `None == None`. */
  lemma MissingIdsMatch(objUserId: Option<int>)
    requires objUserId.None?
    ensures HasObjectPermission(Some(Anonymous), objUserId)
    ensures HasObjectPermission(None, objUserId)
  {
  }

  /**
   * The view check closes that gap: a user who passes both checks is staff
   * or has an id, and the id is the object's.
   */
  lemma BothChecksNeedOwnerOrStaff(user: Option<User>, objUserId: Option<int>)
    requires HasPermission(user) && HasObjectPermission(user, objUserId)
    requires user.value.isAuthenticated ==> user.value.id.Some?
    ensures user.value.isStaff || (objUserId.Some? && user.value.id == objUserId)
  {
  }
}
