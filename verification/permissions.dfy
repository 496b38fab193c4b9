/** The object-level permission of the backend (`IsOwnerOrReadOnly` in
    backend/api/permissions.py). */
module Permissions {
  import opened Common
  import opened Models

  /** Django REST framework's read-only methods. */
  predicate SafeMethod(m: string)
  {
    m == "GET" || m == "HEAD" || m == "OPTIONS"
  }

  /** The object's owner: its `user` when it has one, else its `sender`
      (a model instance is always truthy, so only absence falls through). */
  function Owner(objUser: Option<UserId>, objSender: Option<UserId>): (o: Option<UserId>)
    ensures objUser.Some? ==> o == objUser
    ensures objUser.None? ==> o == objSender
  {
    if objUser.Some? then objUser else objSender
  }

  /** `has_object_permission`. `requestUser` is `None` for an anonymous
      request; an anonymous user never equals an owner, and a missing owner
      never equals any user. */
  function HasObjectPermission(m: string, objUser: Option<UserId>, objSender: Option<UserId>,
                               requestUser: Option<UserId>): (b: bool)
    ensures SafeMethod(m) ==> b
    ensures !SafeMethod(m) ==> (b <==>
      && requestUser.Some?
      && (objUser.Some? ==> objUser == requestUser)
      && (objUser.None? ==> objSender == requestUser))
  {
    if SafeMethod(m) then true
    else
      var owner := Owner(objUser, objSender);
      owner.Some? && requestUser.Some? && owner.value == requestUser.value
  }

  /** At most one user may write to a given object. */
  lemma OneWriter(m: string, objUser: Option<UserId>, objSender: Option<UserId>, u: UserId, v: UserId)
    requires !SafeMethod(m)
    requires HasObjectPermission(m, objUser, objSender, Some(u))
    requires HasObjectPermission(m, objUser, objSender, Some(v))
    ensures u == v
  {
  }

  /** An object with neither field is writable by nobody; an anonymous
      request writes nothing. */
  lemma NoOwnerNoWrite(m: string, objUser: Option<UserId>, objSender: Option<UserId>, u: Option<UserId>)
    requires !SafeMethod(m)
    requires (objUser.None? && objSender.None?) || u.None?
    ensures !HasObjectPermission(m, objUser, objSender, u)
  {
  }

  /** When an object has both fields, the sender is ignored. */
  lemma UserBeatsSender(m: string, owner: UserId, sender: UserId)
    requires !SafeMethod(m) && owner != sender
    ensures HasObjectPermission(m, Some(owner), Some(sender), Some(owner))
    ensures !HasObjectPermission(m, Some(owner), Some(sender), Some(sender))
  {
  }
}
