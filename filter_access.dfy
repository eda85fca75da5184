/**
 The rule that decides whether a client may insert, update or remove a
 Filter document directly.
 */
module FilterAccess {
  import opened FilterSchema

  /** The part of a user account the rule looks at. */
  datatype User = User(id: Id, isAdmin: bool)

  /** A resolved user that holds the admin flag; `None` is a user that was not found. */
  predicate IsAdmin(u: Option<User>) {
    u.Some? && u.value.isAdmin
  }

  /**
   The allow rule. `userId` is the caller's id, `found` the user looked up by
   that id, `current` the session's current user, `docId` the id of the
   document being written. The insert, update and remove callbacks are
   written out separately in the source and run these same tests.
   */
  function Allow(userId: Id, found: Option<User>, current: Option<User>, docId: Id): (ok: bool)
    ensures IsAdmin(found) || IsAdmin(current) ==> ok
    ensures !IsAdmin(found) && !IsAdmin(current) && found.None? ==> !ok
    ensures !IsAdmin(found) && !IsAdmin(current) && found.Some? ==> (ok <==> docId == userId)
  {
    if IsAdmin(found) || IsAdmin(current) then true
    else if found.None? then false
    else docId == userId
  }

  /**
   A caller who is not an admin in either lookup may write only the document
   whose id is its own id, and only when its user record exists.
   */
  lemma NonAdminWritesOnlyOwnId(userId: Id, found: Option<User>, current: Option<User>, docId: Id)
    requires !IsAdmin(found) && !IsAdmin(current)
    ensures Allow(userId, found, current, docId) <==> found.Some? && docId == userId
  {
  }
}
