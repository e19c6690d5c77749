/** The five access rules of the API, as predicates over who is asking, with
    which HTTP method, and about which object. */
module Permissions {
  import opened Common

  datatype UserType = Admin | Normal

  datatype User = User(id: UserId, isSuperuser: bool, userType: UserType)

  /** The user a request carries: nobody, or a signed-in user. */
  datatype Requester = Anonymous | SignedIn(user: User)

  /** The object a request is about: a user account, a row that records
      who created it (batches and orders), or any other row. */
  datatype Target = AccountObject(account: UserId) | OwnedObject(createdBy: UserId) | PlainObject

  const SafeMethods: seq<string> := ["GET", "HEAD", "OPTIONS"]

  predicate IsSafe(verb: string) {
    verb in SafeMethods
  }

  /** A superuser or a user of type admin. */
  predicate IsStaff(u: User) {
    u.isSuperuser || u.userType == Admin
  }

  /** The three kinds of requester the rules tell apart. */
  datatype Role = Guest | Staff | Member

  function RoleOf(r: Requester): Role {
    match r
    case Anonymous => Guest
    case SignedIn(u) => if IsStaff(u) then Staff else Member
  }

  /** Signed-in users may read; only staff may write. */
  function AdminOrReadOnly(r: Requester, verb: string): (ok: bool)
    ensures ok <==> RoleOf(r) == Staff || (RoleOf(r) == Member && IsSafe(verb))
  {
    if r.Anonymous? then false
    else if IsSafe(verb) then true
    else r.user.isSuperuser || r.user.userType == Admin
  }

  /** Any signed-in user may reach the owner-checked views. */
  function AdminOrOwnerView(r: Requester): (ok: bool)
    ensures ok <==> RoleOf(r) != Guest
  {
    r.SignedIn?
  }

  /** Staff may touch every object; others may touch a row they created and
      any row that records no creator (accounts included). */
  function AdminOrOwnerObject(u: User, t: Target): (ok: bool)
    ensures ok <==> IsStaff(u) || !t.OwnedObject? || t.createdBy == u.id
  {
    if u.isSuperuser || u.userType == Admin then true
    else if t.OwnedObject? then t.createdBy == u.id
    else true
  }

  /** Only signed-in staff. */
  function AdminUserOnly(r: Requester): (ok: bool)
    ensures ok <==> RoleOf(r) == Staff
  {
    r.SignedIn? && (r.user.isSuperuser || r.user.userType == Admin)
  }

  /** Any signed-in user may reach the views behind the stricter owner rule. */
  function OwnerOrAdminView(r: Requester): (ok: bool)
    ensures ok <==> RoleOf(r) != Guest
  {
    AdminOrOwnerView(r)
  }

  /** An account may be touched by itself or by staff; any other row only by
      staff or by its creator, so a row without a creator is staff-only. */
  function OwnerOrAdminObject(u: User, t: Target): (ok: bool)
    ensures t.AccountObject? ==> (ok <==> t.account == u.id || IsStaff(u))
    ensures t.OwnedObject? ==> (ok <==> t.createdBy == u.id || IsStaff(u))
    ensures t.PlainObject? ==> (ok <==> IsStaff(u))
  {
    if t.AccountObject? then t.account == u.id || u.isSuperuser || u.userType == Admin
    else u.isSuperuser || u.userType == Admin || (t.OwnedObject? && t.createdBy == u.id)
  }

  /** Staff may do anything with stock records; others may only read. */
  function CanManageStock(r: Requester, verb: string): (ok: bool)
    ensures ok <==> RoleOf(r) == Staff || (RoleOf(r) == Member && IsSafe(verb))
  {
    if r.Anonymous? then false
    else if r.user.isSuperuser || r.user.userType == Admin then true
    else if IsSafe(verb) then true
    else false
  }

  /** Signed-in staff pass every one of the five rules, on every object. */
  lemma StaffPassesEverything(u: User, verb: string, t: Target)
    requires IsStaff(u)
    ensures AdminOrReadOnly(SignedIn(u), verb)
    ensures AdminOrOwnerView(SignedIn(u)) && AdminOrOwnerObject(u, t)
    ensures AdminUserOnly(SignedIn(u))
    ensures OwnerOrAdminView(SignedIn(u)) && OwnerOrAdminObject(u, t)
    ensures CanManageStock(SignedIn(u), verb)
  {
  }

  /** An anonymous request passes none of the five rules. */
  lemma AnonymousPassesNothing(verb: string)
    ensures !AdminOrReadOnly(Anonymous, verb)
    ensures !AdminOrOwnerView(Anonymous)
    ensures !AdminUserOnly(Anonymous)
    ensures !OwnerOrAdminView(Anonymous)
    ensures !CanManageStock(Anonymous, verb)
  {
  }

  /** The stock rule and the read-only rule, written differently, decide
      every request the same way. */
  lemma StockRuleIsReadOnlyRule(r: Requester, verb: string)
    ensures CanManageStock(r, verb) == AdminOrReadOnly(r, verb)
  {
  }

  /** The owner-or-admin object rule only ever refuses more than the
      admin-or-owner one, and it refuses exactly the non-staff requests
      about rows without a creator and about other users' accounts. */
  lemma OwnerOrAdminIsStricter(u: User, t: Target)
    ensures OwnerOrAdminObject(u, t) ==> AdminOrOwnerObject(u, t)
    ensures AdminOrOwnerObject(u, t) && !OwnerOrAdminObject(u, t)
            <==> !IsStaff(u) && (t.PlainObject? || (t.AccountObject? && t.account != u.id))
  {
  }
}
