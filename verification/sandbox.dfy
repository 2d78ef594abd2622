/** The admin sandbox: the list of all users with business-status toggling
    and deletion, shown to admins only. */
module Sandbox {
  import opened Entities
  import opened Seqs
  import opened AuthContext
  import opened Navigation

  const AdminLabel := "Admin User"
  const BusinessLabel := "Business User"
  const NormalLabel := "Normal User"

  /** The admin view is rendered only for an authenticated admin; everyone
      else sees the "Must Login And Be An Admin" message. */
  function ShowsAdminView(s: Session): (b: bool)
    ensures b <==> s.isAuthenticated && s.userData.isAdmin
  {
    s.isAuthenticated && s.userData.isAdmin
  }

  /** `handlePatchUser`: `reply` is the `isBusiness` of the returned user,
      `None` for a rejected request. The user with the id gets the returned
      status; every other field and every other user is unchanged; a
      rejection changes nothing. */
  function OnPatchReply(users: seq<User>, userId: string, reply: Option<bool>): (r: seq<User>)
    ensures |r| == |users|
    ensures reply.None? ==> r == users
    ensures reply.Some? ==> forall i :: 0 <= i < |users| && users[i].id == userId ==>
      r[i].isBusiness == reply.value && r[i] == users[i].(isBusiness := r[i].isBusiness)
    ensures forall i :: 0 <= i < |users| && users[i].id != userId ==> r[i] == users[i]
    ensures forall i :: 0 <= i < |users| ==> r[i].id == users[i].id && r[i].isAdmin == users[i].isAdmin
  {
    match reply
    case None => users
    case Some(b) => ReplaceWhere(users, (u: User) => u.id == userId, (u: User) => u.(isBusiness := b))
  }

  /** `handleDeleteUser`: on success the users with the id go and the rest
      keep their multiplicity and order; a failure changes nothing. */
  function OnDeleteReply(users: seq<User>, userId: string, ok: bool): (r: seq<User>)
    ensures !ok ==> r == users
    ensures ok ==> forall u :: u in r <==> u in users && u.id != userId
    ensures ok ==> forall u: User :: u.id != userId ==> multiset(r)[u] == multiset(users)[u]
    ensures ok ==> IsSubsequence(r, users)
  {
    if !ok then users
    else
      FilterCount(users, (u: User) => u.id != userId);
      FilterSubsequence(users, (u: User) => u.id != userId);
      Filter(users, (u: User) => u.id != userId)
  }

  /** The status line of a user card. */
  function StatusLabel(u: User): (l: string)
    ensures l == AdminLabel <==> u.isAdmin
    ensures l == BusinessLabel <==> !u.isAdmin && u.isBusiness
    ensures l == NormalLabel <==> !u.isAdmin && !u.isBusiness
  {
    if u.isAdmin then AdminLabel else if u.isBusiness then BusinessLabel else NormalLabel
  }

  /** Both action buttons carry `disabled={user.isAdmin}`. */
  function ActionsDisabled(u: User): (d: bool)
    ensures d <==> u.isAdmin
  {
    u.isAdmin
  }

  /** The confirmation title of the status button. */
  function PatchDialogTitle(u: User): (t: string)
    ensures t == "Downgrade User" <==> u.isBusiness
    ensures t == "Upgrade User" <==> !u.isBusiness
  {
    if u.isBusiness then "Downgrade User" else "Upgrade User"
  }

  /** The success message follows the status the server returned. */
  function PatchToast(isBusiness: bool): (m: string)
    ensures isBusiness <==> m == "User upgraded to Business successfully"
    ensures !isBusiness <==> m == "User downgraded from Business successfully"
  {
    if isBusiness then "User upgraded to Business successfully"
    else "User downgraded from Business successfully"
  }

  /** After a successful patch of a non-admin user, the toast, the user's
      label and the next dialog title all agree with the returned status:
      the toast announces an upgrade exactly when the label becomes
      "Business User" and the next offer is the downgrade. */
  lemma PatchThenLabel(users: seq<User>, i: int, isBusiness: bool)
    requires 0 <= i < |users| && !users[i].isAdmin
    ensures var r := OnPatchReply(users, users[i].id, Some(isBusiness));
      && StatusLabel(r[i]) == (if isBusiness then BusinessLabel else NormalLabel)
      && PatchDialogTitle(r[i]) == (if isBusiness then "Downgrade User" else "Upgrade User")
      && (PatchToast(isBusiness) == "User upgraded to Business successfully" <==> StatusLabel(r[i]) == BusinessLabel)
  {
  }

  /** The buttons are disabled exactly on the rows labelled "Admin User", so
      no action is ever offered against an admin. */
  lemma AdminRowsAreInert(u: User)
    ensures ActionsDisabled(u) <==> StatusLabel(u) == AdminLabel
  {
  }

  /** The label of a user is the role the interface gives that user once
      logged in: a session carrying the user's flags has role Admin,
      Business or Regular exactly when the label says so. */
  lemma LabelIsLoginRole(u: User, s: Session)
    requires s.isAuthenticated && s.userData.isAdmin == u.isAdmin && s.userData.isBusiness == u.isBusiness
    ensures StatusLabel(u) == AdminLabel <==> RoleOf(s) == Admin
    ensures StatusLabel(u) == BusinessLabel <==> RoleOf(s) == Business
    ensures StatusLabel(u) == NormalLabel <==> RoleOf(s) == Regular
  {
  }
}
