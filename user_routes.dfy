/** The user routes: listing shows active accounts only, reading shows any
    account, a user may update their own account (an admin any account) but
    never its password through this route, and deleting is an admin-only
    deactivation. No answer carries the password. */
module UserRoutes {

  import opened Common
  import opened Store
  import Handlers

  datatype User = User(
    name: string,
    email: string,
    password: string,
    role: Role,
    isActive: bool,
    avatar: Option<string>,
    department: Option<string>)

  /** A request body for `PUT /:id`: any of the account's paths. */
  datatype UserPatch = UserPatch(
    name: Option<string>,
    email: Option<string>,
    password: Option<string>,
    role: Option<Role>,
    isActive: Option<bool>,
    avatar: Option<string>,
    department: Option<string>)

  /** A user as the routes return it: `select('-password')`. */
  datatype UserView = UserView(
    id: ObjectId,
    name: string,
    email: string,
    role: Role,
    isActive: bool,
    avatar: Option<string>,
    department: Option<string>,
    createdAt: int,
    updatedAt: int)

  /** The message of the route's own check that a caller may update only
      their own profile unless they are an admin. */
  const AccessDenied := "Access denied"
  const NotFoundMessage := "User not found"
  const DeactivatedMessage := "User deactivated successfully"
  const DeleteRoles: set<Role> := {Admin}

  function View(s: Stored<User>): UserView {
    UserView(s.id, s.doc.name, s.doc.email, s.doc.role, s.doc.isActive,
             s.doc.avatar, s.doc.department, s.createdAt, s.updatedAt)
  }

  /** `const { password, ...updateData } = req.body`. */
  function WithoutPassword(p: UserPatch): (q: UserPatch)
    ensures q.password.None?
    ensures q.(password := p.password) == p
  {
    p.(password := None)
  }

  /** The stored account after an update: each path the update sets replaces the stored one. */
  function Apply(u: User, p: UserPatch): User {
    User(if p.name.Some? then p.name.value else u.name,
         if p.email.Some? then p.email.value else u.email,
         if p.password.Some? then p.password.value else u.password,
         if p.role.Some? then p.role.value else u.role,
         if p.isActive.Some? then p.isActive.value else u.isActive,
         if p.avatar.Some? then p.avatar else u.avatar,
         if p.department.Some? then p.department else u.department)
  }

  /** The update `{ isActive: false }` of the delete route. */
  function SetActive(u: User, active: bool): User {
    u.(isActive := active)
  }

  /** An update applied without its password leaves the stored password alone
      and sets every other path the body gives. */
  lemma ApplyWithoutPassword(u: User, p: UserPatch)
    ensures Apply(u, WithoutPassword(p)).password == u.password
    ensures p.role.Some? ==> Apply(u, WithoutPassword(p)).role == p.role.value
    ensures p.isActive.Some? ==> Apply(u, WithoutPassword(p)).isActive == p.isActive.value
    ensures p.name.Some? ==> Apply(u, WithoutPassword(p)).name == p.name.value
    ensures p.email.Some? ==> Apply(u, WithoutPassword(p)).email == p.email.value
  {
  }

  /** The guard of `PUT /:id`: the caller's own id, or an admin. */
  predicate MayUpdate(caller: Principal, id: string) {
    id == caller.id || caller.role == Admin
  }

  method List(c: Collection<User>) returns (r: Response<seq<UserView>>)
    requires c.Valid()
    ensures r.Reply? && r.status == Success
    ensures forall i :: 0 <= i < |r.value| ==>
      var k := r.value[i].id; k in c.docs && r.value[i] == View(c.docs[k]) && c.docs[k].doc.isActive
    ensures forall k :: k in c.docs && c.docs[k].doc.isActive ==>
      exists i :: 0 <= i < |r.value| && r.value[i].id == k
    ensures forall i, j :: 0 <= i < j < |r.value| ==>
      r.value[i].id != r.value[j].id && r.value[i].createdAt >= r.value[j].createdAt
  {
    var active := (u: User) => u.isActive;
    var rs := c.List(active);
    r := Reply(Success, seq(|rs|, i requires 0 <= i < |rs| => View(rs[i])));
    forall k | k in c.docs && c.docs[k].doc.isActive
      ensures exists i :: 0 <= i < |r.value| && r.value[i].id == k
    {
      assert active(c.docs[k].doc);
      var i :| 0 <= i < |rs| && rs[i].id == k;
      assert r.value[i].id == k;
    }
  }

  /** `GET /:id` finds an account whether or not it is active. */
  function Get(c: Collection<User>, id: string): (r: Response<UserView>)
    reads c
    requires c.Valid()
    ensures r.Reply? <==> IsObjectId(id) && id in c.docs
    ensures r.Crash? <==> !IsObjectId(id)
    ensures r.Refusal? <==> IsObjectId(id) && id !in c.docs
    ensures r.Reply? ==> r.status == Success && r.value == View(c.docs[id])
    ensures r.Refusal? ==> r == Refusal(NotFound, NotFoundMessage)
    ensures r.Crash? ==> r == Crash(CastFailed(id))
  {
    match Handlers.Get(c, id, NotFoundMessage)
    case Reply(s, v) => Reply(s, View(v))
    case Refusal(s, m) => Refusal(s, m)
    case Crash(f) => Crash(f)
  }

  method Update(c: Collection<User>, caller: Principal, id: string, patch: UserPatch, now: int)
    returns (r: Response<UserView>)
    requires c.Valid()
    modifies c
    ensures c.Valid()
    ensures r == Refusal(Forbidden, AccessDenied) <==> !MayUpdate(caller, id)
    ensures MayUpdate(caller, id) && !IsObjectId(id) ==> r == Crash(CastFailed(id))
    ensures r == Refusal(NotFound, NotFoundMessage) <==> MayUpdate(caller, id) && IsObjectId(id) && id !in old(c.docs)
    ensures r.Reply? <==> MayUpdate(caller, id) && IsObjectId(id) && id in old(c.docs)
    ensures r.Reply? ==>
      var s := old(c.docs)[id];
      && c.docs == old(c.docs)[id := Stored(s.id, Apply(s.doc, WithoutPassword(patch)), s.createdAt, now)]
      && c.docs[id].doc.password == s.doc.password
      && r.value == View(c.docs[id])
    ensures !r.Reply? ==> c.docs == old(c.docs)
  {
    if !MayUpdate(caller, id) {
      return Refusal(Forbidden, AccessDenied);
    }
    var res := Handlers.Update(c, true, id, Ok(WithoutPassword(patch)), Apply, now, NotFoundMessage);
    match res
    case Reply(s, v) => r := Reply(s, View(v));
    case Refusal(s, m) => r := Refusal(s, m);
    case Crash(f) => r := Crash(f);
  }

  /** `DELETE /:id`: the account stays in the collection, inactive; it drops
      out of the list but can still be read. */
  method Deactivate(c: Collection<User>, caller: Principal, id: string, now: int)
    returns (r: Response<string>)
    requires c.Valid()
    modifies c
    ensures c.Valid()
    ensures r == Refusal(Forbidden, RoleDenied) <==> caller.role !in DeleteRoles
    ensures r == Refusal(NotFound, NotFoundMessage) <==>
      caller.role in DeleteRoles && IsObjectId(id) && id !in old(c.docs)
    ensures r.Crash? <==> caller.role in DeleteRoles && !IsObjectId(id)
    ensures r.Reply? ==>
      var s := old(c.docs)[id];
      && r.value == DeactivatedMessage
      && c.docs == old(c.docs)[id := Stored(s.id, s.doc.(isActive := false), s.createdAt, now)]
      && c.docs.Keys == old(c.docs).Keys
      && Get(c, id).Reply? && !Get(c, id).value.isActive
    ensures !r.Reply? ==> c.docs == old(c.docs)
  {
    var res := Handlers.Update(c, caller.role in DeleteRoles, id, Ok(false), SetActive, now, NotFoundMessage);
    match res
    case Reply(_, _) => r := Reply(Success, DeactivatedMessage);
    case Refusal(s, m) => r := Refusal(s, m);
    case Crash(f) => r := Crash(f);
  }
}
