/** The risk routes: anyone signed in may list, read, create and update;
    deleting needs the admin or manager role. Every risk the collection holds
    passes the schema's validators. */
module RiskRoutes {

  import opened Common
  import opened Store
  import Handlers
  import opened RiskModel

  const WriteRoles: set<Role> := AnyRole
  const DeleteRoles: set<Role> := {Admin, Manager}
  const NotFoundMessage := "Risk not found"
  const DeletedMessage := "Risk deleted successfully"

  /** What the collection holds: each document under its own id, each valid. */
  ghost predicate Holds(c: Collection<Risk>)
    reads c
  {
    c.Valid() && forall k :: k in c.docs ==> Valid(c.docs[k].doc)
  }

  /** The create payload: the body with `createdBy` set to the caller. */
  function Stamped(body: Risk, caller: Principal): Risk {
    body.(createdBy := Some(caller.id))
  }

  /** Any signed-in caller may create; the risk is stored when it validates. */
  method Create(c: Collection<Risk>, caller: Principal, body: Risk, newId: ObjectId, now: int)
    returns (r: Response<Stored<Risk>>)
    requires Holds(c)
    modifies c
    ensures Holds(c)
    ensures !r.Refusal?
    ensures r.Reply? <==> newId !in old(c.docs) && Valid(Normalize(Stamped(body, caller)))
    ensures r.Reply? ==>
      && r.status == Created && r.value.id == newId
      && r.value.doc == Normalize(Stamped(body, caller))
      && r.value.doc.createdBy == Some(caller.id)
      && c.docs == old(c.docs)[newId := r.value]
    ensures !r.Reply? ==> c.docs == old(c.docs)
  {
    assert caller.role in WriteRoles by { assert caller.role.Admin? || caller.role.Manager? || caller.role.Member?; }
    r := Handlers.Create(c, caller.role in WriteRoles, Save(Stamped(body, caller)), newId, now);
  }

  /** Any signed-in caller may update; a malformed id or update is a 500. */
  method Update(c: Collection<Risk>, caller: Principal, id: string, patch: Risk, now: int)
    returns (r: Response<Stored<Risk>>)
    requires Holds(c)
    modifies c
    ensures Holds(c)
    ensures r.Refusal? <==> IsObjectId(id) && CastUpdate(patch).Ok? && id !in old(c.docs)
    ensures r.Refusal? ==> r == Refusal(NotFound, NotFoundMessage)
    ensures r.Reply? <==> IsObjectId(id) && CastUpdate(patch).Ok? && id in old(c.docs)
    ensures r.Reply? ==>
      && r.value.doc == Merge(old(c.docs)[id].doc, CastUpdate(patch).value)
      && r.value.createdAt == old(c.docs)[id].createdAt && r.value.updatedAt == now
      && c.docs == old(c.docs)[id := r.value]
    ensures !r.Reply? ==> c.docs == old(c.docs)
  {
    assert caller.role in WriteRoles by { assert caller.role.Admin? || caller.role.Manager? || caller.role.Member?; }
    if IsObjectId(id) && CastUpdate(patch).Ok? && id in c.docs {
      UpdateKeepsValid(c.docs[id].doc, patch);
    }
    r := Handlers.Update(c, caller.role in WriteRoles, id, CastUpdate(patch), Merge, now, NotFoundMessage);
  }

  method Delete(c: Collection<Risk>, caller: Principal, id: string) returns (r: Response<string>)
    requires Holds(c)
    modifies c
    ensures Holds(c)
    ensures r == Refusal(Forbidden, RoleDenied) <==> caller.role !in DeleteRoles
    ensures r == Refusal(NotFound, NotFoundMessage) <==>
      caller.role in DeleteRoles && IsObjectId(id) && id !in old(c.docs)
    ensures r.Crash? <==> caller.role in DeleteRoles && !IsObjectId(id)
    ensures r.Reply? ==> r.value == DeletedMessage && c.docs == old(c.docs) - {id}
    ensures !r.Reply? ==> c.docs == old(c.docs)
  {
    r := Handlers.Delete(c, caller.role in DeleteRoles, id, NotFoundMessage, DeletedMessage);
  }
}
