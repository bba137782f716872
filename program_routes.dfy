/** The program routes: anyone signed in may list and read; creating and
    updating need the admin or manager role; deleting needs admin. Every
    program the collection holds passes the schema's validators. */
module ProgramRoutes {

  import opened Common
  import opened Store
  import Handlers
  import opened ProgramModel

  const WriteRoles: set<Role> := {Admin, Manager}
  const DeleteRoles: set<Role> := {Admin}
  const NotFoundMessage := "Program not found"
  const DeletedMessage := "Program deleted successfully"

  /** What the collection holds: each document under its own id, each valid. */
  ghost predicate Holds(c: Collection<Program>)
    reads c
  {
    c.Valid() && forall k :: k in c.docs ==> Valid(c.docs[k].doc)
  }

  /** The create payload: the body with `createdBy` set to the caller. */
  function Stamped(body: Program, caller: Principal): Program {
    body.(createdBy := Some(caller.id))
  }

  method Create(c: Collection<Program>, caller: Principal, body: Program, newId: ObjectId, now: int)
    returns (r: Response<Stored<Program>>)
    requires Holds(c)
    modifies c
    ensures Holds(c)
    ensures r == Refusal(Forbidden, RoleDenied) <==> caller.role !in WriteRoles
    ensures r == Crash(HookRejected(DateOrderMessage)) <==>
      && caller.role in WriteRoles
      && Valid(Normalize(Stamped(body, caller)))
      && body.endDate.value <= body.startDate.value
    ensures r.Reply? <==> && caller.role in WriteRoles && newId !in old(c.docs)
                          && Valid(Normalize(Stamped(body, caller)))
                          && body.startDate.value < body.endDate.value
    ensures r.Reply? ==>
      && r.status == Created && r.value.id == newId
      && r.value.doc == Normalize(Stamped(body, caller))
      && r.value.doc.createdBy == Some(caller.id)
      && c.docs == old(c.docs)[newId := r.value]
    ensures !r.Reply? ==> c.docs == old(c.docs)
  {
    SaveDecision(Stamped(body, caller));
    r := Handlers.Create(c, caller.role in WriteRoles, Save(Stamped(body, caller)), newId, now);
  }

  method Update(c: Collection<Program>, caller: Principal, id: string, patch: Program, now: int)
    returns (r: Response<Stored<Program>>)
    requires Holds(c)
    modifies c
    ensures Holds(c)
    ensures r == Refusal(Forbidden, RoleDenied) <==> caller.role !in WriteRoles
    ensures r == Refusal(NotFound, NotFoundMessage) <==>
      caller.role in WriteRoles && IsObjectId(id) && CastUpdate(patch).Ok? && id !in old(c.docs)
    ensures r.Reply? <==>
      caller.role in WriteRoles && IsObjectId(id) && CastUpdate(patch).Ok? && id in old(c.docs)
    ensures r.Reply? ==>
      && r.value.doc == Merge(old(c.docs)[id].doc, CastUpdate(patch).value)
      && r.value.createdAt == old(c.docs)[id].createdAt && r.value.updatedAt == now
      && c.docs == old(c.docs)[id := r.value]
    ensures !r.Reply? ==> c.docs == old(c.docs)
  {
    if caller.role in WriteRoles && IsObjectId(id) && CastUpdate(patch).Ok? && id in c.docs {
      UpdateKeepsValid(c.docs[id].doc, patch);
    }
    r := Handlers.Update(c, caller.role in WriteRoles, id, CastUpdate(patch), Merge, now, NotFoundMessage);
  }

  method Delete(c: Collection<Program>, caller: Principal, id: string) returns (r: Response<string>)
    requires Holds(c)
    modifies c
    ensures Holds(c)
    ensures r == Refusal(Forbidden, RoleDenied) <==> caller.role !in DeleteRoles
    ensures r == Refusal(NotFound, NotFoundMessage) <==>
      caller.role in DeleteRoles && IsObjectId(id) && id !in old(c.docs)
    ensures r.Crash? <==> caller.role in DeleteRoles && !IsObjectId(id)
    ensures r.Reply? ==> r.value == DeletedMessage && c.docs == old(c.docs) - {id}
    ensures !r.Reply? ==> c.docs == old(c.docs)
  {
    r := Handlers.Delete(c, caller.role in DeleteRoles, id, NotFoundMessage, DeletedMessage);
  }
}
