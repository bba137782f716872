/** The shape every route handler shares: a guard that answers 403, the
    collection call, 404 when the id names no document, and the `catch` block
    that turns every thrown error into a 500. */
module Handlers {

  import opened Common
  import opened Store

  /** `GET /`: every stored document, each once, newest first. */
  method List<T>(c: Collection<T>) returns (r: Response<seq<Stored<T>>>)
    requires c.Valid()
    ensures r.Reply? && r.status == Success
    ensures forall i :: 0 <= i < |r.value| ==> r.value[i].id in c.docs && c.docs[r.value[i].id] == r.value[i]
    ensures forall k :: k in c.docs ==> exists i :: 0 <= i < |r.value| && r.value[i].id == k
    ensures forall i, j :: 0 <= i < j < |r.value| ==>
      r.value[i].id != r.value[j].id && r.value[i].createdAt >= r.value[j].createdAt
  {
    var all := (d: T) => true;
    var rs := c.List(all);
    forall k | k in c.docs
      ensures exists i :: 0 <= i < |rs| && rs[i].id == k
    {
      assert all(c.docs[k].doc);
    }
    r := Reply(Success, rs);
  }

  /** `GET /:id`: a malformed id throws a cast error (500); an unknown id is 404. */
  function Get<T>(c: Collection<T>, id: string, notFound: string): (r: Response<Stored<T>>)
    reads c
    ensures r.Crash? <==> !IsObjectId(id)
    ensures r.Crash? ==> r.fault == CastFailed(id)
    ensures r.Refusal? <==> IsObjectId(id) && id !in c.docs
    ensures r.Refusal? ==> r.status == NotFound && r.message == notFound
    ensures r.Reply? ==> r.status == Success && r.value == c.docs[id]
  {
    match c.FindById(id)
    case Err(e) => Crash(e)
    case Ok(None) => Refusal(NotFound, notFound)
    case Ok(Some(s)) => Reply(Success, s)
  }

  /** `POST /`: when the guard passes, the document built from the request
      (`saved`, or the error its `save()` raised) goes into the collection. */
  method Create<T>(c: Collection<T>, permitted: bool, saved: Result<T, Fault>, newId: ObjectId, now: int)
    returns (r: Response<Stored<T>>)
    requires c.Valid()
    modifies c
    ensures c.Valid()
    ensures !permitted ==> r == Refusal(Forbidden, RoleDenied)
    ensures permitted && saved.Err? ==> r == Crash(saved.error)
    ensures permitted && saved.Ok? && newId in old(c.docs) ==> r == Crash(DuplicateKey(newId))
    ensures r.Reply? <==> permitted && saved.Ok? && newId !in old(c.docs)
    ensures r.Reply? ==> && r == Reply(Created, Stored(newId, saved.value, now, now))
                         && c.docs == old(c.docs)[newId := r.value]
    ensures !r.Reply? ==> c.docs == old(c.docs)
  {
    if !permitted {
      return Refusal(Forbidden, RoleDenied);
    }
    if saved.Err? {
      return Crash(saved.error);
    }
    var res := c.Insert(newId, saved.value, now);
    match res
    case Err(e) => r := Crash(e);
    case Ok(s) => r := Reply(Created, s);
  }

  /** `PUT /:id` through `findByIdAndUpdate`: guard, id cast, update cast and
      validation, then 404 or the merged document. */
  method Update<T, P>(c: Collection<T>, permitted: bool, id: string, update: Result<P, Fault>,
                      merge: (T, P) -> T, now: int, notFound: string)
    returns (r: Response<Stored<T>>)
    requires c.Valid()
    modifies c
    ensures c.Valid()
    ensures !permitted ==> r == Refusal(Forbidden, RoleDenied)
    ensures permitted && !IsObjectId(id) ==> r == Crash(CastFailed(id))
    ensures permitted && IsObjectId(id) && update.Err? ==> r == Crash(update.error)
    ensures permitted && IsObjectId(id) && update.Ok? && id !in old(c.docs) ==> r == Refusal(NotFound, notFound)
    ensures r.Reply? <==> permitted && IsObjectId(id) && update.Ok? && id in old(c.docs)
    ensures r.Reply? ==>
      var s := old(c.docs)[id];
      && r == Reply(Success, Stored(s.id, merge(s.doc, update.value), s.createdAt, now))
      && c.docs == old(c.docs)[id := r.value]
    ensures !r.Reply? ==> c.docs == old(c.docs)
  {
    if !permitted {
      return Refusal(Forbidden, RoleDenied);
    }
    var res := c.FindByIdAndUpdate(id, update, merge, now);
    match res
    case Err(e) => r := Crash(e);
    case Ok(None) => r := Refusal(NotFound, notFound);
    case Ok(Some(s)) => r := Reply(Success, s);
  }

  /** `DELETE /:id` through `findByIdAndDelete`: guard, id cast, then 404 or
      the document is gone and the answer is the success message. */
  method Delete<T>(c: Collection<T>, permitted: bool, id: string, notFound: string, deleted: string)
    returns (r: Response<string>)
    requires c.Valid()
    modifies c
    ensures c.Valid()
    ensures !permitted ==> r == Refusal(Forbidden, RoleDenied)
    ensures permitted && !IsObjectId(id) ==> r == Crash(CastFailed(id))
    ensures permitted && IsObjectId(id) && id !in old(c.docs) ==> r == Refusal(NotFound, notFound)
    ensures r.Reply? <==> permitted && IsObjectId(id) && id in old(c.docs)
    ensures r.Reply? ==> r == Reply(Success, deleted) && c.docs == old(c.docs) - {id}
    ensures !r.Reply? ==> c.docs == old(c.docs)
  {
    if !permitted {
      return Refusal(Forbidden, RoleDenied);
    }
    var res := c.FindByIdAndDelete(id);
    match res
    case Err(e) => r := Crash(e);
    case Ok(None) => r := Refusal(NotFound, notFound);
    case Ok(Some(_)) => r := Reply(Success, deleted);
  }
}
