/** The task routes: anyone signed in may list, read, create, update and
    comment; deleting needs the admin or manager role. Every task the
    collection holds is valid and in its built form (trimmed, defaults filled
    in, every comment time-stamped). */
module TaskRoutes {

  import opened Common
  import opened Text
  import opened Store
  import Handlers
  import opened TaskModel

  const WriteRoles: set<Role> := AnyRole
  const DeleteRoles: set<Role> := {Admin, Manager}
  const NotFoundMessage := "Task not found"
  const DeletedMessage := "Task deleted successfully"

  /** What a stored task looks like. */
  predicate Kept(t: Task) {
    Valid(t) && Normalized(t)
  }

  ghost predicate AllKept(m: map<ObjectId, Stored<Task>>) {
    forall k :: k in m ==> Kept(m[k].doc)
  }

  /** What the collection holds. */
  ghost predicate Holds(c: Collection<Task>)
    reads c
  {
    c.Valid() && AllKept(c.docs)
  }

  lemma AllKeptPut(m: map<ObjectId, Stored<Task>>, k: ObjectId, s: Stored<Task>)
    requires AllKept(m) && Kept(s.doc)
    ensures AllKept(m[k := s])
  {
  }

  lemma AllKeptRemove(m: map<ObjectId, Stored<Task>>, k: ObjectId)
    requires AllKept(m)
    ensures AllKept(m - {k})
  {
  }

  /** The create payload: the body with `createdBy` set to the caller. */
  function Stamped(body: Task, caller: Principal): Task {
    body.(createdBy := Some(caller.id))
  }

  /** `task.comments.push({ user, text })` on a loaded task. */
  function WithComment(t: Task, user: ObjectId, text: Option<string>): Task {
    t.(comments := Some((if t.comments.Some? then t.comments.value else []) + [Comment(Some(user), text, None)]))
  }

  /** Saving a stored task after the push changes nothing but the new entry,
      which ends up last, with its text trimmed and stamped with the save time. */
  lemma CommentAppended(t: Task, user: ObjectId, text: Option<string>, now: int)
    requires Normalized(t)
    ensures Normalize(WithComment(t, user, text), now)
         == t.(comments := Some(t.comments.value + [Comment(Some(user), TrimOpt(text), Some(now))]))
  {
    NormalizeFixes(t, now);
    var cs := t.comments.value;
    var added := Comment(Some(user), text, None);
    forall i | 0 <= i < |cs| ensures BuildComment(cs[i], now) == cs[i] {
      if cs[i].text.Some? { TrimOfTrimmed(cs[i].text.value); }
    }
    assert BuildComments(cs + [added], now) == cs + [BuildComment(added, now)];
  }

  /** Replacing the comments of a valid task keeps it valid exactly when
      every new entry is a good comment. */
  lemma ValidWithComments(t: Task, cs: seq<Comment>)
    requires Valid(t)
    ensures Valid(t.(comments := Some(cs))) <==> forall i :: 0 <= i < |cs| ==> CommentOk(cs[i])
  {
  }

  lemma AppendedCommentsOk(cs: seq<Comment>, x: Comment)
    requires forall i :: 0 <= i < |cs| ==> CommentOk(cs[i])
    ensures (forall i :: 0 <= i < |cs + [x]| ==> CommentOk((cs + [x])[i])) <==> CommentOk(x)
  {
    assert (cs + [x])[|cs|] == x;
  }

  /** A comment on a stored task is saved exactly when its text is non-empty
      after trimming and the task's due date is after its start date; with a
      good text and dates out of order the date hook rejects it. */
  lemma CommentDecision(t: Task, user: ObjectId, text: Option<string>, now: int)
    requires Valid(t) && Normalized(t)
    ensures Save(WithComment(t, user, text), now).Ok? <==>
      text.Some? && |Trim(text.value)| > 0 && t.startDate.value < t.dueDate.value
    ensures Save(WithComment(t, user, text), now) == Err(HookRejected(DateOrderMessage)) <==>
      text.Some? && |Trim(text.value)| > 0 && t.dueDate.value <= t.startDate.value
  {
    CommentValid(t, user, text, now);
    SaveDecision(WithComment(t, user, text), now);
  }

  /** The task built from a stored task after the push is valid exactly when
      the comment's trimmed text is non-empty. */
  lemma CommentValid(t: Task, user: ObjectId, text: Option<string>, now: int)
    requires Valid(t) && Normalized(t)
    ensures Valid(Normalize(WithComment(t, user, text), now)) <==> text.Some? && |Trim(text.value)| > 0
  {
    var added := Comment(Some(user), TrimOpt(text), Some(now));
    CommentAppended(t, user, text, now);
    ValidWithComments(t, t.comments.value + [added]);
    AppendedCommentsOk(t.comments.value, added);
  }

  method Create(c: Collection<Task>, caller: Principal, body: Task, newId: ObjectId, now: int)
    returns (r: Response<Stored<Task>>)
    requires Holds(c)
    modifies c
    ensures Holds(c)
    ensures !r.Refusal?
    ensures r == Crash(HookRejected(DateOrderMessage)) <==>
      Valid(Normalize(Stamped(body, caller), now)) && body.dueDate.value <= body.startDate.value
    ensures r.Reply? <==> && newId !in old(c.docs)
                          && Valid(Normalize(Stamped(body, caller), now))
                          && body.startDate.value < body.dueDate.value
    ensures r.Reply? ==>
      && r.status == Created && r.value.id == newId
      && r.value.doc == Normalize(Stamped(body, caller), now)
      && r.value.doc.createdBy == Some(caller.id)
      && c.docs == old(c.docs)[newId := r.value]
    ensures !r.Reply? ==> c.docs == old(c.docs)
  {
    assert caller.role in WriteRoles by { assert caller.role.Admin? || caller.role.Manager? || caller.role.Member?; }
    SaveDecision(Stamped(body, caller), now);
    NormalizeNormalizes(Stamped(body, caller), now);
    if Save(Stamped(body, caller), now).Ok? {
      AllKeptPut(c.docs, newId, Stored(newId, Save(Stamped(body, caller), now).value, now, now));
    }
    r := Handlers.Create(c, caller.role in WriteRoles, Save(Stamped(body, caller), now), newId, now);
  }

  method Update(c: Collection<Task>, caller: Principal, id: string, patch: Task, now: int)
    returns (r: Response<Stored<Task>>)
    requires Holds(c)
    modifies c
    ensures Holds(c)
    ensures r.Refusal? <==> IsObjectId(id) && CastUpdate(patch, now).Ok? && id !in old(c.docs)
    ensures r.Refusal? ==> r == Refusal(NotFound, NotFoundMessage)
    ensures r.Reply? <==> IsObjectId(id) && CastUpdate(patch, now).Ok? && id in old(c.docs)
    ensures r.Reply? ==>
      && r.value.doc == Merge(old(c.docs)[id].doc, CastUpdate(patch, now).value)
      && r.value.createdAt == old(c.docs)[id].createdAt && r.value.updatedAt == now
      && c.docs == old(c.docs)[id := r.value]
    ensures !r.Reply? ==> c.docs == old(c.docs)
  {
    assert caller.role in WriteRoles by { assert caller.role.Admin? || caller.role.Manager? || caller.role.Member?; }
    if IsObjectId(id) && CastUpdate(patch, now).Ok? && id in c.docs {
      var d := c.docs[id];
      UpdateKeepsValid(d.doc, patch, now);
      MergeNormalized(d.doc, patch, now);
      AllKeptPut(c.docs, id, Stored(d.id, Merge(d.doc, CastUpdate(patch, now).value), d.createdAt, now));
    }
    r := Handlers.Update(c, caller.role in WriteRoles, id, CastUpdate(patch, now), Merge, now, NotFoundMessage);
  }

  /** `POST /:id/comments`: load the task, push the comment, `save()`. */
  method AddComment(c: Collection<Task>, caller: Principal, id: string, text: Option<string>, now: int)
    returns (r: Response<Stored<Task>>)
    requires Holds(c)
    modifies c
    ensures Holds(c)
    ensures !IsObjectId(id) ==> r == Crash(CastFailed(id))
    ensures r == Refusal(NotFound, NotFoundMessage) <==> IsObjectId(id) && id !in old(c.docs)
    ensures r.Reply? <==>
      && IsObjectId(id) && id in old(c.docs)
      && text.Some? && |Trim(text.value)| > 0
      && old(c.docs)[id].doc.startDate.value < old(c.docs)[id].doc.dueDate.value
    ensures r.Reply? ==>
      var s := old(c.docs)[id];
      && r.value == Stored(s.id, s.doc.(comments := Some(s.doc.comments.value
                                  + [Comment(Some(caller.id), TrimOpt(text), Some(now))])),
                           s.createdAt, now)
      && c.docs == old(c.docs)[id := r.value]
    ensures !r.Reply? ==> c.docs == old(c.docs)
  {
    var found := c.FindById(id);
    if found.Err? {
      return Crash(found.error);
    }
    if found.value.None? {
      return Refusal(NotFound, NotFoundMessage);
    }
    var s := found.value.value;
    var t := WithComment(s.doc, caller.id, text);
    CommentAppended(s.doc, caller.id, text, now);
    CommentDecision(s.doc, caller.id, text, now);
    SaveDecision(t, now);
    match Save(t, now)
    case Err(e) =>
      r := Crash(e);
    case Ok(saved) =>
      NormalizeNormalizes(t, now);
      AllKeptPut(c.docs, s.id, Stored(s.id, saved, s.createdAt, now));
      var s' := c.SaveExisting(s.id, saved, now);
      r := Reply(Success, s');
  }

  method Delete(c: Collection<Task>, caller: Principal, id: string) returns (r: Response<string>)
    requires Holds(c)
    modifies c
    ensures Holds(c)
    ensures r == Refusal(Forbidden, RoleDenied) <==> caller.role !in DeleteRoles
    ensures r == Refusal(NotFound, NotFoundMessage) <==>
      caller.role in DeleteRoles && IsObjectId(id) && id !in old(c.docs)
    ensures r.Crash? <==> caller.role in DeleteRoles && !IsObjectId(id)
    ensures r.Reply? ==> r.value == DeletedMessage && c.docs == old(c.docs) - {id}
    ensures !r.Reply? ==> c.docs == old(c.docs)
  {
    if IsObjectId(id) {
      AllKeptRemove(c.docs, id);
    }
    r := Handlers.Delete(c, caller.role in DeleteRoles, id, NotFoundMessage, DeletedMessage);
  }
}
