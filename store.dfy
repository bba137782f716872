/** A MongoDB collection as the routes use it through Mongoose: documents keyed
    by id, each stamped with `createdAt`/`updatedAt` (`timestamps: true`), and
    the model operations `save()` of a new document, `findById`,
    `findByIdAndUpdate`, `findByIdAndDelete` and `find().sort({ createdAt: -1 })`. */
module Store {

  import opened Common

  datatype Stored<T> = Stored(id: ObjectId, doc: T, createdAt: int, updatedAt: int)

  // ---- newest-first ordering ----

  /** `ids` lists ids of `created`, newest first. */
  predicate NewestFirst(ids: seq<ObjectId>, created: map<ObjectId, int>) {
    && (forall i :: 0 <= i < |ids| ==> ids[i] in created)
    && (forall i, j :: 0 <= i < j < |ids| ==> created[ids[i]] >= created[ids[j]])
  }

  /** Puts `k` in front of the first id that is not newer than it. */
  function InsertByDate(ids: seq<ObjectId>, k: ObjectId, created: map<ObjectId, int>): (r: seq<ObjectId>)
    requires k in created && NewestFirst(ids, created)
    ensures multiset(r) == multiset(ids) + multiset{k}
    ensures NewestFirst(r, created)
  {
    if ids == [] then [k]
    else if created[ids[0]] <= created[k] then
      NoneNewerThanHead(ids, created);
      NewestFirstCons(k, ids, created);
      [k] + ids
    else
      var rest := InsertByDate(ids[1..], k, created);
      assert ids == [ids[0]] + ids[1..];
      NotNewerThanHead(ids, k, created, rest);
      NewestFirstCons(ids[0], rest, created);
      [ids[0]] + rest
  }

  /** An id no older than everything listed may go in front. */
  lemma NewestFirstCons(x: ObjectId, ids: seq<ObjectId>, created: map<ObjectId, int>)
    requires x in created && NewestFirst(ids, created)
    requires forall j :: 0 <= j < |ids| ==> created[ids[j]] <= created[x]
    ensures NewestFirst([x] + ids, created)
  {
    var r := [x] + ids;
    forall i, j | 0 <= i < j < |r|
      ensures created[r[i]] >= created[r[j]]
    {
      assert r[j] == ids[j - 1];
      if i > 0 {
        assert r[i] == ids[i - 1];
      }
    }
  }

  lemma NoneNewerThanHead(ids: seq<ObjectId>, created: map<ObjectId, int>)
    requires NewestFirst(ids, created) && ids != []
    ensures forall j :: 0 <= j < |ids| ==> created[ids[j]] <= created[ids[0]]
  {
    forall j | 0 < j < |ids|
      ensures created[ids[j]] <= created[ids[0]]
    {
    }
  }

  /** Whatever `InsertByDate` builds behind the head of `ids` is no newer than
      that head, when `k` is older than it. */
  lemma NotNewerThanHead(ids: seq<ObjectId>, k: ObjectId, created: map<ObjectId, int>, rest: seq<ObjectId>)
    requires k in created && NewestFirst(ids, created) && ids != []
    requires created[k] < created[ids[0]]
    requires multiset(rest) == multiset(ids[1..]) + multiset{k}
    requires NewestFirst(rest, created)
    ensures forall j :: 0 <= j < |rest| ==> created[rest[j]] <= created[ids[0]]
  {
    forall j | 0 <= j < |rest|
      ensures created[rest[j]] <= created[ids[0]]
    {
      var x := rest[j];
      assert x in multiset(rest);
      if x != k {
        assert x in multiset(ids[1..]);
        var n :| 0 <= n < |ids[1..]| && ids[1..][n] == x;
        assert ids[n + 1] == x;
      }
    }
  }

  /** The order of `find().sort({ createdAt: -1 })`: every id exactly once,
      newest first (documents created at the same instant in any order). */
  method SortNewestFirst(created: map<ObjectId, int>) returns (ids: seq<ObjectId>)
    ensures multiset(ids) == multiset(created.Keys)
    ensures NewestFirst(ids, created)
  {
    ids := [];
    var rest := created.Keys;
    ghost var done: set<ObjectId> := {};
    while rest != {}
      invariant rest <= created.Keys && done == created.Keys - rest
      invariant multiset(ids) == multiset(done)
      invariant NewestFirst(ids, created)
      decreases |rest|
    {
      var k :| k in rest;
      ids := InsertByDate(ids, k, created);
      assert multiset(done + {k}) == multiset(done) + multiset{k};
      rest := rest - {k};
      done := done + {k};
    }
  }

  /** Two equal entries of a sequence count twice in its multiset. */
  lemma CountsRepeat(ids: seq<ObjectId>, i: nat, j: nat)
    requires i < j < |ids|
    ensures ids[i] == ids[j] ==> multiset(ids)[ids[i]] >= 2
  {
    if ids[i] == ids[j] {
      var x := ids[i];
      assert ids == ids[..j] + ids[j..];
      assert ids[..j][i] == x && ids[j..][0] == x;
      assert multiset(ids)[x] == multiset(ids[..j])[x] + multiset(ids[j..])[x];
    }
  }

  /** A sequence whose multiset is that of a set holds each element once. */
  lemma DistinctOfSet(ids: seq<ObjectId>, s: set<ObjectId>)
    requires multiset(ids) == multiset(s)
    ensures forall i, j :: 0 <= i < j < |ids| ==> ids[i] != ids[j]
  {
    forall i, j | 0 <= i < j < |ids|
      ensures ids[i] != ids[j]
    {
      CountsRepeat(ids, i, j);
    }
  }

  /** A sequence whose multiset is that of a set lists every element of the set. */
  lemma AllListed(ids: seq<ObjectId>, s: set<ObjectId>)
    requires multiset(ids) == multiset(s)
    ensures forall k :: k in s ==> k in ids
  {
    forall k | k in s
      ensures k in ids
    {
      assert k in multiset(s);
    }
  }

  /** The creation times of the stored documents that pass `keep`. */
  function CreatedOf<T>(m: map<ObjectId, Stored<T>>, keep: T -> bool): (r: map<ObjectId, int>)
    ensures forall k :: k in r <==> k in m && keep(m[k].doc)
    ensures forall k :: k in r ==> r[k] == m[k].createdAt
  {
    map k | k in m && keep(m[k].doc) :: m[k].createdAt
  }

  /** The stored documents under `ids`, in that order. */
  function Fetch<T>(m: map<ObjectId, Stored<T>>, ids: seq<ObjectId>): (r: seq<Stored<T>>)
    requires forall i :: 0 <= i < |ids| ==> ids[i] in m
    ensures |r| == |ids| && forall i :: 0 <= i < |ids| ==> r[i] == m[ids[i]]
  {
    if ids == [] then [] else [m[ids[0]]] + Fetch(m, ids[1..])
  }

  // ---- the collection ----

  class Collection<T> {
    var docs: map<ObjectId, Stored<T>>

    /** Every stored document carries its own key. */
    ghost predicate Valid()
      reads this
    {
      forall k :: k in docs ==> docs[k].id == k
    }

    constructor ()
      ensures Valid() && docs == map[]
    {
      docs := map[];
    }

    /** `findById(id)`: a malformed id fails the ObjectId cast; otherwise the
        stored document, or none. */
    function FindById(id: string): (r: Result<Option<Stored<T>>, Fault>)
      reads this
      ensures r.Err? <==> !IsObjectId(id)
      ensures r.Err? ==> r.error == CastFailed(id)
      ensures r.Ok? ==> (r.value.Some? <==> id in docs)
      ensures r.Ok? && r.value.Some? ==> r.value.value == docs[id]
    {
      if !IsObjectId(id) then Err(CastFailed(id))
      else if id in docs then Ok(Some(docs[id])) else Ok(None)
    }

    /** `save()` of a new document under a freshly generated id; an id already
        taken fails with a duplicate-key error. */
    method Insert(id: ObjectId, doc: T, now: int) returns (r: Result<Stored<T>, Fault>)
      requires Valid()
      modifies this
      ensures Valid()
      ensures id in old(docs) ==> r == Err(DuplicateKey(id)) && docs == old(docs)
      ensures id !in old(docs) ==> r == Ok(Stored(id, doc, now, now)) && docs == old(docs)[id := r.value]
    {
      if id in docs {
        r := Err(DuplicateKey(id));
      } else {
        r := Ok(Stored(id, doc, now, now));
        docs := docs[id := r.value];
      }
    }

    /** `findByIdAndUpdate(id, update, { new: true })`: the id is cast, then the
        update is cast and validated, then the stored document, if any, takes
        the update and a new `updatedAt`. */
    method FindByIdAndUpdate<P>(id: string, update: Result<P, Fault>, merge: (T, P) -> T, now: int)
      returns (r: Result<Option<Stored<T>>, Fault>)
      requires Valid()
      modifies this
      ensures Valid()
      ensures !IsObjectId(id) ==> r == Err(CastFailed(id)) && docs == old(docs)
      ensures IsObjectId(id) && update.Err? ==> r == Err(update.error) && docs == old(docs)
      ensures IsObjectId(id) && update.Ok? && id !in old(docs) ==> r == Ok(None) && docs == old(docs)
      ensures IsObjectId(id) && update.Ok? && id in old(docs) ==>
        var s := old(docs)[id];
        && r == Ok(Some(Stored(s.id, merge(s.doc, update.value), s.createdAt, now)))
        && docs == old(docs)[id := r.value.value]
    {
      if !IsObjectId(id) {
        r := Err(CastFailed(id));
      } else if update.Err? {
        r := Err(update.error);
      } else if id !in docs {
        r := Ok(None);
      } else {
        var s := docs[id];
        var s' := Stored(s.id, merge(s.doc, update.value), s.createdAt, now);
        docs := docs[id := s'];
        r := Ok(Some(s'));
      }
    }

    /** `save()` of a document that was loaded from the collection: the new
        contents replace the stored ones and `updatedAt` moves to `now`. */
    method SaveExisting(id: ObjectId, doc: T, now: int) returns (s: Stored<T>)
      requires Valid() && id in docs
      modifies this
      ensures Valid()
      ensures s == Stored(id, doc, old(docs)[id].createdAt, now)
      ensures docs == old(docs)[id := s]
    {
      s := Stored(id, doc, docs[id].createdAt, now);
      docs := docs[id := s];
    }

    /** `findByIdAndDelete(id)`: removes and returns the stored document, if any. */
    method FindByIdAndDelete(id: string) returns (r: Result<Option<Stored<T>>, Fault>)
      requires Valid()
      modifies this
      ensures Valid()
      ensures !IsObjectId(id) ==> r == Err(CastFailed(id)) && docs == old(docs)
      ensures IsObjectId(id) && id !in old(docs) ==> r == Ok(None) && docs == old(docs)
      ensures IsObjectId(id) && id in old(docs) ==>
        r == Ok(Some(old(docs)[id])) && docs == old(docs) - {id}
    {
      if !IsObjectId(id) {
        r := Err(CastFailed(id));
      } else if id !in docs {
        r := Ok(None);
      } else {
        r := Ok(Some(docs[id]));
        docs := docs - {id};
      }
    }

    /** `find(filter).sort({ createdAt: -1 })`: exactly the stored documents
        that pass `keep`, each once, newest first. */
    method List(keep: T -> bool) returns (rs: seq<Stored<T>>)
      requires Valid()
      ensures forall i :: 0 <= i < |rs| ==> rs[i].id in docs && docs[rs[i].id] == rs[i] && keep(rs[i].doc)
      ensures forall k :: k in docs && keep(docs[k].doc) ==> exists i :: 0 <= i < |rs| && rs[i].id == k
      ensures forall i, j :: 0 <= i < j < |rs| ==> rs[i].id != rs[j].id
      ensures forall i, j :: 0 <= i < j < |rs| ==> rs[i].createdAt >= rs[j].createdAt
    {
      var created := CreatedOf(docs, keep);
      var ids := SortNewestFirst(created);
      DistinctOfSet(ids, created.Keys);
      AllListed(ids, created.Keys);
      rs := Fetch(docs, ids);
      forall k | k in docs && keep(docs[k].doc)
        ensures exists i :: 0 <= i < |rs| && rs[i].id == k
      {
        var i :| 0 <= i < |ids| && ids[i] == k;
        assert rs[i].id == k;
      }
    }
  }
}
