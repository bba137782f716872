/** The document routes: the multer upload stage (file filter, size limit),
    the record built from an upload, and the upload, update and delete
    handlers. Anyone signed in may upload and update; deleting needs the admin
    or manager role. Every document the collection holds passes the schema's
    validators. */
module DocumentRoutes {

  import opened Common
  import opened Text
  import opened Store
  import Handlers
  import opened DocumentModel

  const WriteRoles: set<Role> := AnyRole
  const DeleteRoles: set<Role> := {Admin, Manager}
  const NotFoundMessage := "Document not found"
  const DeletedMessage := "Document deleted successfully"
  const NoFileMessage := "No file uploaded"

  /** `limits.fileSize`: 10 MiB. */
  const MaxFileSize: nat := 10 * 1024 * 1024

  /** The form field the file arrives in, `upload.single('file')`. */
  const FieldName := "file"

  /** The alternatives of `/jpeg|jpg|png|gif|pdf|doc|docx|xls|xlsx|ppt|pptx|txt/`. */
  const AllowedTypes: seq<string> :=
    ["jpeg", "jpg", "png", "gif", "pdf", "doc", "docx", "xls", "xlsx", "ppt", "pptx", "txt"]

  /** The alternatives no other alternative occurs in. */
  const CoreTypes: seq<string> := ["jpeg", "jpg", "png", "gif", "pdf", "doc", "xls", "ppt", "txt"]

  /** The file part as multer reports it. */
  datatype UploadedFile = UploadedFile(originalname: string, mimetype: string, size: nat)

  /** The text fields of the multipart form. */
  datatype UploadBody = UploadBody(
    name: Option<string>,
    kind: Option<string>,        // the `type` field
    version: Option<string>,
    description: Option<string>,
    project: Option<string>,
    tags: Option<string>)

  // ---- path.extname ----

  function TrimTrailingSlashes(s: string): (r: string)
    ensures |r| <= |s| && r == s[..|r|]
    ensures r == [] || r[|r| - 1] != '/'
    ensures forall i :: |r| <= i < |s| ==> s[i] == '/'
  {
    if s != [] && s[|s| - 1] == '/' then TrimTrailingSlashes(s[..|s| - 1]) else s
  }

  /** The position of the last `c` in `s`, if any. */
  function LastIndexOf(s: string, c: char): (r: Option<nat>)
    ensures r.None? <==> c !in s
    ensures r.Some? ==> r.value < |s| && s[r.value] == c && c !in s[r.value + 1..]
  {
    if s == [] then None
    else if s[|s| - 1] == c then Some(|s| - 1)
    else
      assert s == s[..|s| - 1] + [s[|s| - 1]];
      LastIndexOf(s[..|s| - 1], c)
  }

  /** The last path component, trailing slashes ignored: the longest suffix
      of the slash-trimmed path that holds no '/'. */
  function BaseName(s: string): (b: string)
    ensures '/' !in b
    ensures var t := TrimTrailingSlashes(s);
      && |b| <= |t| && b == t[|t| - |b|..]
      && (|b| == |t| || t[|t| - |b| - 1] == '/')
  {
    var t := TrimTrailingSlashes(s);
    match LastIndexOf(t, '/')
    case None => t
    case Some(i) => assert |t| - |t[i + 1..]| - 1 == i; t[i + 1..]
  }

  /** `path.extname`: from the last dot of the last component to its end;
      empty when that component has no dot, has its only dot first, or is `..`. */
  function ExtName(s: string): (r: string)
    ensures var b := BaseName(s);
      && (r == [] <==> '.' !in b || '.' !in b[1..] || b == "..")
      && (r != [] ==> && |r| < |b| && r == b[|b| - |r|..]
                      && r[0] == '.' && '.' !in r[1..] && '/' !in r)
  {
    ExtOf(BaseName(s))
  }

  /** The extension of one path component `b`. */
  function ExtOf(b: string): (r: string)
    ensures r == [] <==> '.' !in b || '.' !in b[1..] || b == ".."
    ensures r != [] ==> && |r| < |b| && r == b[|b| - |r|..]
                        && r[0] == '.' && '.' !in r[1..]
  {
    match LastIndexOf(b, '.')
    case None => ""
    case Some(d) =>
      if d == 0 || b == ".." then ""
      else
        assert b[d..][1..] == b[d + 1..];
        assert '.' in b[1..] by { assert b[1..][d - 1] == '.'; }
        b[d..]
  }

  // ---- the file filter ----

  /** `allowedTypes.test(s)`: one of the alternatives occurs somewhere in `s`. */
  predicate MatchesAllowed(s: string) {
    exists i :: 0 <= i < |AllowedTypes| && Contains(s, AllowedTypes[i])
  }

  /** The longer alternatives add nothing: `docx` holds `doc`, `xlsx` holds
      `xls`, `pptx` holds `ppt`. */
  lemma MatchesCore(s: string)
    ensures MatchesAllowed(s) <==> exists i :: 0 <= i < |CoreTypes| && Contains(s, CoreTypes[i])
  {
    if MatchesAllowed(s) {
      var i :| 0 <= i < |AllowedTypes| && Contains(s, AllowedTypes[i]);
      var t := AllowedTypes[i];
      var j := [0, 1, 2, 3, 4, 5, 5, 6, 6, 7, 7, 8][i];
      if i == 6 || i == 8 || i == 10 {
        ContainsPrefix(s, t, 3);
        assert t[..3] == CoreTypes[j];
      } else {
        assert t == CoreTypes[j];
      }
    }
    if exists i :: 0 <= i < |CoreTypes| && Contains(s, CoreTypes[i]) {
      var i :| 0 <= i < |CoreTypes| && Contains(s, CoreTypes[i]);
      var j := [0, 1, 2, 3, 4, 5, 7, 9, 11][i];
      assert AllowedTypes[j] == CoreTypes[i];
    }
  }

  /** The multer `fileFilter`: both the lower-cased extension of the original
      name and the MIME type (as sent) must match. */
  predicate Accepts(f: UploadedFile) {
    MatchesAllowed(ToLower(ExtName(f.originalname))) && MatchesAllowed(f.mimetype)
  }

  /** No three consecutive characters of `s` begin `t`, so `t` does not occur. */
  lemma Absent(s: string, t: string)
    requires |t| >= 3
    requires forall i :: 0 <= i && i + 3 <= |s| ==> !(s[i] == t[0] && s[i + 1] == t[1] && s[i + 2] == t[2])
    ensures !Contains(s, t)
  {
    forall i | 0 <= i <= |s|
      ensures !OccursAt(s, t, i)
    {
      if i + |t| <= |s| {
        var w := s[i..i + |t|];
        assert w[0] == s[i] && w[1] == s[i + 1] && w[2] == s[i + 2];
      }
    }
  }

  /** No alternative occurs in `s` when none of the core ones does. */
  lemma NoMatch(s: string)
    requires forall i :: 0 <= i < |CoreTypes| ==> !Contains(s, CoreTypes[i])
    ensures !MatchesAllowed(s)
  {
    MatchesCore(s);
  }

  /** The standard MIME type of plain text names none of the alternatives, so
      a `.txt` file sent as `text/plain` is refused. */
  lemma PlainTextRefused(name: string, size: nat)
    ensures !Accepts(UploadedFile(name, "text/plain", size))
  {
    var s := "text/plain";
    forall i | 0 <= i < |CoreTypes| ensures !Contains(s, CoreTypes[i]) {
      Absent(s, CoreTypes[i]);
    }
    NoMatch(s);
  }

  /** The same holds for Word's `application/msword`. */
  lemma WordRefused(name: string, size: nat)
    ensures !Accepts(UploadedFile(name, "application/msword", size))
  {
    var s := "application/msword";
    forall i | 0 <= i < |CoreTypes| ensures !Contains(s, CoreTypes[i]) {
      Absent(s, CoreTypes[i]);
    }
    NoMatch(s);
  }

  /** An upper-case extension with a standard image type passes. */
  lemma JpegAccepted(size: nat)
    ensures Accepts(UploadedFile("photo.JPG", "image/jpeg", size))
  {
    PhotoExtension();
    LowerJpgMatches();
    JpegTypeMatches();
  }

  lemma LowerJpgMatches()
    ensures MatchesAllowed(ToLower(".JPG"))
  {
    var l := ToLower(".JPG");
    assert l[1] == 'j' && l[2] == 'p' && l[3] == 'g';
    assert l[1..4] == "jpg";
    assert OccursAt(l, AllowedTypes[1], 1);
  }

  lemma JpegTypeMatches()
    ensures MatchesAllowed("image/jpeg")
  {
    var m := "image/jpeg";
    assert m[6..10] == "jpeg";
    assert OccursAt(m, AllowedTypes[0], 6);
  }

  lemma PhotoExtension()
    ensures ExtName("photo.JPG") == ".JPG"
  {
    var n := "photo.JPG";
    assert n[|n| - 1] != '/';
    assert TrimTrailingSlashes(n) == n;
    assert '/' !in n;
    assert BaseName(n) == n;
    var e := ExtName(n);
    assert '.' in n[1..] by { assert n[1..][4] == '.'; }
    assert e != [] && e[0] == '.' && e == n[|n| - |e|..];
    assert n[|n| - |e|] == '.';
    assert |n| - |e| == 5;
  }

  // ---- the record built from an upload ----

  /** A form field counts only when it is present and not empty. */
  predicate Given(v: Option<string>) {
    v.Some? && v.value != ""
  }

  /** The name `diskStorage` gives the stored file; `suffix` stands for the
      time and random number it is built from. */
  function StoredFilename(f: UploadedFile, suffix: string): string {
    FieldName + "-" + suffix + ExtName(f.originalname)
  }

  /** `documentData`: what the handler builds from the form and the file. */
  function Record(body: UploadBody, f: UploadedFile, caller: Principal, filename: string): Document {
    Document(
      Some(if Given(body.name) then body.name.value else f.originalname),
      body.kind, body.version, body.description,
      Some(caller.id), body.project,
      Some("/uploads/" + filename),
      Some(f.size as real), Some(f.mimetype),
      None,
      Some(if Given(body.tags) then Split(body.tags.value, ',') else []))
  }

  /** The upload record: name falls back to the file's name, the uploader is
      the caller, url, size and type come from the file, status is left to its
      default, and the tags joined back with commas give the tags field. */
  lemma RecordFields(body: UploadBody, f: UploadedFile, caller: Principal, filename: string)
    ensures var d := Record(body, f, caller, filename);
      && (Given(body.name) ==> d.name == body.name)
      && (!Given(body.name) ==> d.name == Some(f.originalname))
      && d.uploadedBy == Some(caller.id)
      && d.url == Some("/uploads/" + filename)
      && d.size == Some(f.size as real) && d.mimeType == Some(f.mimetype)
      && d.status.None?
      && d.tags.Some?
      && (Given(body.tags) ==> |d.tags.value| > 0 && Join(d.tags.value, ',') == body.tags.value)
      && (!Given(body.tags) ==> d.tags.value == [])
      && (forall i, k :: 0 <= i < |d.tags.value| && 0 <= k < |d.tags.value[i]| ==> d.tags.value[i][k] != ',')
  {
    if Given(body.tags) {
      JoinSplit(body.tags.value, ',');
    }
  }

  // ---- the handlers ----

  ghost predicate AllValid(m: map<ObjectId, Stored<Document>>) {
    forall k :: k in m ==> Valid(m[k].doc)
  }

  /** What the collection holds: each document under its own id, each valid. */
  ghost predicate Holds(c: Collection<Document>)
    reads c
  {
    c.Valid() && AllValid(c.docs)
  }

  lemma AllValidPut(m: map<ObjectId, Stored<Document>>, k: ObjectId, s: Stored<Document>)
    requires AllValid(m) && Valid(s.doc)
    ensures AllValid(m[k := s])
  {
  }

  /** `POST /` behind `upload.single('file')`: the filter and the size limit
      fail the request before the handler runs; a request without a file is
      a 400; otherwise the record is saved. */
  method Upload(c: Collection<Document>, caller: Principal, body: UploadBody, file: Option<UploadedFile>,
                suffix: string, newId: ObjectId, now: int)
    returns (r: Response<Stored<Document>>)
    requires Holds(c)
    modifies c
    ensures Holds(c)
    ensures file.Some? && !Accepts(file.value) ==> r == Crash(InvalidFileType)
    ensures file.Some? && Accepts(file.value) && file.value.size > MaxFileSize ==> r == Crash(FileTooLarge)
    ensures file.None? ==> r == Refusal(BadRequest, NoFileMessage)
    ensures r.Refusal? ==> file.None?
    ensures r.Reply? <==>
      && file.Some? && Accepts(file.value) && file.value.size <= MaxFileSize
      && newId !in old(c.docs)
      && Valid(Normalize(Record(body, file.value, caller, StoredFilename(file.value, suffix))))
    ensures r.Reply? ==>
      && r.status == Created && r.value.id == newId
      && r.value.doc == Normalize(Record(body, file.value, caller, StoredFilename(file.value, suffix)))
      && c.docs == old(c.docs)[newId := r.value]
    ensures !r.Reply? ==> c.docs == old(c.docs)
  {
    if file.Some? && !Accepts(file.value) {
      return Crash(InvalidFileType);
    }
    if file.Some? && file.value.size > MaxFileSize {
      return Crash(FileTooLarge);
    }
    if file.None? {
      return Refusal(BadRequest, NoFileMessage);
    }
    assert caller.role in WriteRoles by { assert caller.role.Admin? || caller.role.Manager? || caller.role.Member?; }
    var record := Record(body, file.value, caller, StoredFilename(file.value, suffix));
    if Save(record).Ok? {
      AllValidPut(c.docs, newId, Stored(newId, Save(record).value, now, now));
    }
    r := Handlers.Create(c, caller.role in WriteRoles, Save(record), newId, now);
  }

  method Update(c: Collection<Document>, caller: Principal, id: string, patch: Document, now: int)
    returns (r: Response<Stored<Document>>)
    requires Holds(c)
    modifies c
    ensures Holds(c)
    ensures r.Refusal? <==> IsObjectId(id) && CastUpdate(patch).Ok? && id !in old(c.docs)
    ensures r.Refusal? ==> r == Refusal(NotFound, NotFoundMessage)
    ensures r.Reply? <==> IsObjectId(id) && CastUpdate(patch).Ok? && id in old(c.docs)
    ensures r.Reply? ==>
      && r.value.doc == Merge(old(c.docs)[id].doc, CastUpdate(patch).value)
      && r.value.createdAt == old(c.docs)[id].createdAt && r.value.updatedAt == now
      && c.docs == old(c.docs)[id := r.value]
    ensures !r.Reply? ==> c.docs == old(c.docs)
  {
    assert caller.role in WriteRoles by { assert caller.role.Admin? || caller.role.Manager? || caller.role.Member?; }
    if IsObjectId(id) && CastUpdate(patch).Ok? && id in c.docs {
      UpdateKeepsValid(c.docs[id].doc, patch);
    }
    r := Handlers.Update(c, caller.role in WriteRoles, id, CastUpdate(patch), Merge, now, NotFoundMessage);
  }

  method Delete(c: Collection<Document>, caller: Principal, id: string) returns (r: Response<string>)
    requires Holds(c)
    modifies c
    ensures Holds(c)
    ensures r == Refusal(Forbidden, RoleDenied) <==> caller.role !in DeleteRoles
    ensures r == Refusal(NotFound, NotFoundMessage) <==>
      caller.role in DeleteRoles && IsObjectId(id) && id !in old(c.docs)
    ensures r.Crash? <==> caller.role in DeleteRoles && !IsObjectId(id)
    ensures r.Reply? ==> r.value == DeletedMessage && c.docs == old(c.docs) - {id}
    ensures !r.Reply? ==> c.docs == old(c.docs)
  {
    r := Handlers.Delete(c, caller.role in DeleteRoles, id, NotFoundMessage, DeletedMessage);
  }
}
