/** The Document schema: field table (type and status enums, size not negative,
    description at most 500 characters), defaults and trimming, whole-document
    validation on `save()` and update-time validation. It has no hooks. */
module DocumentModel {

  import opened Common
  import opened Text
  import opened Fields

  const Types: seq<string> := ["requirement", "design", "test", "report", "other"]
  const Statuses: seq<string> := ["draft", "review", "approved", "archived"]
  const DefaultStatus := "draft"

  datatype Document = Document(
    name: Option<string>,
    kind: Option<string>,          // the `type` path
    version: Option<string>,
    description: Option<string>,
    uploadedBy: Option<string>,
    project: Option<string>,
    url: Option<string>,
    size: Option<real>,
    mimeType: Option<string>,
    status: Option<string>,
    tags: Option<seq<string>>)

  function Trimmed(d: Document): Document {
    d.(name := TrimOpt(d.name), version := TrimOpt(d.version), description := TrimOpt(d.description),
       tags := if d.tags.Some? then Some(TrimAll(d.tags.value)) else None)
  }

  function Normalize(d: Document): Document {
    var t := Trimmed(d);
    t.(status := Default(t.status, DefaultStatus), tags := Default(t.tags, []))
  }

  predicate FieldsOk(d: Document) {
    && NonEmpty(d.name) && LengthAtMost(d.name, 200)
    && NonEmpty(d.kind) && OneOf(d.kind, Types)
    && NonEmpty(d.version)
    && LengthAtMost(d.description, 500)
    && IsRef(d.uploadedBy) && IsRef(d.project)
    && NonEmpty(d.url) && AtLeast(d.size, 0.0) && NonEmpty(d.mimeType)
    && OneOf(d.status, Statuses)
  }

  predicate Complete(d: Document) {
    && d.name.Some? && d.kind.Some? && d.version.Some? && d.uploadedBy.Some?
    && d.project.Some? && d.url.Some? && d.size.Some? && d.mimeType.Some?
  }

  predicate Valid(d: Document) {
    Complete(d) && FieldsOk(d)
  }

  function Violations(d: Document, whole: bool): (vs: seq<Violation>)
    ensures vs == [] <==> (whole ==> Complete(d)) && FieldsOk(d)
  {
    At("name", CheckRequiredString(d.name, whole) + CheckMaxLength(d.name, 200))
    + At("type", CheckRequiredString(d.kind, whole) + CheckEnum(d.kind, Types))
    + At("version", CheckRequiredString(d.version, whole))
    + At("description", CheckMaxLength(d.description, 500))
    + At("uploadedBy", CheckRequired(d.uploadedBy, whole) + CheckRef(d.uploadedBy))
    + At("project", CheckRequired(d.project, whole) + CheckRef(d.project))
    + At("url", CheckRequiredString(d.url, whole))
    + At("size", CheckRequired(d.size, whole) + CheckMin(d.size, 0.0))
    + At("mimeType", CheckRequiredString(d.mimeType, whole))
    + At("status", CheckEnum(d.status, Statuses))
  }

  function Save(d: Document): (res: Result<Document, Fault>)
    ensures res.Ok? <==> Valid(Normalize(d))
    ensures res.Ok? ==> res.value == Normalize(d)
    ensures res.Err? ==> res.error.ValidationFailed? && res.error.violations != []
  {
    var n := Normalize(d);
    var vs := Violations(n, true);
    if vs == [] then Ok(n) else Err(ValidationFailed(vs))
  }

  function CastUpdate(patch: Document): (res: Result<Document, Fault>)
    ensures res.Ok? <==> FieldsOk(Trimmed(patch))
    ensures res.Ok? ==> res.value == Trimmed(patch)
  {
    var t := Trimmed(patch);
    var vs := Violations(t, false);
    if vs == [] then Ok(t) else Err(ValidationFailed(vs))
  }

  function Merge(d: Document, p: Document): Document {
    Document(Override(d.name, p.name), Override(d.kind, p.kind), Override(d.version, p.version),
             Override(d.description, p.description), Override(d.uploadedBy, p.uploadedBy),
             Override(d.project, p.project), Override(d.url, p.url), Override(d.size, p.size),
             Override(d.mimeType, p.mimeType), Override(d.status, p.status), Override(d.tags, p.tags))
  }

  /** What a saved document satisfies, stated on the submitted payload. */
  lemma SavedDocument(d: Document)
    requires Save(d).Ok?
    ensures Complete(d) && StoredFrom(d, Save(d).value)
  {
    NormalizedDocument(d, Normalize(d));
  }

  /** `s` is what saving the payload `d` stores: the name trimmed and within its
      length, the type from its list, the version and description trimmed, status
      "draft" by default, and the other paths as sent. */
  predicate StoredFrom(d: Document, s: Document)
    requires Complete(d)
  {
    && s.name == Some(Trim(d.name.value)) && IsTrimmed(s.name.value)
    && 0 < |s.name.value| <= 200
    && s.kind == d.kind && s.kind.value in Types
    && s.version == Some(Trim(d.version.value)) && |s.version.value| > 0
    && (d.description.Some? ==> s.description == Some(Trim(d.description.value))
                                 && |s.description.value| <= 500)
    && (d.description.None? ==> s.description.None?)
    && s.status.Some? && s.status.value in Statuses
    && (d.status.None? ==> s.status == Some(DefaultStatus))
    && s.size == d.size && 0.0 <= s.size.value
    && s.uploadedBy == d.uploadedBy && s.uploadedBy.Some? && s.project == d.project && s.project.Some?
    && s.url == d.url && s.url.Some? && s.mimeType == d.mimeType && s.mimeType.Some?
  }

  lemma NormalizedDocument(d: Document, s: Document)
    requires s == Normalize(d) && Valid(s)
    ensures Complete(d) && StoredFrom(d, s)
  {
    TrimIsTrimmed(d.name.value);
  }

  /** Each tag of a saved document is trimmed; absent tags become the empty list. */
  lemma SavedDocumentTags(d: Document)
    requires Save(d).Ok?
    ensures var s := Save(d).value;
      && s.tags.Some? && |s.tags.value| == (if d.tags.Some? then |d.tags.value| else 0)
      && forall i :: 0 <= i < |s.tags.value| ==>
           s.tags.value[i] == Trim(d.tags.value[i]) && IsTrimmed(s.tags.value[i])
  {
    var s := Normalize(d);
    forall i | 0 <= i < |s.tags.value| ensures IsTrimmed(s.tags.value[i]) {
      TrimIsTrimmed(d.tags.value[i]);
    }
  }

  lemma UpdateKeepsValid(d: Document, patch: Document)
    requires Valid(d) && CastUpdate(patch).Ok?
    ensures Valid(Merge(d, CastUpdate(patch).value))
  {
  }

  lemma NormalizeIdempotent(d: Document)
    ensures Normalize(Normalize(d)) == Normalize(d)
  {
    if d.name.Some? { TrimIdempotent(d.name.value); }
    if d.version.Some? { TrimIdempotent(d.version.value); }
    if d.description.Some? { TrimIdempotent(d.description.value); }
    if d.tags.Some? {
      var ts := d.tags.value;
      forall i | 0 <= i < |ts| ensures Trim(Trim(ts[i])) == Trim(ts[i]) {
        TrimIdempotent(ts[i]);
      }
      assert TrimAll(TrimAll(ts)) == TrimAll(ts);
    }
  }
}
