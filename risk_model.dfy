/** The Risk schema: its field table, the defaults and trimming applied when a
    document is built, whole-document validation on `save()`, update-time
    validation, and the `riskScore` virtual. */
module RiskModel {

  import opened Common
  import opened Text
  import opened Fields

  const Categories: seq<string> := ["technical", "financial", "operational", "strategic"]
  const Levels: seq<string> := ["low", "medium", "high"]
  const Statuses: seq<string> := ["identified", "assessed", "mitigated", "closed"]
  const DefaultStatus := "identified"

  /** A risk document; `None` is a path the payload or the document does not carry. */
  datatype Risk = Risk(
    title: Option<string>,
    description: Option<string>,
    category: Option<string>,
    probability: Option<string>,
    impact: Option<string>,
    status: Option<string>,
    owner: Option<string>,
    mitigation: Option<string>,
    project: Option<string>,
    program: Option<string>,
    dueDate: Option<int>,
    createdBy: Option<string>)

  /** The `trim: true` setters, applied whenever a value is assigned. */
  function Trimmed(r: Risk): Risk {
    r.(title := TrimOpt(r.title), description := TrimOpt(r.description),
       mitigation := TrimOpt(r.mitigation))
  }

  /** A new document: trimmed values, then the defaults of absent paths. */
  function Normalize(r: Risk): Risk {
    var t := Trimmed(r);
    t.(status := Default(t.status, DefaultStatus))
  }

  /** The rules every present path satisfies. */
  predicate FieldsOk(r: Risk) {
    && NonEmpty(r.title) && LengthAtMost(r.title, 200)
    && NonEmpty(r.description) && LengthAtMost(r.description, 1000)
    && NonEmpty(r.category) && OneOf(r.category, Categories)
    && NonEmpty(r.probability) && OneOf(r.probability, Levels)
    && NonEmpty(r.impact) && OneOf(r.impact, Levels)
    && OneOf(r.status, Statuses)
    && IsRef(r.owner)
    && NonEmpty(r.mitigation) && LengthAtMost(r.mitigation, 1000)
    && IsRef(r.project) && IsRef(r.program) && IsRef(r.createdBy)
  }

  /** Every required path is present. */
  predicate Complete(r: Risk) {
    && r.title.Some? && r.description.Some? && r.category.Some?
    && r.probability.Some? && r.impact.Some? && r.owner.Some?
    && r.mitigation.Some? && r.dueDate.Some? && r.createdBy.Some?
  }

  predicate Valid(r: Risk) {
    Complete(r) && FieldsOk(r)
  }

  /** Mongoose's per-path validation errors, in schema order. */
  function Violations(r: Risk, whole: bool): (vs: seq<Violation>)
    ensures vs == [] <==> (whole ==> Complete(r)) && FieldsOk(r)
  {
    At("title", CheckRequiredString(r.title, whole) + CheckMaxLength(r.title, 200))
    + At("description", CheckRequiredString(r.description, whole) + CheckMaxLength(r.description, 1000))
    + At("category", CheckRequiredString(r.category, whole) + CheckEnum(r.category, Categories))
    + At("probability", CheckRequiredString(r.probability, whole) + CheckEnum(r.probability, Levels))
    + At("impact", CheckRequiredString(r.impact, whole) + CheckEnum(r.impact, Levels))
    + At("status", CheckEnum(r.status, Statuses))
    + At("owner", CheckRequired(r.owner, whole) + CheckRef(r.owner))
    + At("mitigation", CheckRequiredString(r.mitigation, whole) + CheckMaxLength(r.mitigation, 1000))
    + At("project", CheckRef(r.project))
    + At("program", CheckRef(r.program))
    + At("dueDate", CheckRequired(r.dueDate, whole))
    + At("createdBy", CheckRequired(r.createdBy, whole) + CheckRef(r.createdBy))
  }

  /** `new Risk(data).save()`: the document that is stored, or the validation error. */
  function Save(r: Risk): (res: Result<Risk, Fault>)
    ensures res.Ok? <==> Valid(Normalize(r))
    ensures res.Ok? ==> res.value == Normalize(r)
    ensures res.Err? ==> res.error.ValidationFailed? && res.error.violations != []
  {
    var n := Normalize(r);
    var vs := Violations(n, true);
    if vs == [] then Ok(n) else Err(ValidationFailed(vs))
  }

  /** The cast and validation `findByIdAndUpdate(..., { runValidators: true })`
      applies to an update: trimming, then the rules of the paths it sets. */
  function CastUpdate(patch: Risk): (res: Result<Risk, Fault>)
    ensures res.Ok? <==> FieldsOk(Trimmed(patch))
    ensures res.Ok? ==> res.value == Trimmed(patch)
  {
    var t := Trimmed(patch);
    var vs := Violations(t, false);
    if vs == [] then Ok(t) else Err(ValidationFailed(vs))
  }

  /** The stored document after an update: the update's paths replace the stored ones. */
  function Merge(d: Risk, p: Risk): Risk {
    Risk(Override(d.title, p.title), Override(d.description, p.description),
         Override(d.category, p.category), Override(d.probability, p.probability),
         Override(d.impact, p.impact), Override(d.status, p.status),
         Override(d.owner, p.owner), Override(d.mitigation, p.mitigation),
         Override(d.project, p.project), Override(d.program, p.program),
         Override(d.dueDate, p.dueDate), Override(d.createdBy, p.createdBy))
  }

  /** What a saved risk satisfies, stated on the submitted payload. */
  lemma SavedRisk(r: Risk)
    requires Save(r).Ok?
    ensures Complete(r) && StoredFrom(r, Save(r).value)
  {
    NormalizedRisk(r, Normalize(r));
  }

  /** `d` is what saving the payload `r` stores: the text paths trimmed and
      within their lengths, the enumerated paths from their lists, status
      "identified" by default, and the other paths as sent. */
  predicate StoredFrom(r: Risk, d: Risk)
    requires Complete(r)
  {
    && d.title == Some(Trim(r.title.value)) && IsTrimmed(d.title.value)
    && 0 < |d.title.value| <= 200
    && d.description == Some(Trim(r.description.value)) && IsTrimmed(d.description.value)
    && 0 < |d.description.value| <= 1000
    && d.mitigation == Some(Trim(r.mitigation.value)) && IsTrimmed(d.mitigation.value)
    && 0 < |d.mitigation.value| <= 1000
    && d.category == r.category && d.category.value in Categories
    && d.probability == r.probability && d.probability.value in Levels
    && d.impact == r.impact && d.impact.value in Levels
    && d.status.Some? && d.status.value in Statuses
    && (r.status.None? ==> d.status == Some(DefaultStatus))
    && d.owner == r.owner && d.owner.Some? && d.dueDate == r.dueDate && d.dueDate.Some?
    && d.project == r.project && d.program == r.program
    && d.createdBy == r.createdBy && d.createdBy.Some?
  }

  lemma NormalizedRisk(r: Risk, d: Risk)
    requires d == Normalize(r) && Valid(d)
    ensures Complete(r) && StoredFrom(r, d)
  {
    TrimIsTrimmed(r.title.value);
    TrimIsTrimmed(r.description.value);
    TrimIsTrimmed(r.mitigation.value);
  }

  /** An update that passes its validators keeps a valid risk valid. */
  lemma UpdateKeepsValid(d: Risk, patch: Risk)
    requires Valid(d) && CastUpdate(patch).Ok?
    ensures Valid(Merge(d, CastUpdate(patch).value))
  {
  }

  /** A stored risk is already normalized: saving it again changes nothing. */
  lemma NormalizeIdempotent(r: Risk)
    ensures Normalize(Normalize(r)) == Normalize(r)
  {
    if r.title.Some? { TrimIdempotent(r.title.value); }
    if r.description.Some? { TrimIdempotent(r.description.value); }
    if r.mitigation.Some? { TrimIdempotent(r.mitigation.value); }
  }

  // ---- the `riskScore` virtual ----

  /** One factor of the score: high is 3, medium is 2, any other value (low,
      or none at all) is 1. */
  function Factor(level: Option<string>): (n: nat)
    ensures 1 <= n <= 3
  {
    if level == Some("high") then 3 else if level == Some("medium") then 2 else 1
  }

  /** `riskScore` = probability factor times impact factor. */
  function RiskScore(probability: Option<string>, impact: Option<string>): (score: nat)
    ensures 1 <= score <= 9
    ensures score in {1, 2, 3, 4, 6, 9}
  {
    Factor(probability) * Factor(impact)
  }

  /** The position of a level in the order low < medium < high. */
  function Rank(level: string): (n: nat)
    requires level in Levels
    ensures n < 3 && Levels[n] == level
  {
    if level == "low" then 0 else if level == "medium" then 1 else 2
  }

  /** Every value of {1, 2, 3, 4, 6, 9} is the score of some pair of levels. */
  lemma ScoreValuesReached(v: nat)
    requires v in {1, 2, 3, 4, 6, 9}
    ensures exists p, i :: p in Levels && i in Levels && RiskScore(Some(p), Some(i)) == v
  {
    var (p, i) :=
      if v == 1 then ("low", "low") else if v == 2 then ("medium", "low")
      else if v == 3 then ("high", "low") else if v == 4 then ("medium", "medium")
      else if v == 6 then ("high", "medium") else ("high", "high");
    assert p in Levels && i in Levels && RiskScore(Some(p), Some(i)) == v;
  }

  /** Swapping probability and impact gives the same score. */
  lemma ScoreSymmetric(p: Option<string>, i: Option<string>)
    ensures RiskScore(p, i) == RiskScore(i, p)
  {
  }

  /** Raising the probability level never lowers the score; raising it
      strictly raises the score. */
  lemma ScoreMonotone(p1: string, p2: string, i: Option<string>)
    requires p1 in Levels && p2 in Levels
    ensures Rank(p1) <= Rank(p2) ==> RiskScore(Some(p1), i) <= RiskScore(Some(p2), i)
    ensures Rank(p1) < Rank(p2) ==> RiskScore(Some(p1), i) < RiskScore(Some(p2), i)
  {
  }

  /** The same holds for the impact level, by symmetry. */
  lemma ScoreMonotoneInImpact(p: Option<string>, i1: string, i2: string)
    requires i1 in Levels && i2 in Levels
    ensures Rank(i1) <= Rank(i2) ==> RiskScore(p, Some(i1)) <= RiskScore(p, Some(i2))
    ensures Rank(i1) < Rank(i2) ==> RiskScore(p, Some(i1)) < RiskScore(p, Some(i2))
  {
    ScoreSymmetric(p, Some(i1));
    ScoreSymmetric(p, Some(i2));
    ScoreMonotone(i1, i2, p);
  }
}
