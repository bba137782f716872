/** The Program schema: field table, defaults and trimming, whole-document
    validation followed by the `endDate > startDate` pre-save hook, and
    update-time validation (which the hook does not see). */
module ProgramModel {

  import opened Common
  import opened Text
  import opened Fields

  const Statuses: seq<string> := ["planning", "active", "on-hold", "completed", "cancelled"]
  const DefaultStatus := "planning"
  const DateOrderMessage := "End date must be after start date"

  datatype Program = Program(
    name: Option<string>,
    description: Option<string>,
    status: Option<string>,
    startDate: Option<int>,
    endDate: Option<int>,
    budget: Option<real>,
    spent: Option<real>,
    manager: Option<string>,
    projects: Option<seq<string>>,
    risks: Option<seq<string>>,
    createdBy: Option<string>)

  function Trimmed(p: Program): Program {
    p.(name := TrimOpt(p.name), description := TrimOpt(p.description))
  }

  function Normalize(p: Program): Program {
    var t := Trimmed(p);
    t.(status := Default(t.status, DefaultStatus), spent := Default(t.spent, 0.0),
       projects := Default(t.projects, []), risks := Default(t.risks, []))
  }

  predicate FieldsOk(p: Program) {
    && NonEmpty(p.name) && LengthAtMost(p.name, 200)
    && NonEmpty(p.description) && LengthAtMost(p.description, 1000)
    && OneOf(p.status, Statuses)
    && AtLeast(p.budget, 0.0) && AtLeast(p.spent, 0.0)
    && IsRef(p.manager) && AllRefs(p.projects) && AllRefs(p.risks) && IsRef(p.createdBy)
  }

  predicate Complete(p: Program) {
    && p.name.Some? && p.description.Some? && p.startDate.Some? && p.endDate.Some?
    && p.budget.Some? && p.manager.Some? && p.createdBy.Some?
  }

  predicate Valid(p: Program) {
    Complete(p) && FieldsOk(p)
  }

  function Violations(p: Program, whole: bool): (vs: seq<Violation>)
    ensures vs == [] <==> (whole ==> Complete(p)) && FieldsOk(p)
  {
    At("name", CheckRequiredString(p.name, whole) + CheckMaxLength(p.name, 200))
    + At("description", CheckRequiredString(p.description, whole) + CheckMaxLength(p.description, 1000))
    + At("status", CheckEnum(p.status, Statuses))
    + At("startDate", CheckRequired(p.startDate, whole))
    + At("endDate", CheckRequired(p.endDate, whole))
    + At("budget", CheckRequired(p.budget, whole) + CheckMin(p.budget, 0.0))
    + At("spent", CheckMin(p.spent, 0.0))
    + At("manager", CheckRequired(p.manager, whole) + CheckRef(p.manager))
    + At("projects", CheckRefs(p.projects))
    + At("risks", CheckRefs(p.risks))
    + At("createdBy", CheckRequired(p.createdBy, whole) + CheckRef(p.createdBy))
  }

  /** The pre-save hook: `endDate <= startDate` rejects. A missing date compares
      false in JavaScript, so the hook alone lets it through. */
  function DateHook(p: Program): (res: Result<Program, Fault>)
    ensures res.Err? <==> p.startDate.Some? && p.endDate.Some? && p.endDate.value <= p.startDate.value
    ensures res.Ok? ==> res.value == p
    ensures res.Err? ==> res.error == HookRejected(DateOrderMessage)
  {
    if p.startDate.Some? && p.endDate.Some? && p.endDate.value <= p.startDate.value
    then Err(HookRejected(DateOrderMessage)) else Ok(p)
  }

  /** `save()`: validation runs first, then the pre-save hook. */
  function Save(p: Program): (res: Result<Program, Fault>) {
    var n := Normalize(p);
    var vs := Violations(n, true);
    if vs != [] then Err(ValidationFailed(vs)) else DateHook(n)
  }

  function CastUpdate(patch: Program): (res: Result<Program, Fault>)
    ensures res.Ok? <==> FieldsOk(Trimmed(patch))
    ensures res.Ok? ==> res.value == Trimmed(patch)
  {
    var t := Trimmed(patch);
    var vs := Violations(t, false);
    if vs == [] then Ok(t) else Err(ValidationFailed(vs))
  }

  function Merge(d: Program, p: Program): Program {
    Program(Override(d.name, p.name), Override(d.description, p.description),
            Override(d.status, p.status), Override(d.startDate, p.startDate),
            Override(d.endDate, p.endDate), Override(d.budget, p.budget),
            Override(d.spent, p.spent), Override(d.manager, p.manager),
            Override(d.projects, p.projects), Override(d.risks, p.risks),
            Override(d.createdBy, p.createdBy))
  }

  /** A save is rejected with the date message exactly when the payload is
      otherwise valid and its end date is not after its start date; it
      succeeds exactly when it is valid and the end date is later. */
  lemma SaveDecision(p: Program)
    ensures Save(p).Ok? <==> Valid(Normalize(p)) && p.startDate.value < p.endDate.value
    ensures Save(p) == Err(HookRejected(DateOrderMessage))
        <==> Valid(Normalize(p)) && p.endDate.value <= p.startDate.value
    ensures Save(p).Ok? ==> Save(p).value == Normalize(p)
  {
  }

  /** What a saved program satisfies, stated on the submitted payload. */
  lemma SavedProgram(p: Program)
    requires Save(p).Ok?
    ensures Complete(p) && StoredFrom(p, Save(p).value)
    ensures p.startDate.value < p.endDate.value
  {
    SaveDecision(p);
    NormalizedProgram(p, Normalize(p));
  }

  /** `d` is what saving the payload `p` stores: the name and description trimmed
      and within their lengths, status from its list with its default, and the
      other paths as sent. */
  predicate StoredFrom(p: Program, d: Program)
    requires Complete(p)
  {
    && d.name == Some(Trim(p.name.value)) && IsTrimmed(d.name.value)
    && 0 < |d.name.value| <= 200
    && d.description == Some(Trim(p.description.value)) && IsTrimmed(d.description.value)
    && 0 < |d.description.value| <= 1000
    && d.status.Some? && d.status.value in Statuses
    && (p.status.None? ==> d.status == Some(DefaultStatus))
    && d.manager == p.manager && d.manager.Some? && d.createdBy == p.createdBy && d.createdBy.Some?
    && d.startDate == p.startDate && d.endDate == p.endDate
  }

  lemma NormalizedProgram(p: Program, d: Program)
    requires d == Normalize(p) && Valid(d)
    ensures Complete(p) && StoredFrom(p, d)
  {
    TrimIsTrimmed(p.name.value);
    TrimIsTrimmed(p.description.value);
  }

  /** The amounts of a saved program: budget as sent and not negative, spent
      not negative and 0 when absent. */
  lemma SavedProgramAmounts(p: Program)
    requires Save(p).Ok?
    ensures var d := Save(p).value;
      && d.budget == p.budget && 0.0 <= d.budget.value
      && d.spent.Some? && 0.0 <= d.spent.value && (p.spent.None? ==> d.spent == Some(0.0))
      && (p.spent.Some? ==> d.spent == p.spent)
  {
    SaveDecision(p);
    assert Valid(Normalize(p));
  }

  lemma UpdateKeepsValid(d: Program, patch: Program)
    requires Valid(d) && CastUpdate(patch).Ok?
    ensures Valid(Merge(d, CastUpdate(patch).value))
  {
  }

  /** The update that sets no path. */
  const NoChange: Program := Program(None, None, None, None, None, None, None, None, None, None, None)

  /** Updates do not run the pre-save hook: any valid stored program takes an
      update that moves the end date to or before the start date. The merged
      program still passes every validator, yet the hook would refuse to save it. */
  lemma UpdateSkipsDateOrder(d: Program, end: int)
    requires Valid(d) && end <= d.startDate.value
    ensures var patch := NoChange.(endDate := Some(end));
      && CastUpdate(patch) == Ok(patch)
      && Merge(d, patch).endDate == Some(end) && Valid(Merge(d, patch))
      && DateHook(Merge(d, patch)) == Err(HookRejected(DateOrderMessage))
  {
  }

  lemma NormalizeIdempotent(p: Program)
    ensures Normalize(Normalize(p)) == Normalize(p)
  {
    if p.name.Some? { TrimIdempotent(p.name.value); }
    if p.description.Some? { TrimIdempotent(p.description.value); }
  }
}
