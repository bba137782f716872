/** The Project schema: field table (progress within 0..100, budget and spent
    not negative), defaults and trimming, whole-document validation followed by
    the `endDate > startDate` pre-save hook, and update-time validation. */
module ProjectModel {

  import opened Common
  import opened Text
  import opened Fields

  const Statuses: seq<string> := ["not-started", "in-progress", "on-hold", "completed", "cancelled"]
  const Priorities: seq<string> := ["low", "medium", "high", "critical"]
  const DefaultStatus := "not-started"
  const DefaultPriority := "medium"
  const DateOrderMessage := "End date must be after start date"

  datatype Project = Project(
    name: Option<string>,
    description: Option<string>,
    status: Option<string>,
    priority: Option<string>,
    startDate: Option<int>,
    endDate: Option<int>,
    budget: Option<real>,
    spent: Option<real>,
    progress: Option<real>,
    manager: Option<string>,
    team: Option<seq<string>>,
    tasks: Option<seq<string>>,
    program: Option<string>,
    risks: Option<seq<string>>,
    documents: Option<seq<string>>,
    createdBy: Option<string>)

  function Trimmed(p: Project): Project {
    p.(name := TrimOpt(p.name), description := TrimOpt(p.description))
  }

  function Normalize(p: Project): Project {
    var t := Trimmed(p);
    t.(status := Default(t.status, DefaultStatus), priority := Default(t.priority, DefaultPriority),
       spent := Default(t.spent, 0.0), progress := Default(t.progress, 0.0),
       team := Default(t.team, []), tasks := Default(t.tasks, []),
       risks := Default(t.risks, []), documents := Default(t.documents, []))
  }

  predicate FieldsOk(p: Project) {
    && NonEmpty(p.name) && LengthAtMost(p.name, 200)
    && NonEmpty(p.description) && LengthAtMost(p.description, 1000)
    && OneOf(p.status, Statuses) && OneOf(p.priority, Priorities)
    && AtLeast(p.budget, 0.0) && AtLeast(p.spent, 0.0)
    && AtLeast(p.progress, 0.0) && AtMost(p.progress, 100.0)
    && IsRef(p.manager) && AllRefs(p.team) && AllRefs(p.tasks) && IsRef(p.program)
    && AllRefs(p.risks) && AllRefs(p.documents) && IsRef(p.createdBy)
  }

  predicate Complete(p: Project) {
    && p.name.Some? && p.description.Some? && p.startDate.Some? && p.endDate.Some?
    && p.budget.Some? && p.manager.Some? && p.createdBy.Some?
  }

  predicate Valid(p: Project) {
    Complete(p) && FieldsOk(p)
  }

  function Violations(p: Project, whole: bool): (vs: seq<Violation>)
    ensures vs == [] <==> (whole ==> Complete(p)) && FieldsOk(p)
  {
    At("name", CheckRequiredString(p.name, whole) + CheckMaxLength(p.name, 200))
    + At("description", CheckRequiredString(p.description, whole) + CheckMaxLength(p.description, 1000))
    + At("status", CheckEnum(p.status, Statuses))
    + At("priority", CheckEnum(p.priority, Priorities))
    + At("startDate", CheckRequired(p.startDate, whole))
    + At("endDate", CheckRequired(p.endDate, whole))
    + At("budget", CheckRequired(p.budget, whole) + CheckMin(p.budget, 0.0))
    + At("spent", CheckMin(p.spent, 0.0))
    + At("progress", CheckMin(p.progress, 0.0) + CheckMax(p.progress, 100.0))
    + At("manager", CheckRequired(p.manager, whole) + CheckRef(p.manager))
    + At("team", CheckRefs(p.team))
    + At("tasks", CheckRefs(p.tasks))
    + At("program", CheckRef(p.program))
    + At("risks", CheckRefs(p.risks))
    + At("documents", CheckRefs(p.documents))
    + At("createdBy", CheckRequired(p.createdBy, whole) + CheckRef(p.createdBy))
  }

  /** The pre-save hook: `endDate <= startDate` rejects. */
  function DateHook(p: Project): (res: Result<Project, Fault>)
    ensures res.Err? <==> p.startDate.Some? && p.endDate.Some? && p.endDate.value <= p.startDate.value
    ensures res.Ok? ==> res.value == p
    ensures res.Err? ==> res.error == HookRejected(DateOrderMessage)
  {
    if p.startDate.Some? && p.endDate.Some? && p.endDate.value <= p.startDate.value
    then Err(HookRejected(DateOrderMessage)) else Ok(p)
  }

  /** `save()`: validation runs first, then the pre-save hook. */
  function Save(p: Project): (res: Result<Project, Fault>) {
    var n := Normalize(p);
    var vs := Violations(n, true);
    if vs != [] then Err(ValidationFailed(vs)) else DateHook(n)
  }

  function CastUpdate(patch: Project): (res: Result<Project, Fault>)
    ensures res.Ok? <==> FieldsOk(Trimmed(patch))
    ensures res.Ok? ==> res.value == Trimmed(patch)
  {
    var t := Trimmed(patch);
    var vs := Violations(t, false);
    if vs == [] then Ok(t) else Err(ValidationFailed(vs))
  }

  function Merge(d: Project, p: Project): Project {
    Project(Override(d.name, p.name), Override(d.description, p.description),
            Override(d.status, p.status), Override(d.priority, p.priority),
            Override(d.startDate, p.startDate), Override(d.endDate, p.endDate),
            Override(d.budget, p.budget), Override(d.spent, p.spent),
            Override(d.progress, p.progress), Override(d.manager, p.manager),
            Override(d.team, p.team), Override(d.tasks, p.tasks),
            Override(d.program, p.program), Override(d.risks, p.risks),
            Override(d.documents, p.documents), Override(d.createdBy, p.createdBy))
  }

  /** A save is rejected with the date message exactly when the payload is
      otherwise valid and its end date is not after its start date. */
  lemma SaveDecision(p: Project)
    ensures Save(p).Ok? <==> Valid(Normalize(p)) && p.startDate.value < p.endDate.value
    ensures Save(p) == Err(HookRejected(DateOrderMessage))
        <==> Valid(Normalize(p)) && p.endDate.value <= p.startDate.value
    ensures Save(p).Ok? ==> Save(p).value == Normalize(p)
  {
  }

  /** What a saved project satisfies, stated on the submitted payload. */
  lemma SavedProject(p: Project)
    requires Save(p).Ok?
    ensures Complete(p) && StoredFrom(p, Save(p).value)
    ensures p.startDate.value < p.endDate.value
  {
    SaveDecision(p);
    NormalizedProject(p, Normalize(p));
  }

  /** `d` is what saving the payload `p` stores: the name and description trimmed
      and within their lengths, status and priority from their lists with their
      defaults, and the other paths as sent. */
  predicate StoredFrom(p: Project, d: Project)
    requires Complete(p)
  {
    && d.name == Some(Trim(p.name.value)) && IsTrimmed(d.name.value)
    && 0 < |d.name.value| <= 200
    && d.description == Some(Trim(p.description.value)) && IsTrimmed(d.description.value)
    && 0 < |d.description.value| <= 1000
    && d.status.Some? && d.status.value in Statuses
    && (p.status.None? ==> d.status == Some(DefaultStatus))
    && d.priority.Some? && d.priority.value in Priorities
    && (p.priority.None? ==> d.priority == Some(DefaultPriority))
    && d.manager == p.manager && d.manager.Some? && d.createdBy == p.createdBy && d.createdBy.Some?
    && d.program == p.program
    && d.startDate == p.startDate && d.endDate == p.endDate
  }

  lemma NormalizedProject(p: Project, d: Project)
    requires d == Normalize(p) && Valid(d)
    ensures Complete(p) && StoredFrom(p, d)
  {
    TrimIsTrimmed(p.name.value);
    TrimIsTrimmed(p.description.value);
  }

  /** The amounts of a saved project: budget as sent and not negative, spent
      not negative and 0 when absent, progress a percentage and 0 when absent. */
  lemma SavedProjectAmounts(p: Project)
    requires Save(p).Ok?
    ensures var d := Save(p).value;
      && d.budget == p.budget && 0.0 <= d.budget.value
      && d.spent.Some? && 0.0 <= d.spent.value && (p.spent.None? ==> d.spent == Some(0.0))
      && (p.spent.Some? ==> d.spent == p.spent)
      && d.progress.Some? && 0.0 <= d.progress.value <= 100.0
      && (p.progress.None? ==> d.progress == Some(0.0))
      && (p.progress.Some? ==> d.progress == p.progress)
  {
    SaveDecision(p);
    assert Valid(Normalize(p));
  }

  lemma UpdateKeepsValid(d: Project, patch: Project)
    requires Valid(d) && CastUpdate(patch).Ok?
    ensures Valid(Merge(d, CastUpdate(patch).value))
  {
  }

  /** The update that sets no path. */
  const NoChange: Project := Project(None, None, None, None, None, None, None, None, None, None, None, None, None, None, None, None)

  /** Updates do not run the pre-save hook: any valid stored project takes an
      update that moves the end date to or before the start date. The merged
      project still passes every validator, yet the hook would refuse to save it. */
  lemma UpdateSkipsDateOrder(d: Project, end: int)
    requires Valid(d) && end <= d.startDate.value
    ensures var patch := NoChange.(endDate := Some(end));
      && CastUpdate(patch) == Ok(patch)
      && Merge(d, patch).endDate == Some(end) && Valid(Merge(d, patch))
      && DateHook(Merge(d, patch)) == Err(HookRejected(DateOrderMessage))
  {
  }

  lemma NormalizeIdempotent(p: Project)
    ensures Normalize(Normalize(p)) == Normalize(p)
  {
    if p.name.Some? { TrimIdempotent(p.name.value); }
    if p.description.Some? { TrimIdempotent(p.description.value); }
  }
}
