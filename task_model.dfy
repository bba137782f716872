/** The Task schema: field table, the embedded comment sub-records, defaults
    and trimming, whole-document validation followed by the
    `dueDate > startDate` pre-save hook, and update-time validation. */
module TaskModel {

  import opened Common
  import opened Text
  import opened Fields

  const Statuses: seq<string> := ["todo", "in-progress", "review", "completed"]
  const Priorities: seq<string> := ["low", "medium", "high", "critical"]
  const DefaultStatus := "todo"
  const DefaultPriority := "medium"
  const DateOrderMessage := "Due date must be after start date"

  /** One entry of `comments`; `createdAt` defaults to the time the entry is built. */
  datatype Comment = Comment(user: Option<string>, text: Option<string>, createdAt: Option<int>)

  datatype Task = Task(
    title: Option<string>,
    description: Option<string>,
    status: Option<string>,
    priority: Option<string>,
    assignee: Option<string>,
    reporter: Option<string>,
    project: Option<string>,
    startDate: Option<int>,
    dueDate: Option<int>,
    estimatedHours: Option<real>,
    actualHours: Option<real>,
    dependencies: Option<seq<string>>,
    tags: Option<seq<string>>,
    comments: Option<seq<Comment>>,
    createdBy: Option<string>)

  // ---- comments ----

  /** A comment entry as it is built at time `now`: text trimmed, `createdAt` defaulted. */
  function BuildComment(c: Comment, now: int): Comment {
    Comment(c.user, TrimOpt(c.text), Default(c.createdAt, now))
  }

  function BuildComments(cs: seq<Comment>, now: int): (r: seq<Comment>)
    ensures |r| == |cs| && forall i :: 0 <= i < |cs| ==> r[i] == BuildComment(cs[i], now)
  {
    seq(|cs|, i requires 0 <= i < |cs| => BuildComment(cs[i], now))
  }

  /** A comment needs a user id and a non-empty text. */
  predicate CommentOk(c: Comment) {
    c.user.Some? && IsObjectId(c.user.value) && c.text.Some? && |c.text.value| > 0
  }

  function CommentReasons(c: Comment): (r: seq<Reason>)
    ensures r == [] <==> CommentOk(c)
  {
    CheckRequired(c.user, true) + CheckRef(c.user) + CheckRequiredString(c.text, true)
  }

  /** The reasons of the first comment that fails, if any does. */
  function FirstBadComment(cs: seq<Comment>): (r: seq<Reason>)
    ensures r == [] <==> forall i :: 0 <= i < |cs| ==> CommentOk(cs[i])
  {
    if cs == [] then []
    else if !CommentOk(cs[0]) then CommentReasons(cs[0])
    else FirstBadComment(cs[1..])
  }

  predicate CommentsOk(cs: Option<seq<Comment>>) {
    cs.None? || forall i :: 0 <= i < |cs.value| ==> CommentOk(cs.value[i])
  }

  function CheckComments(cs: Option<seq<Comment>>): (r: seq<Reason>)
    ensures r == [] <==> CommentsOk(cs)
  {
    if cs.Some? then FirstBadComment(cs.value) else []
  }

  // ---- the document ----

  /** The `trim` setters, plus the defaults of comment entries, which are built
      as sub-documents whenever `comments` is assigned. */
  function Cast(t: Task, now: int): Task {
    t.(title := TrimOpt(t.title), description := TrimOpt(t.description),
       tags := if t.tags.Some? then Some(TrimAll(t.tags.value)) else None,
       comments := if t.comments.Some? then Some(BuildComments(t.comments.value, now)) else None)
  }

  function Normalize(t: Task, now: int): Task {
    var c := Cast(t, now);
    c.(status := Default(c.status, DefaultStatus), priority := Default(c.priority, DefaultPriority),
       actualHours := Default(c.actualHours, 0.0), dependencies := Default(c.dependencies, []),
       tags := Default(c.tags, []), comments := Default(c.comments, []))
  }

  predicate FieldsOk(t: Task) {
    && NonEmpty(t.title) && LengthAtMost(t.title, 200)
    && NonEmpty(t.description) && LengthAtMost(t.description, 1000)
    && OneOf(t.status, Statuses) && OneOf(t.priority, Priorities)
    && IsRef(t.assignee) && IsRef(t.reporter) && IsRef(t.project)
    && AtLeast(t.estimatedHours, 0.0) && AtLeast(t.actualHours, 0.0)
    && AllRefs(t.dependencies) && CommentsOk(t.comments) && IsRef(t.createdBy)
  }

  predicate Complete(t: Task) {
    && t.title.Some? && t.description.Some? && t.assignee.Some? && t.reporter.Some?
    && t.project.Some? && t.startDate.Some? && t.dueDate.Some? && t.estimatedHours.Some?
    && t.createdBy.Some?
  }

  predicate Valid(t: Task) {
    Complete(t) && FieldsOk(t)
  }

  function Violations(t: Task, whole: bool): (vs: seq<Violation>)
    ensures vs == [] <==> (whole ==> Complete(t)) && FieldsOk(t)
  {
    At("title", CheckRequiredString(t.title, whole) + CheckMaxLength(t.title, 200))
    + At("description", CheckRequiredString(t.description, whole) + CheckMaxLength(t.description, 1000))
    + At("status", CheckEnum(t.status, Statuses))
    + At("priority", CheckEnum(t.priority, Priorities))
    + At("assignee", CheckRequired(t.assignee, whole) + CheckRef(t.assignee))
    + At("reporter", CheckRequired(t.reporter, whole) + CheckRef(t.reporter))
    + At("project", CheckRequired(t.project, whole) + CheckRef(t.project))
    + At("startDate", CheckRequired(t.startDate, whole))
    + At("dueDate", CheckRequired(t.dueDate, whole))
    + At("estimatedHours", CheckRequired(t.estimatedHours, whole) + CheckMin(t.estimatedHours, 0.0))
    + At("actualHours", CheckMin(t.actualHours, 0.0))
    + At("dependencies", CheckRefs(t.dependencies))
    + At("comments", CheckComments(t.comments))
    + At("createdBy", CheckRequired(t.createdBy, whole) + CheckRef(t.createdBy))
  }

  /** The pre-save hook: `dueDate <= startDate` rejects. */
  function DateHook(t: Task): (res: Result<Task, Fault>)
    ensures res.Err? <==> t.startDate.Some? && t.dueDate.Some? && t.dueDate.value <= t.startDate.value
    ensures res.Ok? ==> res.value == t
    ensures res.Err? ==> res.error == HookRejected(DateOrderMessage)
  {
    if t.startDate.Some? && t.dueDate.Some? && t.dueDate.value <= t.startDate.value
    then Err(HookRejected(DateOrderMessage)) else Ok(t)
  }

  /** `save()` at time `now`: validation runs first, then the pre-save hook. */
  function Save(t: Task, now: int): (res: Result<Task, Fault>) {
    var n := Normalize(t, now);
    var vs := Violations(n, true);
    if vs != [] then Err(ValidationFailed(vs)) else DateHook(n)
  }

  function CastUpdate(patch: Task, now: int): (res: Result<Task, Fault>)
    ensures res.Ok? <==> FieldsOk(Cast(patch, now))
    ensures res.Ok? ==> res.value == Cast(patch, now)
  {
    var c := Cast(patch, now);
    var vs := Violations(c, false);
    if vs == [] then Ok(c) else Err(ValidationFailed(vs))
  }

  function Merge(d: Task, p: Task): Task {
    Task(Override(d.title, p.title), Override(d.description, p.description),
         Override(d.status, p.status), Override(d.priority, p.priority),
         Override(d.assignee, p.assignee), Override(d.reporter, p.reporter),
         Override(d.project, p.project), Override(d.startDate, p.startDate),
         Override(d.dueDate, p.dueDate), Override(d.estimatedHours, p.estimatedHours),
         Override(d.actualHours, p.actualHours), Override(d.dependencies, p.dependencies),
         Override(d.tags, p.tags), Override(d.comments, p.comments),
         Override(d.createdBy, p.createdBy))
  }

  // ---- properties ----

  /** A save is rejected with "Due date must be after start date" exactly when
      the payload is otherwise valid and its due date is not after its start date. */
  lemma SaveDecision(t: Task, now: int)
    ensures Save(t, now).Ok? <==> Valid(Normalize(t, now)) && t.startDate.value < t.dueDate.value
    ensures Save(t, now) == Err(HookRejected(DateOrderMessage))
        <==> Valid(Normalize(t, now)) && t.dueDate.value <= t.startDate.value
    ensures Save(t, now).Ok? ==> Save(t, now).value == Normalize(t, now)
  {
  }

  /** What a saved task satisfies, stated on the submitted payload. */
  lemma SavedTask(t: Task, now: int)
    requires Save(t, now).Ok?
    ensures Complete(t) && StoredFrom(t, Save(t, now).value)
    ensures t.startDate.value < t.dueDate.value
  {
    SaveDecision(t, now);
    NormalizedTask(t, now, Normalize(t, now));
  }

  /** `d` is what saving the payload `t` stores: title and description trimmed
      and within their lengths, status and priority from their lists with their
      defaults, hours not negative with `actualHours` 0 by default, and the
      other paths as sent. */
  predicate StoredFrom(t: Task, d: Task)
    requires Complete(t)
  {
    && d.title == Some(Trim(t.title.value)) && IsTrimmed(d.title.value)
    && 0 < |d.title.value| <= 200
    && d.description == Some(Trim(t.description.value)) && IsTrimmed(d.description.value)
    && 0 < |d.description.value| <= 1000
    && d.status.Some? && d.status.value in Statuses
    && (t.status.None? ==> d.status == Some(DefaultStatus))
    && d.priority.Some? && d.priority.value in Priorities
    && (t.priority.None? ==> d.priority == Some(DefaultPriority))
    && d.estimatedHours == t.estimatedHours && 0.0 <= d.estimatedHours.value
    && d.actualHours.Some? && 0.0 <= d.actualHours.value
    && (t.actualHours.None? ==> d.actualHours == Some(0.0))
    && d.assignee == t.assignee && d.assignee.Some? && d.reporter == t.reporter && d.reporter.Some?
    && d.project == t.project && d.project.Some? && d.createdBy == t.createdBy && d.createdBy.Some?
    && d.dependencies == (if t.dependencies.Some? then t.dependencies else Some([]))
    && d.startDate == t.startDate && d.dueDate == t.dueDate
  }

  lemma NormalizedTask(t: Task, now: int, d: Task)
    requires d == Normalize(t, now) && Valid(d)
    ensures Complete(t) && StoredFrom(t, d)
  {
    TrimIsTrimmed(t.title.value);
    TrimIsTrimmed(t.description.value);
  }

  /** Each tag of a saved task is trimmed; absent tags become the empty list. */
  lemma SavedTags(t: Task, now: int)
    requires Save(t, now).Ok?
    ensures var d := Save(t, now).value;
      && d.tags.Some? && |d.tags.value| == (if t.tags.Some? then |t.tags.value| else 0)
      && forall i :: 0 <= i < |d.tags.value| ==>
           d.tags.value[i] == Trim(t.tags.value[i]) && IsTrimmed(d.tags.value[i])
  {
    SaveDecision(t, now);
    var d := Normalize(t, now);
    forall i | 0 <= i < |d.tags.value| ensures IsTrimmed(d.tags.value[i]) {
      TrimIsTrimmed(t.tags.value[i]);
    }
  }

  /** Dependencies are only cast to ids: a task may list itself, or two tasks
      each other, and still be saved. */
  lemma DependenciesUnchecked(t: Task, now: int, ids: seq<string>)
    requires Save(t, now).Ok?
    requires forall i :: 0 <= i < |ids| ==> IsObjectId(ids[i])
    ensures Save(t.(dependencies := Some(ids)), now).Ok?
  {
    SaveDecision(t, now);
    SaveDecision(t.(dependencies := Some(ids)), now);
  }

  /** Each comment of a saved task has a user and a non-empty, trimmed text. */
  lemma SavedComments(t: Task, now: int)
    requires Save(t, now).Ok?
    ensures var cs := Save(t, now).value.comments;
      && cs.Some?
      && forall i :: 0 <= i < |cs.value| ==>
           cs.value[i].user.Some? && cs.value[i].text.Some? && |cs.value[i].text.value| > 0
           && IsTrimmed(cs.value[i].text.value) && cs.value[i].createdAt.Some?
  {
    SaveDecision(t, now);
    NormalizeNormalizes(t, now);
  }

  lemma UpdateKeepsValid(d: Task, patch: Task, now: int)
    requires Valid(d) && CastUpdate(patch, now).Ok?
    ensures Valid(Merge(d, CastUpdate(patch, now).value))
  {
  }

  /** The update that sets no path. */
  const NoChange: Task := Task(None, None, None, None, None, None, None, None, None, None, None, None, None, None, None)

  /** Updates do not run the pre-save hook: any valid stored task takes an
      update that moves the due date to or before the start date. The merged
      task still passes every validator, yet the hook would refuse to save it. */
  lemma UpdateSkipsDateOrder(d: Task, now: int, due: int)
    requires Valid(d) && due <= d.startDate.value
    ensures var patch := NoChange.(dueDate := Some(due));
      && CastUpdate(patch, now) == Ok(patch)
      && Merge(d, patch).dueDate == Some(due) && Valid(Merge(d, patch))
      && DateHook(Merge(d, patch)) == Err(HookRejected(DateOrderMessage))
  {
  }

  // ---- stored tasks are normalized ----

  predicate CommentNormalized(c: Comment) {
    (c.text.Some? ==> IsTrimmed(c.text.value)) && c.createdAt.Some?
  }

  predicate TrimmedOpt(v: Option<string>) {
    v.Some? ==> IsTrimmed(v.value)
  }

  /** What every document in the task collection looks like: trimmed strings,
      the defaulted paths present, every comment trimmed and time-stamped. */
  predicate Normalized(t: Task) {
    && TrimmedOpt(t.title) && TrimmedOpt(t.description)
    && t.status.Some? && t.priority.Some? && t.actualHours.Some?
    && t.dependencies.Some? && t.tags.Some? && t.comments.Some?
    && (forall i :: 0 <= i < |t.tags.value| ==> IsTrimmed(t.tags.value[i]))
    && (forall i :: 0 <= i < |t.comments.value| ==> CommentNormalized(t.comments.value[i]))
  }

  /** Building a document from a normalized one changes nothing, whatever the time. */
  lemma NormalizeFixes(t: Task, now: int)
    requires Normalized(t)
    ensures Normalize(t, now) == t
  {
    if t.title.Some? { TrimOfTrimmed(t.title.value); }
    if t.description.Some? { TrimOfTrimmed(t.description.value); }
    var tags := t.tags.value;
    forall i | 0 <= i < |tags| ensures Trim(tags[i]) == tags[i] {
      TrimOfTrimmed(tags[i]);
    }
    assert TrimAll(tags) == tags;
    var cs := t.comments.value;
    forall i | 0 <= i < |cs| ensures BuildComment(cs[i], now) == cs[i] {
      if cs[i].text.Some? { TrimOfTrimmed(cs[i].text.value); }
    }
    assert BuildComments(cs, now) == cs;
  }

  /** Every document `save()` stores is normalized. */
  lemma NormalizeNormalizes(t: Task, now: int)
    ensures Normalized(Normalize(t, now))
  {
    var n := Normalize(t, now);
    if t.title.Some? { TrimIsTrimmed(t.title.value); }
    if t.description.Some? { TrimIsTrimmed(t.description.value); }
    forall i | 0 <= i < |n.tags.value| ensures IsTrimmed(n.tags.value[i]) {
      TrimIsTrimmed(t.tags.value[i]);
    }
    forall i | 0 <= i < |n.comments.value| ensures CommentNormalized(n.comments.value[i]) {
      var c := t.comments.value[i];
      if c.text.Some? { TrimIsTrimmed(c.text.value); }
    }
  }

  /** The paths an update sets are cast like a new document's: trimmed, and
      each comment entry time-stamped. */
  predicate CastShape(p: Task) {
    && TrimmedOpt(p.title) && TrimmedOpt(p.description)
    && (p.tags.Some? ==> forall i :: 0 <= i < |p.tags.value| ==> IsTrimmed(p.tags.value[i]))
    && (p.comments.Some? ==> forall i :: 0 <= i < |p.comments.value| ==> CommentNormalized(p.comments.value[i]))
  }

  lemma CastHasShape(patch: Task, now: int)
    ensures CastShape(Cast(patch, now))
  {
    var p := Cast(patch, now);
    if patch.title.Some? { TrimIsTrimmed(patch.title.value); }
    if patch.description.Some? { TrimIsTrimmed(patch.description.value); }
    if patch.tags.Some? {
      forall i | 0 <= i < |p.tags.value| ensures IsTrimmed(p.tags.value[i]) {
        TrimIsTrimmed(patch.tags.value[i]);
      }
    }
    if patch.comments.Some? {
      forall i | 0 <= i < |p.comments.value| ensures CommentNormalized(p.comments.value[i]) {
        var c := patch.comments.value[i];
        if c.text.Some? { TrimIsTrimmed(c.text.value); }
      }
    }
  }

  lemma MergeKeepsNormalized(d: Task, p: Task)
    requires Normalized(d) && CastShape(p)
    ensures Normalized(Merge(d, p))
  {
  }

  /** An update that passes its validators keeps a stored task normalized. */
  lemma MergeNormalized(d: Task, patch: Task, now: int)
    requires Normalized(d) && CastUpdate(patch, now).Ok?
    ensures Normalized(Merge(d, CastUpdate(patch, now).value))
  {
    CastHasShape(patch, now);
    MergeKeepsNormalized(d, CastUpdate(patch, now).value);
  }
}
