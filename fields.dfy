/** The Mongoose schema-path rules the models use (`required`, `maxlength`,
    `enum`, `min`, `max`, ObjectId casting), each as a predicate on an
    already-cast value and as a check that reports the failing rule.

    `whole` tells the two validation modes apart: `save()` validates the whole
    document, so a required path that is absent fails; `findByIdAndUpdate` with
    `runValidators` validates only the paths the update sets, so an absent path
    passes, while a present string path must still be non-empty. */
module Fields {

  import opened Common

  // ---- the rules, as predicates ----

  /** `required` on a String path that is present: it is not the empty string. */
  predicate NonEmpty(v: Option<string>) {
    v.None? || |v.value| > 0
  }

  predicate LengthAtMost(v: Option<string>, max: nat) {
    v.None? || |v.value| <= max
  }

  predicate OneOf(v: Option<string>, values: seq<string>) {
    v.None? || v.value in values
  }

  predicate AtLeast(v: Option<real>, min: real) {
    v.None? || min <= v.value
  }

  predicate AtMost(v: Option<real>, max: real) {
    v.None? || v.value <= max
  }

  predicate IsRef(v: Option<string>) {
    v.None? || IsObjectId(v.value)
  }

  predicate AllRefs(v: Option<seq<string>>) {
    v.None? || forall i :: 0 <= i < |v.value| ==> IsObjectId(v.value[i])
  }

  // ---- the rules, as checks; each reports at most one reason ----

  /** `required`: whole-document validation demands the path; a present
      string must also be non-empty. */
  function CheckRequiredString(v: Option<string>, whole: bool): (r: seq<Reason>)
    ensures r == [] <==> (whole ==> v.Some?) && NonEmpty(v)
    ensures r == [] || r == [Required]
  {
    match v
    case None => if whole then [Required] else []
    case Some(s) => if |s| == 0 then [Required] else []
  }

  function CheckRequired<T>(v: Option<T>, whole: bool): (r: seq<Reason>)
    ensures r == [] <==> (whole ==> v.Some?)
    ensures r == [] || r == [Required]
  {
    if whole && v.None? then [Required] else []
  }

  function CheckMaxLength(v: Option<string>, max: nat): (r: seq<Reason>)
    ensures r == [] <==> LengthAtMost(v, max)
    ensures r == [] || r == [TooLong(max)]
  {
    if v.Some? && |v.value| > max then [TooLong(max)] else []
  }

  function CheckEnum(v: Option<string>, values: seq<string>): (r: seq<Reason>)
    ensures r == [] <==> OneOf(v, values)
    ensures r == [] || r == [NotInEnum]
  {
    if v.Some? && v.value !in values then [NotInEnum] else []
  }

  function CheckMin(v: Option<real>, min: real): (r: seq<Reason>)
    ensures r == [] <==> AtLeast(v, min)
    ensures r == [] || r == [BelowMin(min)]
  {
    if v.Some? && v.value < min then [BelowMin(min)] else []
  }

  function CheckMax(v: Option<real>, max: real): (r: seq<Reason>)
    ensures r == [] <==> AtMost(v, max)
    ensures r == [] || r == [AboveMax(max)]
  {
    if v.Some? && v.value > max then [AboveMax(max)] else []
  }

  function CheckRef(v: Option<string>): (r: seq<Reason>)
    ensures r == [] <==> IsRef(v)
    ensures r == [] || r == [NotAnObjectId]
  {
    if v.Some? && !IsObjectId(v.value) then [NotAnObjectId] else []
  }

  function CheckRefs(v: Option<seq<string>>): (r: seq<Reason>)
    ensures r == [] <==> AllRefs(v)
    ensures r == [] || r == [NotAnObjectId]
  {
    if v.Some? && exists i | 0 <= i < |v.value| :: !IsObjectId(v.value[i]) then [NotAnObjectId] else []
  }

  /** A path reports its first failing rule, as Mongoose's per-path error does. */
  function At(path: string, reasons: seq<Reason>): (r: seq<Violation>)
    ensures r == [] <==> reasons == []
    ensures r != [] ==> r == [Violation(path, reasons[0])]
  {
    if reasons == [] then [] else [Violation(path, reasons[0])]
  }

  /** `default`: an absent path takes the default value. */
  function Default<T>(v: Option<T>, d: T): (r: Option<T>)
    ensures r.Some?
    ensures v.Some? ==> r == v
    ensures v.None? ==> r == Some(d)
  {
    if v.None? then Some(d) else v
  }

  /** An update sets the paths it carries and leaves the rest. */
  function Override<T>(stored: Option<T>, patch: Option<T>): (r: Option<T>)
    ensures patch.Some? ==> r == patch
    ensures patch.None? ==> r == stored
  {
    if patch.Some? then patch else stored
  }
}
