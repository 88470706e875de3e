/** The validation pipeline every entity and transition uses: field checks
    that produce (context, code) errors and an outcome that accumulates them. */
module Validation {
  import opened Options
  import opened Text

  /** One failed check: the field it concerns and why it failed. */
  datatype FieldError = FieldError(context: string, code: string)

  /** `OperationResult`: success, or failure with the errors of every failed field. */
  datatype Outcome = Ok | Fail(errors: seq<FieldError>) {

    function Errors(): seq<FieldError> {
      if Ok? then [] else errors
    }

    /** The fields this outcome reports errors for. */
    function Contexts(): set<string> {
      ContextsOf(Errors())
    }

    /** `HasErrorsByContext(ctx)`. */
    predicate HasErrorFor(ctx: string) {
      ctx in Contexts()
    }

    predicate HasError(ctx: string, code: string) {
      FieldError(ctx, code) in Errors()
    }

    /** Checking another field: both fields' errors are kept, in order. */
    function And(other: Outcome): (r: Outcome)
      ensures r.Ok? <==> Ok? && other.Ok?
      ensures r.Errors() == Errors() + other.Errors()
      ensures r.Contexts() == Contexts() + other.Contexts()
    {
      ContextsOfAppend(Errors(), other.Errors());
      match (this, other)
      case (Ok, _) => other
      case (Fail(e1), Ok) => this
      case (Fail(e1), Fail(e2)) => Fail(e1 + e2)
    }

    /** `Then`: run the next validation only when this one succeeded. */
    function Then(next: Outcome): (r: Outcome)
      ensures r.Ok? <==> Ok? && next.Ok?
      ensures Fail? ==> r == this
      ensures Ok? ==> r == next
    {
      if Ok? then next else this
    }
  }

  /** The set of fields named by a list of errors. */
  function ContextsOf(errors: seq<FieldError>): (r: set<string>)
    ensures forall e :: e in errors ==> e.context in r
    decreases |errors|
  {
    if |errors| == 0 then {} else {errors[0].context} + ContextsOf(errors[1..])
  }

  lemma {:induction false} ContextsOfAppend(a: seq<FieldError>, b: seq<FieldError>)
    ensures ContextsOf(a + b) == ContextsOf(a) + ContextsOf(b)
    decreases |a|
  {
    if |a| > 0 {
      assert (a + b)[1..] == a[1..] + b;
      ContextsOfAppend(a[1..], b);
    } else {
      assert a + b == b;
    }
  }

  /** `OperationResult<T>`: a value, or the errors that prevented building it. */
  datatype Result<+T> = Success(value: T) | Failure(errors: seq<FieldError>)

  /** The outcome of an operation on a mutable C# object, paired with the
      object's state afterwards. */
  datatype Applied<+T> = Applied(outcome: Outcome, state: T)

  // Codes of the validation library's built-in checks.
  const REQUIRED := "REQUIRED"
  const STRING_LENGTH := "STRING_LENGTH"
  const STRING_MATCH := "STRING_MATCH"
  // The code every JSON condition of the core uses.
  const INVALID_PAYLOAD := "INVALID_PAYLOAD"

  /** `JsonDocument.Parse(text ?? "")` succeeds. */
  predicate ParsesAsJson(text: Option<string>) {
    IsJson(text.GetOr(""))
  }

  /** A check in a string field's chain. */
  datatype Rule =
    | Required
    | MaxLength(max: nat)
    | Matches(pattern: string -> bool)
    | JsonPayload
  {
    predicate Passes(v: Option<string>) {
      match this
      case Required => v.Some? && |v.value| > 0
      case MaxLength(n) => v.None? || |v.value| <= n
      case Matches(p) => v.None? || p(v.value)
      case JsonPayload => ParsesAsJson(v)
    }

    function Code(): string {
      match this
      case Required => REQUIRED
      case MaxLength(_) => STRING_LENGTH
      case Matches(_) => STRING_MATCH
      case JsonPayload => INVALID_PAYLOAD
    }
  }

  /** `With(v, ctx).Rule1().Rule2()...`: the rules run in order and the first
      one that fails ends the chain with a single error for `ctx`. */
  function CheckField(ctx: string, v: Option<string>, rules: seq<Rule>): (r: Outcome)
    ensures r.Ok? <==> forall i :: 0 <= i < |rules| ==> rules[i].Passes(v)
    ensures r.Fail? ==> |r.errors| == 1 && r.errors[0].context == ctx
    ensures r.Contexts() == if r.Ok? then {} else {ctx}
    decreases |rules|
  {
    if |rules| == 0 then Ok
    else if !rules[0].Passes(v) then
      var errors := [FieldError(ctx, rules[0].Code())];
      assert ContextsOf(errors) == {ctx} + ContextsOf(errors[1..]);
      Fail(errors)
    else
      var rest := CheckField(ctx, v, rules[1..]);
      assert forall i :: 1 <= i < |rules| ==> rules[i] == rules[1..][i - 1];
      rest
  }

  /** The one error of a failed field names the first rule that failed. */
  lemma {:induction false} CheckFieldReportsFirstFailure(ctx: string, v: Option<string>, rules: seq<Rule>)
    requires CheckField(ctx, v, rules).Fail?
    ensures exists i :: 0 <= i < |rules| && !rules[i].Passes(v)
                     && (forall j :: 0 <= j < i ==> rules[j].Passes(v))
                     && CheckField(ctx, v, rules).errors == [FieldError(ctx, rules[i].Code())]
    decreases |rules|
  {
    if rules[0].Passes(v) {
      CheckFieldReportsFirstFailure(ctx, v, rules[1..]);
      var i :| 0 <= i < |rules[1..]| && !rules[1..][i].Passes(v)
               && (forall j :: 0 <= j < i ==> rules[1..][j].Passes(v))
               && CheckField(ctx, v, rules[1..]).errors == [FieldError(ctx, rules[1..][i].Code())];
      assert forall j :: 1 <= j < i + 1 ==> rules[j] == rules[1..][j - 1];
      assert rules[i + 1] == rules[1..][i];
    }
  }

  /** A single condition on a field that is not a string (`Required` on an
      object, `Condition`, `EqualTo`, `Into`, `LessThanOrEqual`). */
  function Check(ctx: string, holds: bool, code: string): (r: Outcome)
    ensures r.Ok? <==> holds
    ensures r.Fail? ==> r.errors == [FieldError(ctx, code)]
    ensures r.Contexts() == if holds then {} else {ctx}
  {
    if holds then Ok
    else
      var errors := [FieldError(ctx, code)];
      assert ContextsOf(errors) == {ctx} + ContextsOf(errors[1..]);
      Fail(errors)
  }

  /** The fields reported when a check on `ctx` holds or not. */
  function ErrorUnless(holds: bool, ctx: string): set<string> {
    if holds then {} else {ctx}
  }

  /** A required string of at most `max` characters. */
  predicate PresentWithin(v: Option<string>, max: nat) {
    v.Some? && 0 < |v.value| <= max
  }

  /** Regrouping the reported fields of three groups of three checks. */
  lemma UnionOfThreeGroups<T>(a: set<T>, b: set<T>, c: set<T>, d: set<T>, e: set<T>, f: set<T>,
                              g: set<T>, h: set<T>, i: set<T>)
    ensures (a + b + c) + (d + e + f) + (g + h + i) == a + b + c + d + e + f + g + h + i
  {
  }

  /** An error is reported by two combined checks exactly when one of them
      reports it. */
  lemma HasErrorAnd(x: Outcome, y: Outcome, ctx: string, code: string)
    ensures x.And(y).HasError(ctx, code) <==> x.HasError(ctx, code) || y.HasError(ctx, code)
  {
  }

  /** A check that reports nothing for `ctx` reports no error for it. */
  lemma SilentOn(x: Outcome, ctx: string, code: string)
    requires ctx !in x.Contexts()
    ensures !x.HasError(ctx, code)
  {
  }

  /** A required, non-empty string. */
  predicate Present(v: Option<string>) {
    v.Some? && 0 < |v.value|
  }

  /** An optional string of at most `max` characters. */
  predicate WithinIfPresent(v: Option<string>, max: nat) {
    v.None? || |v.value| <= max
  }

  /** A required string holding syntactically valid JSON. */
  predicate JsonPresent(v: Option<string>) {
    v.Some? && 0 < |v.value| && IsJson(v.value)
  }

  /** `Required().StringLength(max)` accepts exactly the present strings of at
      most `max` characters. */
  lemma RequiredWithin(ctx: string, v: Option<string>, max: nat)
    ensures CheckField(ctx, v, [Required, MaxLength(max)]).Ok? <==> PresentWithin(v, max)
  {
    var rules := [Required, MaxLength(max)];
    if PresentWithin(v, max) {
      assert forall i :: 0 <= i < |rules| ==> rules[i].Passes(v);
    } else {
      assert !rules[0].Passes(v) || !rules[1].Passes(v);
    }
  }

  /** `Required().Condition(parses, "INVALID_PAYLOAD")` accepts exactly the
      present JSON texts, and reports INVALID_PAYLOAD exactly for present text
      that does not parse. */
  lemma RequiredJson(ctx: string, v: Option<string>)
    ensures CheckField(ctx, v, [Required, JsonPayload]).Ok? <==> JsonPresent(v)
    ensures CheckField(ctx, v, [Required, JsonPayload]).HasError(ctx, INVALID_PAYLOAD)
        <==> v.Some? && 0 < |v.value| && !IsJson(v.value)
  {
    var rules := [Required, JsonPayload];
    var r := CheckField(ctx, v, rules);
    if JsonPresent(v) {
      assert forall i :: 0 <= i < |rules| ==> rules[i].Passes(v);
    } else if v.Some? && 0 < |v.value| {
      assert rules[0].Passes(v) && !rules[1].Passes(v);
      assert r.errors == [FieldError(ctx, INVALID_PAYLOAD)];
    } else {
      assert !rules[0].Passes(v);
      assert r.errors == [FieldError(ctx, REQUIRED)];
    }
  }
}
