/** `SharedValidation.ValidId`: the identifier rule for entity ids and engine ids. */
module SharedValidation {
  import opened Options
  import opened Validation
  import opened Text

  /** A character of the class `[a-zA-Z0-9_-]`. */
  predicate IdChar(c: char) {
    'a' <= c <= 'z' || 'A' <= c <= 'Z' || '0' <= c <= '9' || c == '_' || c == '-'
  }

  /** The intended reading of `^[a-zA-Z0-9_-]{1,50}$`: the whole string is
      1 to 50 id characters. */
  predicate MatchesIdPattern(s: string) {
    1 <= |s| <= 50 && forall i :: 0 <= i < |s| ==> IdChar(s[i])
  }

  /** What .NET's `Regex.IsMatch` does with that pattern: without
      `RegexOptions.Multiline`, `$` also matches just before a final line feed,
      so one trailing "\n" is let through. */
  predicate MatchesIdPatternDotNet(s: string) {
    MatchesIdPattern(s) || (|s| >= 2 && s[|s| - 1] == '\n' && MatchesIdPattern(s[..|s| - 1]))
  }

  /** An acceptable identifier. */
  predicate IsValidId(v: Option<string>) {
    v.Some? && 1 <= |v.value| <= 50 && forall i :: 0 <= i < |v.value| ==> IdChar(v.value[i])
  }

  /** `ValidId` as written: `Required().StringLength(50).StringMatch(pattern)`
      under .NET regular-expression semantics. */
  function ValidIdAsWritten(ctx: string, v: Option<string>): (r: Outcome)
    ensures r.Ok? <==> v.Some? && 0 < |v.value| <= 50 && MatchesIdPatternDotNet(v.value)
    ensures IsValidId(v) ==> r.Ok?
    ensures r.Contexts() == if r.Ok? then {} else {ctx}
  {
    var rules := [Required, MaxLength(50), Matches(MatchesIdPatternDotNet)];
    var r := CheckField(ctx, v, rules);
    assert r.Ok? <==> rules[0].Passes(v) && rules[1].Passes(v) && rules[2].Passes(v);
    r
  }

  /** The as-written rule accepts an id that ends in a line feed. */
  lemma ValidIdAsWrittenAcceptsTrailingNewline()
    ensures ValidIdAsWritten("id", Some("sender1\n")).Ok?
    ensures !IsValidId(Some("sender1\n"))
  {
    var s := "sender1\n";
    assert s[..|s| - 1] == "sender1";
    assert MatchesIdPattern("sender1");
    var rules := [Required, MaxLength(50), Matches(MatchesIdPatternDotNet)];
    assert forall i :: 0 <= i < |rules| ==> rules[i].Passes(Some(s));
    assert !IdChar(s[7]);
  }

  /** The as-written rule accepts exactly the ids the corrected rule accepts,
      plus those same ids followed by one line feed. */
  lemma AsWrittenDiffersOnlyByFinalLineFeed(ctx: string, v: Option<string>)
    ensures ValidIdAsWritten(ctx, v).Ok?
        <==> IsValidId(v)
             || (v.Some? && 2 <= |v.value| <= 50 && v.value[|v.value| - 1] == '\n'
                 && IsValidId(Some(v.value[..|v.value| - 1])))
  {
  }

  /** `ValidId` with the pattern anchored at the true end of the string. It
      accepts exactly the non-empty strings of at most 50 characters drawn from
      `[a-zA-Z0-9_-]`, and any rejection is a single error for `ctx`. */
  function ValidId(ctx: string, v: Option<string>): (r: Outcome)
    ensures r.Ok? <==> IsValidId(v)
    ensures r.Contexts() == if IsValidId(v) then {} else {ctx}
    ensures r.Fail? ==> |r.errors| == 1
  {
    var rules := [Required, MaxLength(50), Matches(MatchesIdPattern)];
    var r := CheckField(ctx, v, rules);
    assert IsValidId(v) ==> forall i :: 0 <= i < |rules| ==> rules[i].Passes(v);
    assert !IsValidId(v) ==> !rules[0].Passes(v) || !rules[1].Passes(v) || !rules[2].Passes(v);
    r
  }

  /** The ids the tests reject: null, empty, containing '@' or a space, and
      longer than 50 characters although every character is allowed. */
  lemma RejectedIds()
    ensures !IsValidId(None) && !IsValidId(Some(""))
    ensures !IsValidId(Some("invalid@id")) && !IsValidId(Some("id with spaces"))
    ensures !IsValidId(Some("very-long-id-that-exceeds-the-maximum-allowed-length-of-fifty-characters"))
    ensures IsValidId(Some("fetcher1"))
  {
    assert !IdChar("invalid@id"[7]);
    assert !IdChar("id with spaces"[2]);
    assert IdChar('f') && IdChar('e') && IdChar('t') && IdChar('c') && IdChar('h') && IdChar('r') && IdChar('1');
  }

  /** Upper-casing keeps an identifier valid, so an upper-cased EngineId still
      satisfies `ValidId`. */
  lemma ToUpperKeepsValidId(s: string)
    requires IsValidId(Some(s))
    ensures IsValidId(Some(ToUpper(s)))
  {
    var u := ToUpper(s);
    forall i | 0 <= i < |u|
      ensures IdChar(u[i])
    {
      assert IdChar(s[i]);
    }
  }
}
