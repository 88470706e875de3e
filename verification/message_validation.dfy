/** `MessageValidationExtensions`: the checks the message factories and
    transitions apply to their arguments. */
module MessageValidation {
  import opened Options
  import opened Validation
  import opened Text
  import opened MessageRecords

  const CC_NOT_VALID := "CC_NOT_VALID"
  const BCC_NOT_VALID := "BCC_NOT_VALID"

  /** `ValidateModel`, `ValidateTemplate`, `ValidateSender`: the argument is
      only checked for presence. */
  function ValidatePresent<T>(ctx: string, v: Option<T>): (r: Outcome)
    ensures r.Ok? <==> v.Some?
    ensures r.Fail? ==> r.errors == [FieldError(ctx, REQUIRED)]
    ensures r.Contexts() == ErrorUnless(v.Some?, ctx)
  {
    Check(ctx, v.Some?, REQUIRED)
  }

  /** `ValidateFrom`: present and at most 150 characters. */
  function ValidateFrom(ctx: string, v: Option<string>): (r: Outcome)
    ensures r.Ok? <==> PresentWithin(v, 150)
    ensures r.Contexts() == ErrorUnless(PresentWithin(v, 150), ctx)
  {
    RequiredWithin(ctx, v, 150);
    CheckField(ctx, v, [Required, MaxLength(150)])
  }

  /** A copy list that is present and whose every address has at most `max`
      characters; an empty list qualifies. */
  predicate AllWithin(xs: Option<seq<string>>, max: nat) {
    xs.Some? && forall i :: 0 <= i < |xs.value| ==> |xs.value[i]| <= max
  }

  /** Recipients the validation accepts. */
  predicate RecipientsOk(v: Option<MessageRecipients>) {
    v.Some? && PresentWithin(v.value.to, 150) && AllWithin(v.value.cc, 150) && AllWithin(v.value.bcc, 150)
  }

  /** `ValidateRecipients`: missing recipients are one "required" error for
      `ctx` and nothing else; present ones have their To, Cc and Bcc checked,
      each under its own "Recipients." context. */
  function ValidateRecipients(ctx: string, v: Option<MessageRecipients>): (r: Outcome)
    ensures r.Ok? <==> RecipientsOk(v)
    ensures v.None? ==> r == Fail([FieldError(ctx, REQUIRED)])
    ensures v.Some? ==> r.Contexts() == ErrorUnless(PresentWithin(v.value.to, 150), "Recipients.To")
                                      + ErrorUnless(AllWithin(v.value.cc, 150), "Recipients.Cc")
                                      + ErrorUnless(AllWithin(v.value.bcc, 150), "Recipients.Bcc")
    ensures v.Some? ==> (r.HasError("Recipients.Cc", CC_NOT_VALID) <==> !AllWithin(v.value.cc, 150))
    ensures v.Some? ==> (r.HasError("Recipients.Bcc", BCC_NOT_VALID) <==> !AllWithin(v.value.bcc, 150))
  {
    if v.None? then
      Check(ctx, false, REQUIRED)
    else
      RequiredWithin("Recipients.To", v.value.to, 150);
      var a := CheckField("Recipients.To", v.value.to, [Required, MaxLength(150)]);
      var b := Check("Recipients.Cc", AllWithin(v.value.cc, 150), CC_NOT_VALID);
      var c := Check("Recipients.Bcc", AllWithin(v.value.bcc, 150), BCC_NOT_VALID);
      assert a.Fail? ==> a.errors[0].context == "Recipients.To";
      a.And(b).And(c)
  }

  /** `ValidatePayload`: present and parsable as JSON, otherwise
      INVALID_PAYLOAD for text that does not parse. */
  function ValidatePayload(ctx: string, v: Option<string>): (r: Outcome)
    ensures r.Ok? <==> JsonPresent(v)
    ensures r.Contexts() == ErrorUnless(JsonPresent(v), ctx)
    ensures r.HasError(ctx, INVALID_PAYLOAD) <==> v.Some? && 0 < |v.value| && !IsJson(v.value)
  {
    RequiredJson(ctx, v);
    CheckField(ctx, v, [Required, JsonPayload])
  }

  /** A rendered message the validation accepts. */
  predicate RenderedOk(v: Option<RenderedMessage>) {
    v.Some? && PresentWithin(v.value.subject, 100) && Present(v.value.content)
  }

  /** `ValidateGeneratedMessage`: a missing rendered message is one
      "required" error for `ctx`; a present one needs a subject of 1 to 100
      characters and a non-empty content. */
  function ValidateGeneratedMessage(ctx: string, v: Option<RenderedMessage>): (r: Outcome)
    ensures r.Ok? <==> RenderedOk(v)
    ensures v.None? ==> r == Fail([FieldError(ctx, REQUIRED)])
    ensures v.Some? ==> r.Contexts() == ErrorUnless(PresentWithin(v.value.subject, 100), "GeneratedMessage.Subject")
                                      + ErrorUnless(Present(v.value.content), "GeneratedMessage.Content")
  {
    if v.None? then
      Check(ctx, false, REQUIRED)
    else
      RequiredWithin("GeneratedMessage.Subject", v.value.subject, 100);
      var rules := [Required];
      assert CheckField("GeneratedMessage.Content", v.value.content, rules).Ok?
         <==> rules[0].Passes(v.value.content);
      CheckField("GeneratedMessage.Subject", v.value.subject, [Required, MaxLength(100)])
        .And(CheckField("GeneratedMessage.Content", v.value.content, rules))
  }

  /** Empty copy lists pass; a missing one does not. */
  lemma EmptyCopyListsPass(to: string)
    requires 0 < |to| <= 150
    ensures RecipientsOk(Some(MessageRecipients(Some(to), Some([]), Some([]))))
    ensures !RecipientsOk(Some(MessageRecipients(Some(to), None, Some([]))))
  {
  }

  /** Missing recipients produce no error for any of their parts. */
  lemma MissingRecipientsReportOnlyThemselves(ctx: string)
    ensures ValidateRecipients(ctx, None).Contexts() == {ctx}
  {
    var errors := [FieldError(ctx, REQUIRED)];
    assert ContextsOf(errors) == {ctx} + ContextsOf(errors[1..]);
  }
}
