/** `Template`: the subject and content a render engine turns into a message,
    for one language and message type. */
module Templates {
  import opened Options
  import opened Text
  import opened Validation
  import opened SharedValidation
  import opened ElementStatuses
  import opened MessageTypes
  import Element

  /** `TemplateContext`: the language and, optionally, the scope a template
      is meant for. */
  datatype TemplateContext = TemplateContext(language: Option<string>, scope: Option<string>)

  datatype Template = Template(
    id: string,
    name: string,
    engineId: string,
    context: TemplateContext,
    subject: string,
    content: string,
    messageType: MessageType,
    status: ElementStatus)

  /** `context?.Language`: no language when there is no context. */
  function LanguageOf(context: Option<TemplateContext>): Option<string> {
    if context.Some? then context.value.language else None
  }

  /** `context?.Scope`. */
  function ScopeOf(context: Option<TemplateContext>): Option<string> {
    if context.Some? then context.value.scope else None
  }

  /** A context the validation accepts: present, with a language of one or
      two characters and a scope of at most 50 characters if any. */
  predicate ContextOk(context: Option<TemplateContext>) {
    context.Some? && PresentWithin(context.value.language, 2) && WithinIfPresent(context.value.scope, 50)
  }

  /** What every template built by `Create` and changed by `Update` satisfies. */
  predicate Valid(t: Template) {
    && IsValidId(Some(t.id))
    && 0 < |t.name| <= 100 && t.name == ToUpper(t.name)
    && IsValidId(Some(t.engineId)) && t.engineId == ToUpper(t.engineId)
    && ContextOk(Some(t.context))
    && 0 < |t.subject| <= 100
    && 0 < |t.content|
  }

  /** The checks of `context`, `context.Language` and `context.Scope`. */
  function ValidateContext(context: Option<TemplateContext>): (r: Outcome)
    ensures r.Ok? <==> ContextOk(context)
    ensures r.Contexts() == ErrorUnless(context.Some?, "context")
                          + ErrorUnless(PresentWithin(LanguageOf(context), 2), "context.Language")
                          + ErrorUnless(WithinIfPresent(ScopeOf(context), 50), "context.Scope")
  {
    RequiredWithin("context.Language", LanguageOf(context), 2);
    var scopeRules := [MaxLength(50)];
    assert CheckField("context.Scope", ScopeOf(context), scopeRules).Ok?
       <==> scopeRules[0].Passes(ScopeOf(context));
    Check("context", context.Some?, REQUIRED)
      .And(CheckField("context.Language", LanguageOf(context), [Required, MaxLength(2)]))
      .And(CheckField("context.Scope", ScopeOf(context), scopeRules))
  }

  /** The checks of `subject`, `content` and `messageType`. */
  function ValidateMessageParts(subject: Option<string>, content: Option<string>,
                                messageType: Option<MessageType>): (r: Outcome)
    ensures r.Ok? <==> PresentWithin(subject, 100) && Present(content) && messageType.Some?
    ensures r.Contexts() == ErrorUnless(PresentWithin(subject, 100), "subject")
                          + ErrorUnless(Present(content), "content")
                          + ErrorUnless(messageType.Some?, "messageType")
  {
    RequiredWithin("subject", subject, 100);
    var contentRules := [Required];
    assert CheckField("content", content, contentRules).Ok? <==> contentRules[0].Passes(content);
    CheckField("subject", subject, [Required, MaxLength(100)])
      .And(CheckField("content", content, contentRules))
      .And(Check("messageType", messageType.Some?, REQUIRED))
  }

  /** `Template.Validate`: every field is checked and the failing fields are
      exactly the ones reported. A missing context is reported both under
      "context" and under "context.Language". */
  function Validate(id: Option<string>, name: Option<string>, engineId: Option<string>,
                    context: Option<TemplateContext>, subject: Option<string>,
                    content: Option<string>, messageType: Option<MessageType>): (r: Outcome)
    ensures r.Ok? <==> IsValidId(id) && PresentWithin(name, 100) && IsValidId(engineId)
                       && ContextOk(context) && PresentWithin(subject, 100) && Present(content)
                       && messageType.Some?
    ensures r.Contexts() == ErrorUnless(IsValidId(id), "id")
                          + ErrorUnless(PresentWithin(name, 100), "name")
                          + ErrorUnless(IsValidId(engineId), "engineId")
                          + ErrorUnless(context.Some?, "context")
                          + ErrorUnless(PresentWithin(LanguageOf(context), 2), "context.Language")
                          + ErrorUnless(WithinIfPresent(ScopeOf(context), 50), "context.Scope")
                          + ErrorUnless(PresentWithin(subject, 100), "subject")
                          + ErrorUnless(Present(content), "content")
                          + ErrorUnless(messageType.Some?, "messageType")
  {
    RequiredWithin("name", name, 100);
    var head := ValidId("id", id)
      .And(CheckField("name", name, [Required, MaxLength(100)]))
      .And(ValidId("engineId", engineId));
    var r := head.And(ValidateContext(context)).And(ValidateMessageParts(subject, content, messageType));
    UnionOfThreeGroups(ErrorUnless(IsValidId(id), "id"), ErrorUnless(PresentWithin(name, 100), "name"),
                       ErrorUnless(IsValidId(engineId), "engineId"), ErrorUnless(context.Some?, "context"),
                       ErrorUnless(PresentWithin(LanguageOf(context), 2), "context.Language"),
                       ErrorUnless(WithinIfPresent(ScopeOf(context), 50), "context.Scope"),
                       ErrorUnless(PresentWithin(subject, 100), "subject"),
                       ErrorUnless(Present(content), "content"),
                       ErrorUnless(messageType.Some?, "messageType"));
    r
  }

  /** `Template.Create`: a template exists only if validation passed; Name and
      EngineId are upper-cased, the rest is kept, and it starts Enabled. */
  function Create(id: Option<string>, name: Option<string>, engineId: Option<string>,
                  context: Option<TemplateContext>, subject: Option<string>,
                  content: Option<string>, messageType: Option<MessageType>): (r: Result<Template>)
    ensures r.Success? <==> IsValidId(id) && PresentWithin(name, 100) && IsValidId(engineId)
                            && ContextOk(context) && PresentWithin(subject, 100) && Present(content)
                            && messageType.Some?
    ensures r.Failure? ==> r.errors == Validate(id, name, engineId, context, subject, content, messageType).Errors()
    ensures r.Success? ==> && r.value.id == id.value
                           && r.value.name == ToUpper(name.value)
                           && r.value.engineId == ToUpper(engineId.value)
                           && r.value.context == context.value
                           && r.value.subject == subject.value
                           && r.value.content == content.value
                           && r.value.messageType == messageType.value
                           && r.value.status == Element.InitialStatus
    ensures r.Success? ==> Valid(r.value)
  {
    var o := Validate(id, name, engineId, context, subject, content, messageType);
    if o.Ok? then
      ToUpperKeepsValidId(engineId.value);
      ToUpperIdempotent(name.value);
      ToUpperIdempotent(engineId.value);
      Success(Template(id.value, ToUpper(name.value), ToUpper(engineId.value), context.value,
                       subject.value, content.value, messageType.value, Element.InitialStatus))
    else Failure(o.Errors())
  }

  /** `Template.Update`: refused with a "Status" error unless the template is
      Enabled; otherwise the template's own Id, Name, Context and MessageType
      are validated again with the new values, and on success only EngineId
      (upper-cased), Subject and Content change. */
  function Update(t: Template, engineId: Option<string>, subject: Option<string>,
                  content: Option<string>): (r: Applied<Template>)
    ensures r.outcome.Ok? <==> && t.status == Enabled
                               && IsValidId(Some(t.id)) && PresentWithin(Some(t.name), 100)
                               && ContextOk(Some(t.context))
                               && IsValidId(engineId) && PresentWithin(subject, 100) && Present(content)
    ensures t.status != Enabled ==> r.outcome == Fail([FieldError("Status", Element.ELEMENT_NOT_ENABLED)])
    ensures t.status == Enabled ==>
              r.outcome == Validate(Some(t.id), Some(t.name), engineId, Some(t.context), subject, content,
                                    Some(t.messageType))
    ensures r.outcome.Ok? ==> r.state == t.(engineId := ToUpper(engineId.value), subject := subject.value,
                                           content := content.value)
    ensures r.outcome.Fail? ==> r.state == t
    ensures Valid(t) ==> Valid(r.state)
  {
    var o := Element.ValidateEnable(t.status).Then(
               Validate(Some(t.id), Some(t.name), engineId, Some(t.context), subject, content, Some(t.messageType)));
    if o.Ok? then
      ToUpperKeepsValidId(engineId.value);
      ToUpperIdempotent(engineId.value);
      Applied(o, t.(engineId := ToUpper(engineId.value), subject := subject.value, content := content.value))
    else Applied(o, t)
  }

  /** For an enabled valid template only the new values matter: the update
      succeeds exactly when they are valid. */
  lemma UpdateOfValidTemplate(t: Template, engineId: Option<string>, subject: Option<string>,
                              content: Option<string>)
    requires Valid(t) && t.status == Enabled
    ensures Update(t, engineId, subject, content).outcome.Ok?
        <==> IsValidId(engineId) && PresentWithin(subject, 100) && Present(content)
  {
  }

  /** Updating an enabled, valid template with the values it already holds
      succeeds and changes nothing. */
  lemma UpdateWithCurrentValues(t: Template)
    requires Valid(t) && t.status == Enabled
    ensures Update(t, Some(t.engineId), Some(t.subject), Some(t.content)) == Applied(Ok, t)
  {
  }

  /** A template without a context is refused under "context" and also under
      "context.Language", since the language of a missing context is null. */
  lemma MissingContextReportsLanguage(id: Option<string>, name: Option<string>, engineId: Option<string>,
                                      subject: Option<string>, content: Option<string>,
                                      messageType: Option<MessageType>)
    ensures var r := Validate(id, name, engineId, None, subject, content, messageType);
            r.HasErrorFor("context") && r.HasErrorFor("context.Language")
  {
  }

  /** A subject of 101 characters is refused. */
  lemma SubjectTooLong(t: Template, subject: string)
    requires Valid(t) && t.status == Enabled && |subject| == 101
    ensures !Update(t, Some(t.engineId), Some(subject), Some(t.content)).outcome.Ok?
    ensures Update(t, Some(t.engineId), Some(subject), Some(t.content)).state == t
  {
  }
}
