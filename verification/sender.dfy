/** `Sender`: the configuration naming the send engine and its settings for one
    message type. */
module Senders {
  import opened Options
  import opened Text
  import opened Validation
  import opened SharedValidation
  import opened ElementStatuses
  import opened MessageTypes
  import Element

  datatype Sender = Sender(
    id: string,
    name: string,
    engineId: string,
    settings: string,
    messageType: MessageType,
    status: ElementStatus)

  /** What every sender built by `Create` and changed by `Update` satisfies. */
  predicate Valid(s: Sender) {
    && IsValidId(Some(s.id))
    && 0 < |s.name| <= 100 && s.name == ToUpper(s.name)
    && IsValidId(Some(s.engineId)) && s.engineId == ToUpper(s.engineId)
    && IsJson(s.settings)
  }

  /** `Sender.Validate`: every field is checked and every failing field
      reports under its own name. */
  function Validate(id: Option<string>, name: Option<string>, engineId: Option<string>,
                    settings: Option<string>, messageType: Option<MessageType>): (r: Outcome)
    ensures r.Ok? <==> IsValidId(id) && PresentWithin(name, 100) && IsValidId(engineId)
                       && JsonPresent(settings) && messageType.Some?
    ensures r.Contexts() == ErrorUnless(IsValidId(id), "id")
                          + ErrorUnless(PresentWithin(name, 100), "name")
                          + ErrorUnless(IsValidId(engineId), "engineId")
                          + ErrorUnless(JsonPresent(settings), "settings")
                          + ErrorUnless(messageType.Some?, "messageType")
  {
    RequiredWithin("name", name, 100);
    RequiredJson("settings", settings);
    var a := ValidId("id", id);
    var b := CheckField("name", name, [Required, MaxLength(100)]);
    var c := ValidId("engineId", engineId);
    var d := CheckField("settings", settings, [Required, JsonPayload]);
    var e := Check("messageType", messageType.Some?, REQUIRED);
    a.And(b).And(c).And(d).And(e)
  }

  /** Settings that are present but do not parse are reported with the code
      INVALID_PAYLOAD, and that code is reported for nothing else. */
  lemma InvalidSettingsReported(id: Option<string>, name: Option<string>, engineId: Option<string>,
                                settings: Option<string>, messageType: Option<MessageType>)
    ensures Validate(id, name, engineId, settings, messageType).HasError("settings", INVALID_PAYLOAD)
        <==> settings.Some? && 0 < |settings.value| && !IsJson(settings.value)
  {
    RequiredJson("settings", settings);
    var a := ValidId("id", id);
    var b := CheckField("name", name, [Required, MaxLength(100)]);
    var c := ValidId("engineId", engineId);
    var d := CheckField("settings", settings, [Required, JsonPayload]);
    var e := Check("messageType", messageType.Some?, REQUIRED);
    HasErrorAnd(a, b, "settings", INVALID_PAYLOAD);
    HasErrorAnd(a.And(b), c, "settings", INVALID_PAYLOAD);
    HasErrorAnd(a.And(b).And(c), d, "settings", INVALID_PAYLOAD);
    HasErrorAnd(a.And(b).And(c).And(d), e, "settings", INVALID_PAYLOAD);
    SilentOn(a, "settings", INVALID_PAYLOAD);
    SilentOn(b, "settings", INVALID_PAYLOAD);
    SilentOn(c, "settings", INVALID_PAYLOAD);
    SilentOn(e, "settings", INVALID_PAYLOAD);
  }

  /** `Sender.Create`: a sender exists only if validation passed; Name and
      EngineId are upper-cased, the rest is kept, and it starts Enabled. */
  function Create(id: Option<string>, name: Option<string>, engineId: Option<string>,
                  settings: Option<string>, messageType: Option<MessageType>): (r: Result<Sender>)
    ensures r.Success? <==> IsValidId(id) && PresentWithin(name, 100) && IsValidId(engineId)
                            && JsonPresent(settings) && messageType.Some?
    ensures r.Failure? ==> r.errors == Validate(id, name, engineId, settings, messageType).Errors()
    ensures r.Success? ==> && r.value.id == id.value
                           && r.value.name == ToUpper(name.value)
                           && r.value.engineId == ToUpper(engineId.value)
                           && r.value.settings == settings.value
                           && r.value.messageType == messageType.value
                           && r.value.status == Element.InitialStatus
    ensures r.Success? ==> Valid(r.value)
  {
    var o := Validate(id, name, engineId, settings, messageType);
    if o.Ok? then
      ToUpperKeepsValidId(engineId.value);
      ToUpperIdempotent(name.value);
      ToUpperIdempotent(engineId.value);
      Success(Sender(id.value, ToUpper(name.value), ToUpper(engineId.value), settings.value,
                     messageType.value, Element.InitialStatus))
    else Failure(o.Errors())
  }

  /** `Sender.Update`: refused with a "Status" error unless the sender is
      Enabled; otherwise re-validated with the sender's own Id and
      MessageType, and on success only Name, EngineId and Settings change. */
  function Update(s: Sender, name: Option<string>, engineId: Option<string>, settings: Option<string>): (r: Applied<Sender>)
    ensures r.outcome.Ok? <==> s.status == Enabled && IsValidId(Some(s.id)) && PresentWithin(name, 100)
                               && IsValidId(engineId) && JsonPresent(settings)
    ensures s.status != Enabled ==> r.outcome == Fail([FieldError("Status", Element.ELEMENT_NOT_ENABLED)])
    ensures s.status == Enabled ==> r.outcome == Validate(Some(s.id), name, engineId, settings, Some(s.messageType))
    ensures r.outcome.Ok? ==> r.state == s.(name := ToUpper(name.value), engineId := ToUpper(engineId.value),
                                           settings := settings.value)
    ensures r.outcome.Fail? ==> r.state == s
    ensures Valid(s) ==> Valid(r.state)
  {
    var o := Element.ValidateEnable(s.status).Then(Validate(Some(s.id), name, engineId, settings, Some(s.messageType)));
    if o.Ok? then
      ToUpperKeepsValidId(engineId.value);
      ToUpperIdempotent(name.value);
      ToUpperIdempotent(engineId.value);
      Applied(o, s.(name := ToUpper(name.value), engineId := ToUpper(engineId.value), settings := settings.value))
    else Applied(o, s)
  }

  /** Updating an enabled, valid sender with the values it already holds
      succeeds and changes nothing. */
  lemma UpdateWithCurrentValues(s: Sender)
    requires Valid(s) && s.status == Enabled
    ensures Update(s, Some(s.name), Some(s.engineId), Some(s.settings)) == Applied(Ok, s)
  {
    RequiredJson("settings", Some(s.settings));
  }

  /** Disabling a sender and then updating it fails on "Status", however
      valid the new values are, and leaves the sender as it was. */
  lemma UpdateAfterDisableFails(s: Sender, name: Option<string>, engineId: Option<string>, settings: Option<string>)
    requires s.status == Enabled
    ensures var d := s.(status := Element.Disable(s.status).state);
            Update(d, name, engineId, settings).outcome.HasErrorFor("Status")
            && Update(d, name, engineId, settings).state == d
  {
    var d := s.(status := Element.Disable(s.status).state);
    assert Update(d, name, engineId, settings).outcome.Errors()[0] == FieldError("Status", Element.ELEMENT_NOT_ENABLED);
  }
}
