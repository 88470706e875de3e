/** `DataFetcher` and `Renderer`: the two elements that name an engine and
    carry its JSON settings. Their validation, factory and update are the
    same, so one definition serves both and `Kind` tells them apart. */
module SettingsElements {
  import opened Options
  import opened Text
  import opened Validation
  import opened SharedValidation
  import opened ElementStatuses
  import Element

  datatype Kind = DataFetcherKind | RendererKind

  datatype SettingsElement = SettingsElement(
    kind: Kind,
    id: string,
    name: string,
    engineId: string,
    settings: string,
    status: ElementStatus)

  /** A `DataFetcher`, as a message's builder argument must be. */
  type DataFetcher = e: SettingsElement | e.kind == DataFetcherKind
    witness SettingsElement(DataFetcherKind, "", "", "", "", Enabled)

  /** What every element built by `Create` and changed by `Update` satisfies.
      Unlike a sender's, the name is kept as given. */
  predicate Valid(e: SettingsElement) {
    && IsValidId(Some(e.id))
    && 0 < |e.name| <= 200
    && IsValidId(Some(e.engineId)) && e.engineId == ToUpper(e.engineId)
    && IsJson(e.settings)
  }

  /** `DataFetcher.Validate` and `Renderer.Validate`: every field is checked
      and the failing fields are exactly the ones reported. */
  function Validate(id: Option<string>, name: Option<string>, engineId: Option<string>,
                    settings: Option<string>): (r: Outcome)
    ensures r.Ok? <==> IsValidId(id) && PresentWithin(name, 200) && IsValidId(engineId)
                       && JsonPresent(settings)
    ensures r.Contexts() == ErrorUnless(IsValidId(id), "id")
                          + ErrorUnless(PresentWithin(name, 200), "name")
                          + ErrorUnless(IsValidId(engineId), "engineId")
                          + ErrorUnless(JsonPresent(settings), "settings")
  {
    RequiredWithin("name", name, 200);
    RequiredJson("settings", settings);
    var a := ValidId("id", id);
    var b := CheckField("name", name, [Required, MaxLength(200)]);
    var c := ValidId("engineId", engineId);
    var d := CheckField("settings", settings, [Required, JsonPayload]);
    a.And(b).And(c).And(d)
  }

  /** Settings that are present but do not parse are reported with the code
      INVALID_PAYLOAD, and that code is reported for nothing else. */
  lemma InvalidSettingsReported(id: Option<string>, name: Option<string>, engineId: Option<string>,
                                settings: Option<string>)
    ensures Validate(id, name, engineId, settings).HasError("settings", INVALID_PAYLOAD)
        <==> settings.Some? && 0 < |settings.value| && !IsJson(settings.value)
  {
    RequiredJson("settings", settings);
    var a := ValidId("id", id);
    var b := CheckField("name", name, [Required, MaxLength(200)]);
    var c := ValidId("engineId", engineId);
    var d := CheckField("settings", settings, [Required, JsonPayload]);
    HasErrorAnd(a, b, "settings", INVALID_PAYLOAD);
    HasErrorAnd(a.And(b), c, "settings", INVALID_PAYLOAD);
    HasErrorAnd(a.And(b).And(c), d, "settings", INVALID_PAYLOAD);
    SilentOn(a, "settings", INVALID_PAYLOAD);
    SilentOn(b, "settings", INVALID_PAYLOAD);
    SilentOn(c, "settings", INVALID_PAYLOAD);
  }

  /** `DataFetcher.Create` and `Renderer.Create`: an element exists only if
      validation passed; EngineId is upper-cased, the name and settings are
      kept, and it starts Enabled. */
  function Create(kind: Kind, id: Option<string>, name: Option<string>, engineId: Option<string>,
                  settings: Option<string>): (r: Result<SettingsElement>)
    ensures r.Success? <==> IsValidId(id) && PresentWithin(name, 200) && IsValidId(engineId)
                            && JsonPresent(settings)
    ensures r.Failure? ==> r.errors == Validate(id, name, engineId, settings).Errors()
    ensures r.Success? ==> && r.value.kind == kind
                           && r.value.id == id.value
                           && r.value.name == name.value
                           && r.value.engineId == ToUpper(engineId.value)
                           && r.value.settings == settings.value
                           && r.value.status == Element.InitialStatus
    ensures r.Success? ==> Valid(r.value)
  {
    var o := Validate(id, name, engineId, settings);
    if o.Ok? then
      ToUpperKeepsValidId(engineId.value);
      ToUpperIdempotent(engineId.value);
      Success(SettingsElement(kind, id.value, name.value, ToUpper(engineId.value), settings.value,
                              Element.InitialStatus))
    else Failure(o.Errors())
  }

  /** `DataFetcher.Update` and `Renderer.Update`: refused with a "Status"
      error unless the element is Enabled; otherwise re-validated with the
      element's own Id, and on success only Name, EngineId and Settings
      change. */
  function Update(e: SettingsElement, name: Option<string>, engineId: Option<string>,
                  settings: Option<string>): (r: Applied<SettingsElement>)
    ensures r.outcome.Ok? <==> e.status == Enabled && IsValidId(Some(e.id)) && PresentWithin(name, 200)
                               && IsValidId(engineId) && JsonPresent(settings)
    ensures e.status != Enabled ==> r.outcome == Fail([FieldError("Status", Element.ELEMENT_NOT_ENABLED)])
    ensures e.status == Enabled ==> r.outcome == Validate(Some(e.id), name, engineId, settings)
    ensures r.outcome.Ok? ==> r.state == e.(name := name.value, engineId := ToUpper(engineId.value),
                                           settings := settings.value)
    ensures r.outcome.Fail? ==> r.state == e
    ensures Valid(e) ==> Valid(r.state)
  {
    var o := Element.ValidateEnable(e.status).Then(Validate(Some(e.id), name, engineId, settings));
    if o.Ok? then
      ToUpperKeepsValidId(engineId.value);
      ToUpperIdempotent(engineId.value);
      Applied(o, e.(name := name.value, engineId := ToUpper(engineId.value), settings := settings.value))
    else Applied(o, e)
  }

  /** Updating an enabled, valid element with the values it already holds
      succeeds and changes nothing. */
  lemma UpdateWithCurrentValues(e: SettingsElement)
    requires Valid(e) && e.status == Enabled
    ensures Update(e, Some(e.name), Some(e.engineId), Some(e.settings)) == Applied(Ok, e)
  {
    RequiredJson("settings", Some(e.settings));
  }

  /** A name of 201 characters is refused with a "name" error and no other,
      when the remaining fields are valid. */
  lemma NameTooLong(kind: Kind, name: string)
    requires |name| == 201
    ensures var r := Create(kind, Some("fetcher1"), Some(name), Some("SQL"), Some("{}"));
            r.Failure? && r.errors == [FieldError("name", STRING_LENGTH)]
  {
    RejectedIds();
    assert IsValidId(Some("SQL")) by {
      assert IdChar('S') && IdChar('Q') && IdChar('L');
    }
    RequiredJson("settings", Some("{}"));
    var rules := [Required, MaxLength(200)];
    assert rules[0].Passes(Some(name)) && !rules[1].Passes(Some(name));
  }
}
