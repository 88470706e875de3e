# Nuntius core in Dafny

A model of the domain core of Nuntius. Nuntius is a notification service that
builds, renders and sends messages through pluggable engines. The model covers:

- **Validation outcomes.** Every operation yields an `OperationResult`: either
  success, or a list of (context, code) errors, one per failing field.
- **The shared `ValidId` rule.**
- **The element lifecycle.** Enabled, Disabled and Archived, with the
  `ValidateEnable` guard that every `Update` passes first.
- **The four configuration entities.**
  - `Sender`.
  - `DataFetcher` and `Renderer`, whose validation, factory and update are
    identical and are modelled once in `SettingsElements`.
  - `Template`.
- **Entity identity.** `Equals`, `==` and `!=`, which compare Ids only, and
  the hash inputs, which also include the runtime type.
- **The `Message` state machine.** Three factories and four guarded
  transitions. New → Built → Rendered → Sent, with Fault for failed sends.
- **The `EngineFactory` registry.**
- **The five closed enumerations.** MessageStatus, ElementStatus,
  MessageType, MessagePriority and MessageCreationMode.

The source's mutable objects become immutable datatypes:

- A factory returns `Result<T>`: `Success(value)` or `Failure(errors)`.
- A mutating method returns `Applied(outcome, state)`, the outcome together
  with the object's state afterwards.
- C# `null` is `Option.None` wherever the source checks for it. The
  arguments taken as non-null are listed under "Left out".

Four things in the source are abstracted:

- **JSON.** Whether a text parses as JSON (`JsonDocument.Parse`) is the
  uninterpreted predicate `Text.IsJson`. The model assumes only that `"{}"`
  parses and `""` does not.
- **Upper-casing.** `ToUpper` is ASCII upper-casing.
- **The clock.** `DateTime.UtcNow` is a `now` parameter.
- **The payload.** The message payload is the record `{mode, header, body?}`,
  not its serialized text.

Field-validation chains (`With(v, ctx).Required().StringLength(n)...`) are
modelled by `Validation.CheckField`:

- The rules of one field run in order.
- The first rule that fails ends that field's chain with a single error.
- Different fields accumulate their errors.

Entity contracts describe errors through the set of contexts reported
(`Contexts()`), because the order of errors within one field belongs to the
validation library.

## Model

| member | source | states |
|---|---|---|
| Enumerations.FirstWithValue | src/core/Nuntius.Core/Messages/MessageStatus.cs:26-28 | `All.FirstOrDefault(s => s.Value == value)`: a value is found exactly when some listed member has that code, it has that code, and it is the first such member |
| MessageStatuses.All | src/core/Nuntius.Core/Messages/MessageStatus.cs:17-24 | five statuses listed in code order (`All[i].Value == i`), every status at the index of its code |
| MessageStatuses.FromValue | src/core/Nuntius.Core/Messages/MessageStatus.cs:26-28 | a status is returned exactly for codes 0..4, and it carries the requested code; any other code is the thrown ArgumentException |
| MessageStatuses.FromValueRoundTrip | src/core/Nuntius.Core/Messages/MessageStatus.cs:11-28 | `FromValue(s.Value) == s` for every status, and the codes are distinct |
| MessageStatuses.EndStatuses | src/core/Nuntius.Core/Messages/MessageStatus.cs:32 | `IsEndStatus` holds exactly for Sent and Fault, the statuses with codes 3 and 4 |
| ElementStatuses.All | src/core/Nuntius.Core/Common/ElementStatus.cs:15-20 | Enabled, Disabled, Archived in code order, every status at the index of its code |
| ElementStatuses.FromValue | src/core/Nuntius.Core/Common/ElementStatus.cs:22-24 | a status is returned exactly for codes 0, 1, 2, carrying that code |
| ElementStatuses.FromValueRoundTrip | src/core/Nuntius.Core/Common/ElementStatus.cs:11-24 | `FromValue(s.Value) == s` for every status; codes are distinct |
| MessageTypes.All | src/core/Nuntius.Core/Messages/Entities/MessageType.cs:15-20 | Text, Email, Notification in code order (`All[1]` is Email) |
| MessageTypes.FromValue | src/core/Nuntius.Core/Messages/Entities/MessageType.cs:22-24 | a type is returned exactly for codes 0..2, carrying that code |
| MessageTypes.FromValueRoundTrip | src/core/Nuntius.Core/Messages/Entities/MessageType.cs:11-24 | `FromValue(t.Value) == t` for every type; codes are distinct |
| MessagePriorities.All | src/core/Nuntius.Core/Messages/Entities/MessagePriority.cs:16-22 | four priorities whose codes strictly increase along the list |
| MessagePriorities.AllIsComplete | src/core/Nuntius.Core/Messages/Entities/MessagePriority.cs:16-22 | every priority appears in `All` |
| MessagePriorities.FromValue | src/core/Nuntius.Core/Messages/Entities/MessagePriority.cs:24-26 | a priority is returned exactly for codes 1, 10, 50, 99, carrying that code |
| MessagePriorities.Default | src/core/Nuntius.Core/Messages/Entities/MessagePriority.cs:28 | the default priority is the one with code 50 (Normal) |
| MessagePriorities.FromValueRoundTrip | src/core/Nuntius.Core/Messages/Entities/MessagePriority.cs:11-26 | `FromValue(p.Value) == p` for every priority; codes are distinct |
| CreationModes.All | src/core/Nuntius.Core/Messages/Entities/MessageCreationMode.cs:15-20 | FromBuilder, FromTemplate, FromRenderedMessage in code order |
| CreationModes.FromValue | src/core/Nuntius.Core/Messages/Entities/MessageCreationMode.cs:22-24 | a mode is returned exactly for codes 0..2, carrying that code |
| CreationModes.FromValueRoundTrip | src/core/Nuntius.Core/Messages/Entities/MessageCreationMode.cs:11-24 | `FromValue(m.Value) == m` for every mode; codes are distinct |
| CreationModes.NamesDistinct | src/core/Nuntius.Core/Messages/Entities/MessageCreationMode.cs:11-26 | `ToString` (the Name stored as payload mode) tells the three modes apart |
| Text.ToUpper | src/core/Nuntius.Core/Delivery/Entities/Sender.cs:20 | upper-casing keeps the length, maps each lower-case letter to its capital, keeps every other character, and leaves no lower-case letter |
| Validation.CheckField | src/core/Nuntius.Core/Fetching/Entities/DataFetcherValidations.cs:15 | a field chain passes exactly when every rule passes; otherwise it reports exactly one error, under the field's context |
| Validation.CheckFieldReportsFirstFailure | src/core/Nuntius.Core/Fetching/Entities/DataFetcherValidations.cs:15 | the single error of a failed chain carries the code of the first rule that failed, all earlier rules having passed |
| Validation.Check | src/core/Nuntius.Core/Common/Entities/ElementValidation.cs:8-11 | a single condition passes exactly when it holds and otherwise reports exactly (context, code) |
| Validation.RequiredWithin | src/core/Nuntius.Core/Delivery/Entities/SenderValidations.cs:15 | `Required().StringLength(n)` accepts exactly the non-null, non-empty strings of at most n characters |
| Validation.RequiredJson | src/core/Nuntius.Core/Delivery/Entities/SenderValidations.cs:17-21 | `Required().Condition(parses, "INVALID_PAYLOAD")` accepts exactly present JSON text, and reports INVALID_PAYLOAD exactly for present, non-empty text that does not parse |
| SharedValidation.ValidIdAsWritten | src/core/Nuntius.Core/Common/Entities/SharedValidation.cs:7-11 | the rule as written, with .NET's `$`: passes exactly for a present string of 1 to 50 characters that the `$`-anchored pattern matches, so every well-formed id passes; a failure is reported under the field's context |
| SharedValidation.AsWrittenDiffersOnlyByFinalLineFeed | src/core/Nuntius.Core/Common/Entities/SharedValidation.cs:7-11 | the as-written rule accepts exactly the well-formed ids and those ids followed by one line feed |
| SharedValidation.ValidIdAsWrittenAcceptsTrailingNewline | src/core/Nuntius.Core/Common/Entities/SharedValidation.cs:11 | the as-written rule accepts "sender1\n", which is not a well-formed id |
| SharedValidation.ValidId | src/core/Nuntius.Core/Common/Entities/SharedValidation.cs:7-11 | accepts exactly the ids of 1 to 50 characters from `[a-zA-Z0-9_-]`; a rejection is one error for the field's context |
| SharedValidation.RejectedIds | test/Nuntios.Core.Test/Fetching/Entities/DataFetcherTests.cs:35-39 | null, empty, "invalid@id", "id with spaces" and a 72-character id of allowed characters are rejected; "fetcher1" is accepted |
| SharedValidation.ToUpperKeepsValidId | src/core/Nuntius.Core/Delivery/Entities/Sender.cs:20 | an upper-cased valid EngineId is still a valid id |
| Element.NewElementIsUpdatable | src/core/Nuntius.Core/Common/Entities/Element.cs:9 | a new element's status (`InitialStatus`) is Enabled: it passes the update guard, can be disabled or archived, and Enable on it reports CANNOT_CHANGE_STATUS |
| Element.ValidateEnable | src/core/Nuntius.Core/Common/Entities/ElementValidation.cs:8-11 | passes exactly for Enabled; otherwise the only error is ("Status", ELEMENT_NOT_ENABLED) |
| Element.ValidateStatus | src/core/Nuntius.Core/Common/Entities/ElementValidation.cs:13-17 | passes iff new ≠ current and current ≠ Archived; CANNOT_CHANGE_STATUS iff new = current, CANNOT_CHANGE_FROM_ARCHIVED iff current is Archived, both together for Archived → Archived |
| Element.Enable | src/core/Nuntius.Core/Common/Entities/Element.cs:20-22 | succeeds exactly from Disabled and then yields Enabled; otherwise the status is unchanged; re-enabling reports CANNOT_CHANGE_STATUS |
| Element.Disable | src/core/Nuntius.Core/Common/Entities/Element.cs:24-26 | succeeds exactly from Enabled and then yields Disabled; otherwise unchanged |
| Element.Archive | src/core/Nuntius.Core/Common/Entities/Element.cs:28-30 | succeeds from Enabled or Disabled and yields Archived; from Archived it reports CANNOT_CHANGE_FROM_ARCHIVED and changes nothing |
| Element.ApplySpec | src/core/Nuntius.Core/Common/Entities/Element.cs:20-30 | each status operation succeeds exactly when the target differs from the current status and the current status is not Archived; success moves to the target, failure keeps the status |
| Element.ArchivedIsAbsorbing | src/core/Nuntius.Core/Common/Entities/Element.cs:28-30 | from Archived, every sequence of status operations leaves the element Archived |
| Element.ArchiveIsFinal | src/core/Nuntius.Core/Common/Entities/Element.cs:28-30 | once an Archive succeeds within a run, the element is Archived at the end of the run |
| Element.DisableTwiceFails | src/core/Nuntius.Core/Common/Entities/Element.cs:24-26 | a second consecutive Disable fails with CANNOT_CHANGE_STATUS |
| Element.ArchiveThenEnableFails | src/core/Nuntius.Core/Common/Entities/Element.cs:20-30 | enabling an archived element fails with CANNOT_CHANGE_FROM_ARCHIVED |
| Entity.Construct | src/core/Nuntius.Core/Common/Entities/Entity.cs:10-11 | a null id throws ArgumentNullException for "id"; otherwise the entity carries the given id |
| Entity.HashInputs | src/core/Nuntius.Core/Common/Entities/Entity.cs:16-17 | the hash code combines the runtime type and the Id |
| Entity.EqualsAsWritten | src/core/Nuntius.Core/Common/Entities/Entity.cs:19-24 | false against null; otherwise true exactly when the Ids are equal, whatever the runtime types |
| Entity.EqualsAsWrittenIgnoresType | src/core/Nuntius.Core/Common/Entities/Entity.cs:13-24 | as written, a Sender and a Template with the same id are equal although their hash inputs differ |
| Entity.EqualsAsWrittenLaws | src/core/Nuntius.Core/Common/Entities/Entity.cs:19-24 | as written, `Equals` is exactly equality of ids, false against null, symmetric and transitive |
| Entity.EqualsLaws | src/core/Nuntius.Core/Common/Entities/Entity.cs:16-24 | corrected equality: equal entities hash alike, never equal null, equivalence relation, agrees with the as-written one for entities of one type |
| Entity.OpEquals | src/core/Nuntius.Core/Common/Entities/Entity.cs:26-31 | `==` is true for two nulls, false when exactly one side is null, and otherwise true exactly when the Ids are equal |
| Entity.OpNotEquals | src/core/Nuntius.Core/Common/Entities/Entity.cs:33-34 | `!=` is true exactly when one side is null and the other is not, or both are entities with different Ids |
| Entity.OpEqualsLaws | src/core/Nuntius.Core/Common/Entities/Entity.cs:26-34 | `==` agrees with `Equals` for a non-null left side, is an equivalence on possibly-null entities, `!=` is its negation, and a Sender and a Template with one Id compare equal |
| Senders.Validate | src/core/Nuntius.Core/Delivery/Entities/SenderValidations.cs:12-23 | passes iff id and engineId are valid ids, name is present and at most 100 characters, settings is present JSON and messageType is present; the failing fields are exactly the contexts reported |
| Senders.InvalidSettingsReported | src/core/Nuntius.Core/Delivery/Entities/SenderValidations.cs:17-21 | the validation reports ("settings", INVALID_PAYLOAD) exactly when settings is present, non-empty text that does not parse as JSON |
| Senders.Create | src/core/Nuntius.Core/Delivery/Entities/Sender.cs:19-26 | a sender exists exactly when validation passes, otherwise the validation errors are returned; Name and EngineId upper-cased, Id, Settings and MessageType kept, status Enabled; the result satisfies the sender invariant |
| Senders.Update | src/core/Nuntius.Core/Delivery/Entities/Sender.cs:30-33 | a non-Enabled sender is refused with exactly ("Status", ELEMENT_NOT_ENABLED); otherwise it is re-validated with its own Id and MessageType; success sets Name, EngineId (upper-cased) and Settings only; failure changes nothing; the invariant is kept |
| Senders.UpdateWithCurrentValues | src/core/Nuntius.Core/Delivery/Entities/Sender.cs:30-33 | updating an enabled valid sender with the values it holds succeeds and changes nothing |
| Senders.UpdateAfterDisableFails | src/core/Nuntius.Core/Delivery/Entities/Sender.cs:31 | after Disable, any Update fails with a "Status" error and leaves the sender as it was |
| SettingsElements.Validate | src/core/Nuntius.Core/Fetching/Entities/DataFetcherValidations.cs:12-22 | DataFetcher and Renderer validation: passes iff id and engineId are valid ids, name is present and at most 200 characters, settings is present JSON; there is no MessageType check; the failing fields are exactly the contexts reported |
| SettingsElements.InvalidSettingsReported | src/core/Nuntius.Core/Fetching/Entities/DataFetcherValidations.cs:17-21 | the validation reports ("settings", INVALID_PAYLOAD) exactly when settings is present, non-empty text that does not parse as JSON |
| SettingsElements.Create | src/core/Nuntius.Core/Fetching/Entities/DataFetcher.cs:17-24 | an element exists exactly when validation passes; Name kept verbatim, EngineId upper-cased, Settings kept, status Enabled; the result satisfies the invariant |
| SettingsElements.Update | src/core/Nuntius.Core/Fetching/Entities/DataFetcher.cs:28-31 | a non-Enabled element is refused on "Status"; otherwise re-validated with its own Id; success sets Name, EngineId (upper-cased) and Settings only; failure changes nothing |
| SettingsElements.UpdateWithCurrentValues | Nuntius/src/core/Nuntius.Core/Fetching/Entities/DataFetcher.cs:29-32 | updating an enabled valid renderer or fetcher with the values it holds succeeds and changes nothing |
| SettingsElements.NameTooLong | src/core/Nuntius.Core/Rendering/Entities/RendererValidations.cs:15 | a 201-character name with otherwise valid fields fails with the single error ("name", STRING_LENGTH) |
| Templates.Validate | src/core/Nuntius.Core/Templates/Entities/TemplateValidations.cs:11-22 | passes iff id and engineId are valid ids, name and subject are present and at most 100 characters, the context is present with a language of 1 to 2 characters and a scope of at most 50 if any, content is present and messageType is present; the failing fields are exactly the contexts reported |
| Templates.Create | src/core/Nuntius.Core/Templates/Entities/Template.cs:21-30 | a template exists exactly when validation passes; Name and EngineId upper-cased, Context, Subject, Content and MessageType kept, status Enabled; the result satisfies the invariant |
| Templates.Update | src/core/Nuntius.Core/Templates/Entities/Template.cs:34-37 | a non-Enabled template is refused on "Status"; otherwise re-validated with its own Id, Name, Context and MessageType; success changes only EngineId (upper-cased), Subject and Content; failure changes nothing |
| Templates.UpdateOfValidTemplate | src/core/Nuntius.Core/Templates/Entities/Template.cs:34-37 | for an enabled valid template, Update succeeds exactly when the new engine id, subject and content are valid |
| Templates.UpdateWithCurrentValues | src/core/Nuntius.Core/Templates/Entities/Template.cs:36-37 | updating an enabled valid template with its own values succeeds and changes nothing |
| Templates.MissingContextReportsLanguage | src/core/Nuntius.Core/Templates/Entities/TemplateValidations.cs:16-17 | a null context is reported under "context" and also under "context.Language" |
| Templates.SubjectTooLong | src/core/Nuntius.Core/Templates/Entities/Template.cs:34-37 | an update with a 101-character subject fails and leaves the template unchanged |
| MessageValidation.ValidatePresent | src/core/Nuntius.Core/Messages/Entities/MessageValidationExtensions.cs:11-13 | builder, template and sender are only checked for presence: one REQUIRED error iff null |
| MessageValidation.ValidateFrom | src/core/Nuntius.Core/Messages/Entities/MessageValidationExtensions.cs:14 | passes exactly for a present From of at most 150 characters |
| MessageValidation.ValidateRecipients | src/core/Nuntius.Core/Messages/Entities/MessageValidationExtensions.cs:15-26 | null recipients give exactly one REQUIRED error and no sub-field errors; otherwise Recipients.To (present, ≤150), Recipients.Cc and Recipients.Bcc (non-null, every entry ≤150) are reported exactly when they fail, with CC_NOT_VALID / BCC_NOT_VALID |
| MessageValidation.ValidatePayload | src/core/Nuntius.Core/Messages/Entities/MessageValidationExtensions.cs:27-31 | passes exactly for present JSON; INVALID_PAYLOAD exactly for present text that does not parse |
| MessageValidation.ValidateGeneratedMessage | src/core/Nuntius.Core/Messages/Entities/MessageValidationExtensions.cs:32-42 | null gives exactly one REQUIRED error; otherwise GeneratedMessage.Subject (present, ≤100) and GeneratedMessage.Content (present) are reported exactly when they fail |
| MessageValidation.EmptyCopyListsPass | src/core/Nuntius.Core/Messages/Entities/MessageValidationExtensions.cs:22-23 | empty Cc and Bcc arrays pass; a null Cc does not |
| MessageValidation.MissingRecipientsReportOnlyThemselves | src/core/Nuntius.Core/Messages/Entities/MessageValidationExtensions.cs:17-18 | null recipients are reported under their own context only |
| Messages.ValidateCreate | src/core/Nuntius.Core/Messages/Message.cs:52-59 | the checks of Create pass exactly when builder, template and sender are present and from, recipients and header are valid; the contexts reported are exactly those of the failing checks |
| Messages.Create | src/core/Nuntius.Core/Messages/Message.cs:50-67 | a message exists exactly when the checks pass; it is New with 0 retries, the three element ids, payload mode "FromBuilder" with the header and no body, created now, no other timestamp; it satisfies the message invariant |
| Messages.ValidateCreateAfterBuild | src/core/Nuntius.Core/Messages/Message.cs:70-77 | the checks of CreateAfterBuild pass exactly when template and sender are present and from, recipients and body are valid |
| Messages.CreateAfterBuild | src/core/Nuntius.Core/Messages/Message.cs:69-89 | the message is Built, has no builder code, payload mode "FromTemplate" with header "{}" and the body, and is compiled now; it satisfies the invariant |
| Messages.ValidateCreateAfterRender | src/core/Nuntius.Core/Messages/Message.cs:92-98 | the checks of CreateAfterRender pass exactly when sender is present and from, recipients and the rendered message are valid |
| Messages.CreateAfterRender | src/core/Nuntius.Core/Messages/Message.cs:91-112 | the message is Rendered with no builder or template code, mode "FromRenderedMessage" with header and body "{}", the given rendered message, compiled and generated now; it satisfies the invariant |
| Messages.SetAsBuilt | src/core/Nuntius.Core/Messages/Message.cs:117-129 | succeeds iff the message is New and the body is present JSON; MESSAGE_ALREADY_COMPILED iff not New; success adds the body keeping mode and header, sets Built and CompiledOn; failure changes nothing; the invariant is kept |
| Messages.SetAsRendered | src/core/Nuntius.Core/Messages/Message.cs:131-142 | succeeds iff the message is Built and the rendered message is valid; MESSAGE_NOT_COMPILED iff not Built; success stores it, sets Rendered and GeneratedOn; failure changes nothing |
| Messages.MarkRetryFailure | src/core/Nuntius.Core/Messages/Message.cs:145-155 | succeeds iff the status is Rendered or Fault and Retries ≤ 3; MESSAGE_NOT_SENDABLE and MESSAGE_RETRIES_EXCEEDED exactly for the failing condition; success sets Fault and Retries + 1; failure changes nothing |
| Messages.SetAsSent | src/core/Nuntius.Core/Messages/Message.cs:157-167 | succeeds iff the status is Rendered or Fault, otherwise the single error ("Status", MESSAGE_NOT_SENDABLE); success sets Sent, Retries 0 and SentOn |
| Messages.RunPreservesValid | src/core/Nuntius.Core/Messages/Message.cs:117-167 | every sequence of transitions, failed ones included, keeps the message invariant |
| Messages.NeverGoesBack | src/core/Nuntius.Core/Messages/Message.cs:117-167 | no transition moves a message back along New, Built, Rendered, Fault, Sent |
| Messages.RunNeverGoesBack | src/core/Nuntius.Core/Messages/Message.cs:117-167 | along any run the status only moves forward |
| Messages.RetryCeiling | src/core/Nuntius.Core/Messages/Message.cs:145-155 | from Rendered with 0 retries, four failures are recorded (Retries reaches 4), and the fifth fails with MESSAGE_RETRIES_EXCEEDED only and changes nothing |
| Messages.RetriesNeverExceedFour | src/core/Nuntius.Core/Messages/Message.cs:149 | along any run from a valid message, Retries stays at most 4 |
| Messages.SentIsTerminal | src/core/Nuntius.Core/Messages/Message.cs:157-167 | every transition on a Sent message fails and changes nothing; sending again reports MESSAGE_NOT_SENDABLE |
| Messages.SentStaysSent | src/core/Nuntius.Core/Messages/Message.cs:117-167 | a sent message is unchanged by any sequence of transitions |
| Messages.SendingAfterFaultClearsRetries | src/core/Nuntius.Core/Messages/Message.cs:157-167 | a faulted message (which has retries) can be sent, and then has 0 retries |
| Messages.RenderBeforeBuildFails | src/core/Nuntius.Core/Messages/Message.cs:131-142 | rendering a New message fails with MESSAGE_NOT_COMPILED and changes nothing |
| Messages.TimestampsSetOnce | src/core/Nuntius.Core/Messages/Message.cs:117-167 | on a valid message, no transition changes a CompiledOn, GeneratedOn or SentOn that is already set |
| Messages.FaultIsEndStatusYetLive | src/core/Nuntius.Core/Messages/MessageStatus.cs:32 | Fault counts as an end status, yet a faulted message under the ceiling still accepts MarkRetryFailure and SetAsSent |
| Messages.RunKeepsModeAndHeader | src/core/Nuntius.Core/Messages/Message.cs:117-129 | the payload mode and header never change after creation |
| EngineFactory.Register | src/core/Nuntius.Core/Engines/EngineFactory.cs:17-28 | the `foreach`/`TryAdd` loop keeps every existing entry, registers every listed id, and adds no id that is neither existing nor listed |
| EngineFactory.TryAdd | src/core/Nuntius.Core/Engines/EngineFactory.cs:19 | `TryAdd` keeps an existing entry and adds a new id |
| EngineFactory.RegisterSpec | src/core/Nuntius.Core/Engines/EngineFactory.cs:17-28 | registering a list keeps existing entries and adds each new id with its first engine |
| EngineFactory.FirstRegistrationWins | src/core/Nuntius.Core/Engines/EngineFactory.cs:17-28 | a registry built from a list holds exactly the listed ids, each mapped to its first engine |
| EngineFactory.New | src/core/Nuntius.Core/Engines/EngineFactory.cs:12-29 | a null argument throws ArgumentNullException naming the first null one among builderEngines, renderEngines, senderEngines; otherwise each list fills its own registry |
| EngineFactory.GetEngine | src/core/Nuntius.Core/Engines/EngineFactory.cs:33-46 | returns the registered engine, or the error naming the missing id |
| EngineFactory.TryGetEngine | src/core/Nuntius.Core/Engines/EngineFactory.cs:36-49 | the flag is set exactly when the id is registered, and then the engine is the registered one |
| EngineFactory.TryGetAgreesWithGet | src/core/Nuntius.Core/Engines/EngineFactory.cs:33-49 | `TryGet` succeeds exactly when `Get` would, yielding the same engine |
| EngineFactory.LookupAfterConstruction | src/core/Nuntius.Core/Engines/EngineFactory.cs:12-49 | after construction an id of a kind resolves exactly when an engine of that kind was supplied under it, to the first such engine |
| EngineFactory.KindsAreIndependent | src/core/Nuntius.Core/Engines/EngineFactory.cs:6-8 | a data fetcher engine id is not found by the render or sender lookups |
| EngineFactory.DuplicateIdKeepsFirst | src/core/Nuntius.Core/Engines/EngineFactory.cs:17-20 | of two engines with one id, the first registered is returned |
| EngineFactory.LookupIsCaseSensitive | src/core/Nuntius.Core/Engines/EngineFactory.cs:33-34 | an engine registered as "SQL" is found as "SQL" and not as "sql" |

## Left out

- Validation library internals. The codes of the library's own checks are
  placeholders: "REQUIRED", "STRING_LENGTH" and "STRING_MATCH". The order of
  errors within one field is not modelled.
- `Required` on a string is modelled as "non-null and non-empty". Whether the
  library also rejects whitespace-only strings is not visible in this source.
- JSON parsing is the uninterpreted predicate `IsJson`.
  - `JsonNode` re-serializes the header and body when it builds the payload.
    That whitespace normalisation is not modelled; the payload keeps the
    texts as given.
  - The `PayloadHeader` and `PayloadBody` accessors are not modelled.
- Culture-sensitive `ToUpper` is modelled as ASCII upper-casing.
- The regular-expression engine is replaced by a character-class predicate.
  The one place where .NET's `$` matters is a finding below.
- Senders.Validate, SettingsElements.Validate and Templates.Validate use the
  corrected `ValidId`. They reject an id or engine id that ends in one line
  feed, such as "s1\n", which the source accepts. That difference is the
  first finding below.
- `DateTime.UtcNow` becomes a `now` parameter. Clock values carry no ordering
  invariant.
- The database-assigned `Message.Id` is always 0, the default a new entity has
  before it is saved.
- Parameterless ORM constructors are not modelled. They exist only for
  materialisation from the database.
- `MessageType` arguments of the message factories are taken as non-null. The
  source does not check them.
- Engines in the constructor's lists, their Ids and the `engineId` passed to
  a lookup are taken as non-null. In the source, a null engine throws
  `NullReferenceException` when its Id is read. A null Id, or a null lookup
  id, makes the dictionary throw `ArgumentNullException`.
- Entries of the Cc and Bcc arrays are taken as non-null. A null entry would
  make the source's length check throw `NullReferenceException`.
- `TemplateContext.Language` is declared non-nullable but is modelled as
  optional, since C# does not enforce that at run time.
- `Message.cs` imports the pre-refactor `Fetching` namespace for its `builder`
  argument. The model passes the current `Fetching.Entities` element,
  restricted to the DataFetcher kind (`SettingsElements.DataFetcher`), since
  only its Id is read.
- Engines are reduced to an id and an identity handle. What they do
  (fetching, rendering, sending) is not part of this model.
- The following are not part of this model:
  - the EF Core storage project;
  - the store and engine interfaces;
  - `MessageAttachment`, which has no behaviour;
  - the superseded pre-refactor copies under `Delivery/` and `Fetching/`,
    outside `Entities/`.
- Some tests are stale. `TemplateTests.cs` expects the contexts
  "Context.Language" and "engineName". The model follows the source, which
  reports "context.Language" and "engineId".
- Templates.MissingContextReportsLanguage: states that the "context" and
  "context.Language" errors are present. It does not state that
  "context.Scope" is absent; that follows from `Templates.Validate`'s context
  equation.

## Findings

| source | as written | input that shows it | evidently intended | confidence | as-written member | corrected member |
|---|---|---|---|---|---|---|
| src/core/Nuntius.Core/Common/Entities/SharedValidation.cs:11 | `StringMatch("^[a-zA-Z0-9_-]{1,50}$")`. Without `RegexOptions.Multiline`, .NET's `$` also matches just before a final line feed. | `"sender1\n"`: 8 characters, within `StringLength(50)`, so it is accepted | only ids made of `[a-zA-Z0-9_-]` (anchor `\z`) | high, not executed | SharedValidation.ValidIdAsWrittenAcceptsTrailingNewline | SharedValidation.ValidId |
| src/core/Nuntius.Core/Common/Entities/Entity.cs:13-24 | `Equals` compares only Ids and accepts any `Entity<TKey>`, while `GetHashCode` combines `GetType()` and Id; `==` and `!=` inherit this | a Sender and a Template, both with Id "x": equal, but with different hash inputs | equality that agrees with the hash code, comparing the runtime type as well | medium, not executed | Entity.EqualsAsWrittenIgnoresType | Entity.EqualsLaws |
