/** `Message`: one notification on its way from data to delivery. It enters
    the state machine New -> Built -> Rendered -> Sent/Fault at one of three
    points and moves on through four guarded transitions; a transition that
    fails changes nothing. */
module Messages {
  import opened Options
  import opened Text
  import opened Validation
  import opened MessageRecords
  import opened MessageValidation
  import opened MessageStatuses
  import opened MessageTypes
  import opened CreationModes
  import SettingsElements
  import Templates
  import Senders

  const MESSAGE_ALREADY_COMPILED := "MESSAGE_ALREADY_COMPILED"
  const MESSAGE_NOT_COMPILED := "MESSAGE_NOT_COMPILED"
  const MESSAGE_NOT_SENDABLE := "MESSAGE_NOT_SENDABLE"
  const MESSAGE_RETRIES_EXCEEDED := "MESSAGE_RETRIES_EXCEEDED"

  /** The largest retry count at which another failure may still be recorded. */
  const MAX_RETRIES := 3

  /** The JSON object every payload starts from. */
  const EMPTY_OBJECT := "{}"

  /** A point in time, as given by the caller's clock. */
  type Timestamp = int

  /** The payload document `{ "mode": ..., "header": ..., "body": ... }`,
      with the header and body kept as JSON texts. */
  datatype Payload = Payload(mode: string, header: string, body: Option<string>)

  datatype Message = Message(
    id: int,
    builderCode: Option<string>,
    templateCode: Option<string>,
    senderCode: string,
    from: string,
    recipients: MessageRecipients,
    payload: Payload,
    rendered: Option<RenderedMessage>,
    messageType: MessageType,
    status: MessageStatus,
    createdOn: Timestamp,
    compiledOn: Option<Timestamp>,
    generatedOn: Option<Timestamp>,
    sentOn: Option<Timestamp>,
    retries: int)

  /** The statuses `MarkRetryFailure` and `SetAsSent` accept. */
  predicate Sendable(s: MessageStatus) {
    s == Rendered || s == Fault
  }

  /** The statuses reached only once a rendered message exists. */
  predicate HasBeenRendered(s: MessageStatus) {
    s == Rendered || s == Sent || s == Fault
  }

  /** What every message built by a factory satisfies and every transition
      keeps: the validated fields stay valid, the retry counter is within its
      ceiling and non-zero only in Fault, and each timestamp, the body and the
      rendered message are present exactly in the statuses that set them. */
  predicate Valid(m: Message) {
    && PresentWithin(Some(m.from), 150)
    && RecipientsOk(Some(m.recipients))
    && (m.payload.mode == FromBuilder.Name() || m.payload.mode == FromTemplate.Name()
        || m.payload.mode == FromRenderedMessage.Name())
    && IsJson(m.payload.header)
    && (m.payload.body.Some? <==> m.status != New)
    && (m.payload.body.Some? ==> IsJson(m.payload.body.value))
    && 0 <= m.retries <= MAX_RETRIES + 1
    && (m.retries > 0 <==> m.status == Fault)
    && (m.compiledOn.Some? <==> m.status != New)
    && (m.generatedOn.Some? <==> HasBeenRendered(m.status))
    && (m.rendered.Some? <==> HasBeenRendered(m.status))
    && (m.rendered.Some? ==> RenderedOk(m.rendered))
    && (m.sentOn.Some? <==> m.status == Sent)
  }

  /** The checks of `Message.Create`, in the order it makes them. */
  function ValidateCreate(builder: Option<SettingsElements.DataFetcher>, template: Option<Templates.Template>,
                          sender: Option<Senders.Sender>, from: Option<string>,
                          recipients: Option<MessageRecipients>, headerPayload: Option<string>): (r: Outcome)
    ensures r.Ok? <==> builder.Some? && template.Some? && sender.Some? && PresentWithin(from, 150)
                       && RecipientsOk(recipients) && JsonPresent(headerPayload)
    ensures r.Contexts() == ErrorUnless(builder.Some?, "builder") + ErrorUnless(template.Some?, "template")
                          + ErrorUnless(sender.Some?, "sender") + ErrorUnless(PresentWithin(from, 150), "from")
                          + ValidateRecipients("recipients", recipients).Contexts()
                          + ErrorUnless(JsonPresent(headerPayload), "headerPayload")
  {
    ValidatePresent("builder", builder)
      .And(ValidatePresent("template", template))
      .And(ValidatePresent("sender", sender))
      .And(ValidateFrom("from", from))
      .And(ValidateRecipients("recipients", recipients))
      .And(ValidatePayload("headerPayload", headerPayload))
  }

  /** The message `Message.Create` builds from checked arguments. */
  function Unbuilt(builderId: string, templateId: string, senderId: string, from: string,
                   recipients: MessageRecipients, messageType: MessageType, header: string,
                   now: Timestamp): (m: Message)
    requires PresentWithin(Some(from), 150) && RecipientsOk(Some(recipients)) && IsJson(header)
    ensures Valid(m)
  {
    Message(0, Some(builderId), Some(templateId), senderId, from, recipients,
            Payload(FromBuilder.Name(), header, None), None, messageType, New, now, None, None, None, 0)
  }

  /** `Message.Create`: a message that still has to be built. It records the
      three element ids and a payload in mode "FromBuilder" holding only the
      header. */
  function Create(builder: Option<SettingsElements.DataFetcher>, template: Option<Templates.Template>,
                  sender: Option<Senders.Sender>, from: Option<string>,
                  recipients: Option<MessageRecipients>, messageType: MessageType,
                  headerPayload: Option<string>, now: Timestamp): (r: Result<Message>)
    ensures r.Success? <==> builder.Some? && template.Some? && sender.Some? && PresentWithin(from, 150)
                            && RecipientsOk(recipients) && JsonPresent(headerPayload)
    ensures r.Failure? ==> r.errors == ValidateCreate(builder, template, sender, from, recipients, headerPayload).Errors()
    ensures r.Success? ==> && r.value.status == New && r.value.retries == 0
                           && r.value.builderCode == Some(builder.value.id)
                           && r.value.templateCode == Some(template.value.id)
                           && r.value.senderCode == sender.value.id
                           && r.value.from == from.value && r.value.recipients == recipients.value
                           && r.value.messageType == messageType
                           && r.value.payload == Payload(FromBuilder.Name(), headerPayload.value, None)
                           && r.value.createdOn == now
                           && r.value.compiledOn.None? && r.value.generatedOn.None? && r.value.sentOn.None?
                           && r.value.rendered.None?
    ensures r.Success? ==> Valid(r.value)
  {
    var o := ValidateCreate(builder, template, sender, from, recipients, headerPayload);
    if o.Ok? then
      Success(Unbuilt(builder.value.id, template.value.id, sender.value.id, from.value, recipients.value,
                      messageType, headerPayload.value, now))
    else Failure(o.Errors())
  }

  /** The checks of `Message.CreateAfterBuild`, in the order it makes them. */
  function ValidateCreateAfterBuild(template: Option<Templates.Template>, sender: Option<Senders.Sender>,
                                    from: Option<string>, recipients: Option<MessageRecipients>,
                                    bodyPayload: Option<string>): (r: Outcome)
    ensures r.Ok? <==> template.Some? && sender.Some? && PresentWithin(from, 150)
                       && RecipientsOk(recipients) && JsonPresent(bodyPayload)
    ensures r.Contexts() == ErrorUnless(template.Some?, "template") + ErrorUnless(sender.Some?, "sender")
                          + ErrorUnless(PresentWithin(from, 150), "from")
                          + ValidateRecipients("recipients", recipients).Contexts()
                          + ErrorUnless(JsonPresent(bodyPayload), "bodyPayload")
  {
    ValidatePresent("template", template)
      .And(ValidatePresent("sender", sender))
      .And(ValidateFrom("from", from))
      .And(ValidateRecipients("recipients", recipients))
      .And(ValidatePayload("bodyPayload", bodyPayload))
  }

  /** `Message.CreateAfterBuild`: a message whose body is already known. It
      starts Built, with no builder, an empty header and the given body in
      mode "FromTemplate", compiled now. */
  function CreateAfterBuild(template: Option<Templates.Template>, sender: Option<Senders.Sender>,
                            from: Option<string>, recipients: Option<MessageRecipients>,
                            messageType: MessageType, bodyPayload: Option<string>, now: Timestamp): (r: Result<Message>)
    ensures r.Success? <==> template.Some? && sender.Some? && PresentWithin(from, 150)
                            && RecipientsOk(recipients) && JsonPresent(bodyPayload)
    ensures r.Failure? ==> r.errors == ValidateCreateAfterBuild(template, sender, from, recipients, bodyPayload).Errors()
    ensures r.Success? ==> && r.value.status == Built && r.value.retries == 0
                           && r.value.builderCode.None?
                           && r.value.templateCode == Some(template.value.id)
                           && r.value.senderCode == sender.value.id
                           && r.value.from == from.value && r.value.recipients == recipients.value
                           && r.value.messageType == messageType
                           && r.value.payload == Payload(FromTemplate.Name(), EMPTY_OBJECT, Some(bodyPayload.value))
                           && r.value.createdOn == now && r.value.compiledOn == Some(now)
                           && r.value.generatedOn.None? && r.value.sentOn.None? && r.value.rendered.None?
    ensures r.Success? ==> Valid(r.value)
  {
    var o := ValidateCreateAfterBuild(template, sender, from, recipients, bodyPayload);
    if o.Ok? then
      Success(Message(0, None, Some(template.value.id), sender.value.id, from.value, recipients.value,
                      Payload(FromTemplate.Name(), EMPTY_OBJECT, Some(bodyPayload.value)), None,
                      messageType, Built, now, Some(now), None, None, 0))
    else Failure(o.Errors())
  }

  /** The checks of `Message.CreateAfterRender`, in the order it makes them. */
  function ValidateCreateAfterRender(sender: Option<Senders.Sender>, from: Option<string>,
                                     recipients: Option<MessageRecipients>,
                                     renderedMessage: Option<RenderedMessage>): (r: Outcome)
    ensures r.Ok? <==> sender.Some? && PresentWithin(from, 150) && RecipientsOk(recipients)
                       && RenderedOk(renderedMessage)
    ensures r.Contexts() == ErrorUnless(sender.Some?, "sender") + ErrorUnless(PresentWithin(from, 150), "from")
                          + ValidateRecipients("recipients", recipients).Contexts()
                          + ValidateGeneratedMessage("renderedMessage", renderedMessage).Contexts()
  {
    ValidatePresent("sender", sender)
      .And(ValidateFrom("from", from))
      .And(ValidateRecipients("recipients", recipients))
      .And(ValidateGeneratedMessage("renderedMessage", renderedMessage))
  }

  /** `Message.CreateAfterRender`: a message that is ready to send. It starts
      Rendered, with neither builder nor template, empty header and body in
      mode "FromRenderedMessage", the given rendered message, and compiled and
      generated now. */
  function CreateAfterRender(sender: Option<Senders.Sender>, from: Option<string>,
                             recipients: Option<MessageRecipients>, messageType: MessageType,
                             renderedMessage: Option<RenderedMessage>, now: Timestamp): (r: Result<Message>)
    ensures r.Success? <==> sender.Some? && PresentWithin(from, 150) && RecipientsOk(recipients)
                            && RenderedOk(renderedMessage)
    ensures r.Failure? ==> r.errors == ValidateCreateAfterRender(sender, from, recipients, renderedMessage).Errors()
    ensures r.Success? ==> && r.value.status == Rendered && r.value.retries == 0
                           && r.value.builderCode.None? && r.value.templateCode.None?
                           && r.value.senderCode == sender.value.id
                           && r.value.from == from.value && r.value.recipients == recipients.value
                           && r.value.messageType == messageType
                           && r.value.payload == Payload(FromRenderedMessage.Name(), EMPTY_OBJECT, Some(EMPTY_OBJECT))
                           && r.value.rendered == renderedMessage
                           && r.value.createdOn == now && r.value.compiledOn == Some(now)
                           && r.value.generatedOn == Some(now) && r.value.sentOn.None?
    ensures r.Success? ==> Valid(r.value)
  {
    var o := ValidateCreateAfterRender(sender, from, recipients, renderedMessage);
    if o.Ok? then
      Success(Message(0, None, None, sender.value.id, from.value, recipients.value,
                      Payload(FromRenderedMessage.Name(), EMPTY_OBJECT, Some(EMPTY_OBJECT)), renderedMessage,
                      messageType, Rendered, now, Some(now), Some(now), None, 0))
    else Failure(o.Errors())
  }

  /** `SetAsBuilt`: only a New message takes a body, and only a JSON one; the
      body is added to the payload, mode and header are kept, and the message
      becomes Built, compiled now. */
  function SetAsBuilt(m: Message, bodyPayload: Option<string>, now: Timestamp): (r: Applied<Message>)
    ensures r.outcome.Ok? <==> JsonPresent(bodyPayload) && m.status == New
    ensures r.outcome.Contexts() == ErrorUnless(JsonPresent(bodyPayload), "bodyPayload")
                                  + ErrorUnless(m.status == New, "Status")
    ensures r.outcome.HasError("Status", MESSAGE_ALREADY_COMPILED) <==> m.status != New
    ensures r.outcome.Ok? ==> r.state == m.(payload := m.payload.(body := Some(bodyPayload.value)),
                                           status := Built, compiledOn := Some(now))
    ensures r.outcome.Fail? ==> r.state == m
    ensures Valid(m) ==> Valid(r.state)
  {
    var status := Check("Status", m.status == New, MESSAGE_ALREADY_COMPILED);
    var o := ValidatePayload("bodyPayload", bodyPayload).And(status);
    assert FieldError("Status", MESSAGE_ALREADY_COMPILED) !in ValidatePayload("bodyPayload", bodyPayload).Errors();
    if o.Ok? then
      Applied(o, m.(payload := m.payload.(body := Some(bodyPayload.value)), status := Built, compiledOn := Some(now)))
    else Applied(o, m)
  }

  /** `SetAsRendered`: only a Built message takes a rendered message, and only
      a valid one; it becomes Rendered, generated now. */
  function SetAsRendered(m: Message, renderedMessage: Option<RenderedMessage>, now: Timestamp): (r: Applied<Message>)
    ensures r.outcome.Ok? <==> RenderedOk(renderedMessage) && m.status == Built
    ensures r.outcome.Contexts() == ValidateGeneratedMessage("renderedMessage", renderedMessage).Contexts()
                                  + ErrorUnless(m.status == Built, "Status")
    ensures r.outcome.HasError("Status", MESSAGE_NOT_COMPILED) <==> m.status != Built
    ensures r.outcome.Ok? ==> r.state == m.(rendered := renderedMessage, status := Rendered,
                                           generatedOn := Some(now))
    ensures r.outcome.Fail? ==> r.state == m
    ensures Valid(m) ==> Valid(r.state)
  {
    var status := Check("Status", m.status == Built, MESSAGE_NOT_COMPILED);
    var o := ValidateGeneratedMessage("renderedMessage", renderedMessage).And(status);
    assert FieldError("Status", MESSAGE_NOT_COMPILED) !in ValidateGeneratedMessage("renderedMessage", renderedMessage).Errors();
    if o.Ok? then
      Applied(o, m.(rendered := renderedMessage, status := Rendered, generatedOn := Some(now)))
    else Applied(o, m)
  }

  /** `MarkRetryFailure`: a Rendered or Fault message that has been retried at
      most three times becomes Fault with one more retry. */
  function MarkRetryFailure(m: Message): (r: Applied<Message>)
    ensures r.outcome.Ok? <==> Sendable(m.status) && m.retries <= MAX_RETRIES
    ensures r.outcome.Contexts() == ErrorUnless(Sendable(m.status), "Status")
                                  + ErrorUnless(m.retries <= MAX_RETRIES, "Retries")
    ensures r.outcome.HasError("Status", MESSAGE_NOT_SENDABLE) <==> !Sendable(m.status)
    ensures r.outcome.HasError("Retries", MESSAGE_RETRIES_EXCEEDED) <==> m.retries > MAX_RETRIES
    ensures r.outcome.Ok? ==> r.state == m.(status := Fault, retries := m.retries + 1)
    ensures r.outcome.Fail? ==> r.state == m
    ensures Valid(m) ==> Valid(r.state)
  {
    var o := Check("Status", Sendable(m.status), MESSAGE_NOT_SENDABLE)
               .And(Check("Retries", m.retries <= MAX_RETRIES, MESSAGE_RETRIES_EXCEEDED));
    if o.Ok? then Applied(o, m.(status := Fault, retries := m.retries + 1))
    else Applied(o, m)
  }

  /** `SetAsSent`: a Rendered or Fault message becomes Sent, sent now, with
      its retry counter cleared. */
  function SetAsSent(m: Message, now: Timestamp): (r: Applied<Message>)
    ensures r.outcome.Ok? <==> Sendable(m.status)
    ensures r.outcome.Fail? ==> r.outcome.errors == [FieldError("Status", MESSAGE_NOT_SENDABLE)]
    ensures r.outcome.Ok? ==> r.state == m.(retries := 0, status := Sent, sentOn := Some(now))
    ensures r.outcome.Fail? ==> r.state == m
    ensures Valid(m) ==> Valid(r.state)
  {
    var o := Check("Status", Sendable(m.status), MESSAGE_NOT_SENDABLE);
    if o.Ok? then Applied(o, m.(retries := 0, status := Sent, sentOn := Some(now)))
    else Applied(o, m)
  }

  /** One call of a transition, with its arguments. */
  datatype Transition =
    | BuildWith(bodyPayload: Option<string>, at: Timestamp)
    | RenderWith(renderedMessage: Option<RenderedMessage>, at: Timestamp)
    | RetryFailure
    | Send(at: Timestamp)
  {
    function Apply(m: Message): Applied<Message> {
      match this
      case BuildWith(body, now) => SetAsBuilt(m, body, now)
      case RenderWith(rendered, now) => SetAsRendered(m, rendered, now)
      case RetryFailure => MarkRetryFailure(m)
      case Send(now) => SetAsSent(m, now)
    }
  }

  /** The message after a sequence of transitions, failed ones included. */
  function Run(m: Message, ts: seq<Transition>): Message
    decreases |ts|
  {
    if |ts| == 0 then m else Run(ts[0].Apply(m).state, ts[1..])
  }

  /** Any sequence of transitions, successful or not, keeps a valid message
      valid. */
  lemma {:induction false} RunPreservesValid(m: Message, ts: seq<Transition>)
    requires Valid(m)
    ensures Valid(Run(m, ts))
    decreases |ts|
  {
    if |ts| > 0 {
      RunPreservesValid(ts[0].Apply(m).state, ts[1..]);
    }
  }

  /** How far a status is along the machine; Fault comes before Sent because
      a faulted message may still be sent. */
  function Progress(s: MessageStatus): nat {
    match s
    case New => 0
    case Built => 1
    case Rendered => 2
    case Fault => 3
    case Sent => 4
  }

  /** No transition moves a message back. */
  lemma NeverGoesBack(m: Message, t: Transition)
    ensures Progress(t.Apply(m).state.status) >= Progress(m.status)
  {
  }

  /** Along any run the status only moves forward. */
  lemma {:induction false} RunNeverGoesBack(m: Message, ts: seq<Transition>)
    ensures Progress(Run(m, ts).status) >= Progress(m.status)
    decreases |ts|
  {
    if |ts| > 0 {
      NeverGoesBack(m, ts[0]);
      RunNeverGoesBack(ts[0].Apply(m).state, ts[1..]);
    }
  }

  /** The retry ceiling: from a freshly rendered message four failures are
      recorded, leaving the counter at 4, and the fifth is refused with
      MESSAGE_RETRIES_EXCEEDED. */
  lemma RetryCeiling(m: Message)
    requires m.status == Rendered && m.retries == 0
    ensures var m1 := MarkRetryFailure(m);
            var m2 := MarkRetryFailure(m1.state);
            var m3 := MarkRetryFailure(m2.state);
            var m4 := MarkRetryFailure(m3.state);
            var m5 := MarkRetryFailure(m4.state);
            && m1.outcome.Ok? && m2.outcome.Ok? && m3.outcome.Ok? && m4.outcome.Ok?
            && m4.state.retries == 4 && m4.state.status == Fault
            && m5.outcome.HasError("Retries", MESSAGE_RETRIES_EXCEEDED)
            && !m5.outcome.HasErrorFor("Status")
            && m5.state == m4.state
  {
    var m4 := MarkRetryFailure(MarkRetryFailure(MarkRetryFailure(MarkRetryFailure(m).state).state).state);
    assert m4.state.retries == 4;
    assert ErrorUnless(Sendable(m4.state.status), "Status") == {};
  }

  /** A valid message never carries more than four retries, so the counter
      cannot be pushed past the ceiling. */
  lemma RetriesNeverExceedFour(m: Message, ts: seq<Transition>)
    requires Valid(m)
    ensures Run(m, ts).retries <= MAX_RETRIES + 1
  {
    RunPreservesValid(m, ts);
  }

  /** Sent is final: every transition on a sent message fails and changes
      nothing, and sending again reports MESSAGE_NOT_SENDABLE. */
  lemma SentIsTerminal(m: Message, t: Transition)
    requires m.status == Sent
    ensures t.Apply(m).outcome.Fail? && t.Apply(m).state == m
    ensures t.Send? ==> t.Apply(m).outcome.HasError("Status", MESSAGE_NOT_SENDABLE)
  {
  }

  /** Once sent, a message stays sent whatever is tried afterwards. */
  lemma {:induction false} SentStaysSent(m: Message, ts: seq<Transition>)
    requires m.status == Sent
    ensures Run(m, ts) == m
    decreases |ts|
  {
    if |ts| > 0 {
      SentIsTerminal(m, ts[0]);
      SentStaysSent(m, ts[1..]);
    }
  }

  /** Sending a faulted message clears its retries. */
  lemma SendingAfterFaultClearsRetries(m: Message, now: Timestamp)
    requires Valid(m) && m.status == Fault
    ensures SetAsSent(m, now).outcome.Ok?
    ensures SetAsSent(m, now).state.retries == 0 && SetAsSent(m, now).state.status == Sent
    ensures m.retries > 0
  {
  }

  /** A message created from a builder cannot be rendered before it is built. */
  lemma RenderBeforeBuildFails(m: Message, renderedMessage: Option<RenderedMessage>, now: Timestamp)
    requires m.status == New
    ensures SetAsRendered(m, renderedMessage, now).outcome.HasError("Status", MESSAGE_NOT_COMPILED)
    ensures SetAsRendered(m, renderedMessage, now).state == m
  {
  }

  /** CompiledOn, GeneratedOn and SentOn are written once: a transition never
      changes a timestamp that is already set. */
  lemma TimestampsSetOnce(m: Message, t: Transition)
    requires Valid(m)
    ensures m.compiledOn.Some? ==> t.Apply(m).state.compiledOn == m.compiledOn
    ensures m.generatedOn.Some? ==> t.Apply(m).state.generatedOn == m.generatedOn
    ensures m.sentOn.Some? ==> t.Apply(m).state.sentOn == m.sentOn
  {
  }

  /** Fault is reported as an end status, yet a faulted message still accepts
      another failure (while under the ceiling) and can still be sent. */
  lemma FaultIsEndStatusYetLive(m: Message, now: Timestamp)
    requires Valid(m) && m.status == Fault && m.retries <= MAX_RETRIES
    ensures m.status.IsEndStatus()
    ensures MarkRetryFailure(m).outcome.Ok?
    ensures SetAsSent(m, now).outcome.Ok?
  {
  }

  /** Payload mode and header never change after creation. */
  lemma {:induction false} RunKeepsModeAndHeader(m: Message, ts: seq<Transition>)
    ensures Run(m, ts).payload.mode == m.payload.mode
    ensures Run(m, ts).payload.header == m.payload.header
    decreases |ts|
  {
    if |ts| > 0 {
      RunKeepsModeAndHeader(ts[0].Apply(m).state, ts[1..]);
    }
  }
}
