/** The plain records a message carries: who receives it and what the render
    engine produced. Every reference inside them may be null in C#. */
module MessageRecords {
  import opened Options

  /** `MessageRecipients(To, Cc, Bcc)`. */
  datatype MessageRecipients = MessageRecipients(
    to: Option<string>,
    cc: Option<seq<string>>,
    bcc: Option<seq<string>>)

  /** `RenderedMessage(Subject, Content)`. */
  datatype RenderedMessage = RenderedMessage(subject: Option<string>, content: Option<string>)
}
