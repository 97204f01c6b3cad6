/** The values that travel between the stages of the pipeline. */
module Domain {
  import opened Js

  /**
   * A conversation identifier as it arrives through JSON or a spreadsheet cell: a number or a
   * string. `Num(1)` and `Str("1")` are different identifiers.
   */
  datatype ConvId = Num(n: int) | Str(s: string)

  /** `String(id)`: how an identifier is written into text. */
  function ConvIdText(id: ConvId): string {
    match id
    case Num(n) => IntToString(n)
    case Str(s) => s
  }

  /** A conversation as the extraction stage receives it: `{ConvID, Date, Conversation}`. */
  datatype Conversation = Conversation(convId: ConvId, date: string, text: string)

  /** One extracted intent: `{ConvID, Date, Conversation, Intent}` (Conversation is a preview). */
  datatype IntentRecord = IntentRecord(convId: ConvId, date: string, preview: string, intent: string)

  /** `conv.Conversation.substring(0, 100) + "..."`. */
  function Preview(text: string): string {
    Take(text, 100) + "..."
  }

  /** The prefix that marks an intent standing for a failure. */
  const ErrorPrefix: string := "ERROR:"

  predicate IsErrorIntent(intent: string) {
    StartsWith(intent, ErrorPrefix)
  }
}
