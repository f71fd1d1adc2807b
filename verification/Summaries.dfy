/** Summary messages: a fixed prefix, a newline, then the model's summary. */
module Summaries {
  import opened Protocol

  predicate IsSummaryMessage(prefix: string, text: string) {
    prefix <= text && |prefix| < |text| && text[|prefix|] == '\n'
  }

  function SummaryText(prefix: string, suffix: string): (text: string)
    ensures IsSummaryMessage(prefix, text) && text[|prefix| + 1..] == suffix
  {
    prefix + "\n" + suffix
  }

  /** Messages a user sees in the history. */
  predicate IsDisplayMessage(prefix: string, message: Message) {
    match message
    case User(body, hidden) =>
      !hidden && !(body.FirstText().Some? && IsSummaryMessage(prefix, body.FirstText().value))
    case Assistant(_, _, _, _, _) => true
    case Tool(_, _) => true
    case System(_) => false
    case Developer(_) => false
  }
}
