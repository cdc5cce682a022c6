/** Facts about the event logs the command handlers append to. */
module EventLogs {

  /**
    Appending an opening event, then a body of events, then a closing event
    one after the other appends the bracketed body as a whole.
  */
  lemma Bracketed<T>(before: seq<T>, open: T, body: seq<T>, close: T)
    ensures before + [open] + body + [close] == before + ([open] + body + [close])
  {
  }
}
