/**
 * The error log the sifting code writes to. Only the entries whose
 * presence the code decides are modelled; informational messages are not.
 */
module Logs {
  import opened Base

  datatype LogEntry =
      /** `get_default_munger`: the configured LogMunger does not exist. */
    | LogMungerNotConfigured(mungerName: string)
      /** `catch_email`: the configured MailMunger does not exist. */
    | MailMungerNotConfigured(mungerName: string, messageId: Option<Json>)
      /** `process_msg`: decoding, parsing or processing the body raised. */
    | MessageFailed(body: string)

  class Log {
    var entries: seq<LogEntry>

    constructor ()
      ensures entries == []
    {
      entries := [];
    }

    method Add(e: LogEntry)
      modifies this
      ensures entries == old(entries) + [e]
    {
      entries := entries + [e];
    }
  }
}
