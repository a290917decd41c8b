/** The logger collaborator (ILogger): a sink that appends one entry per Write. */
module Logging {

  class Logger {
    var started: bool
    var entries: seq<string>

    constructor ()
      ensures !started && entries == []
    {
      started, entries := false, [];
    }

    /** ILogger.Start */
    method Start()
      modifies this`started
      ensures started
    {
      started := true;
    }

    /** ILogger.Write: the composite formatting is done by the caller, so one message is one entry. */
    method Write(message: string)
      modifies this`entries
      ensures entries == old(entries) + [message]
    {
      entries := entries + [message];
    }
  }
}
