/** The application's audit log, reduced to the descriptions of its events. */
module Events {

  /** An append-only log of event descriptions, oldest first. The real log is a
      process-wide singleton; here it is an object handed to whoever logs. */
  class EventLog {
    var events: seq<string>

    constructor ()
      ensures events == []
    {
      events := [];
    }

    /** Appends one event with the given description. */
    method LogEvent(description: string)
      modifies this
      ensures events == old(events) + [description]
    {
      events := events + [description];
    }
  }
}
