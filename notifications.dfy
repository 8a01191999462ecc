/**
 * The notification sink the client and the pages report to. Its own code is not
 * part of this model; it is represented by what the producers hand it: an
 * append-only list of entries, oldest first.
 */
module Notifications {
  import opened Js

  datatype Severity = Success | Error | Warning | Info

  /** One entry: the severity of the `add*` call, the message value passed and the
    * `duration` option (`Undefined` when no options object was passed). */
  datatype Notification = Notification(severity: Severity, message: JsValue, duration: JsValue)

  /** An entry carrying a literal message and no duration. */
  function Plain(severity: Severity, message: string): Notification
  {
    Notification(severity, Str(message), Undefined)
  }

  class NotificationSink {
    var entries: seq<Notification>

    constructor ()
      ensures entries == []
    {
      entries := [];
    }

    /** `addSuccess` / `addError` / `addWarning` / `addInfo`, one entry each. */
    method Add(n: Notification)
      modifies this
      ensures entries == old(entries) + [n]
    {
      entries := entries + [n];
    }
  }
}

/** What a backend call hands back to a page: a reply with a success flag and an
  * optional payload, or a thrown error. Which one happens is a parameter. */
module Backend {
  import opened Options

  datatype Reply<T> = Replied(success: bool, data: Option<T>) | Threw {

    /** The call returned a reply whose `success` is true. */
    predicate Succeeded()
    {
      Replied? && success
    }
  }
}
