/**
 * The recording test double of tests/test_notifications.py: a notifier that
 * keeps every message it is asked to send instead of printing it.
 */
module Recording {

  class RecordingNotifier {
    /** The messages received so far, in call order. */
    var messages: seq<string>

    constructor ()
      ensures messages == []
    {
      messages := [];
    }

    /** Records `message` verbatim after those already received. */
    method Send(message: string)
      modifies this
      ensures messages == old(messages) + [message]
    {
      messages := messages + [message];
    }
  }
}
