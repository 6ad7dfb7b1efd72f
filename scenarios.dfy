/**
 * The scenarios of tests/test_notifications.py, as methods that build their
 * own fresh objects and return what the test inspects.
 */
module Scenarios {
  import opened Text
  import opened Output
  import opened Recording
  import opened Notifiers
  import opened Service

  /** A service over a fresh recording double, notified once: the record is exactly `[m]`. */
  method NotifyOnce(m: string) returns (record: seq<string>)
    ensures record == [m]
  {
    var dummy := new RecordingNotifier();
    var service := new NotificationService(ViaRecorder(dummy));
    service.Notify(m);
    record := dummy.messages;
  }

  /** Two notifications on one service reach the double as two calls, in call order. */
  method NotifyTwice(a: string, b: string) returns (record: seq<string>)
    ensures record == [a, b]
  {
    var dummy := new RecordingNotifier();
    var service := new NotificationService(ViaRecorder(dummy));
    service.Notify(a);
    service.Notify(b);
    record := dummy.messages;
  }

  /** On any service, `notify(a)` then `notify(b)` add two entries, one per call, in call order. */
  method NotifyInOrder(service: NotificationService, a: string, b: string)
    modifies service.notifier.Footprint()
    ensures service.notifier.Trace()
         == old(service.notifier.Trace()) + [service.notifier.Entry(a), service.notifier.Entry(b)]
  {
    service.Notify(a);
    service.Notify(b);
  }

  /**
   * A service over an `EmailNotifier`, notified once with `m` on a fresh
   * standard output: the captured output mentions EMAIL and the message.
   */
  method EmailOutput(m: string) returns (captured: string)
    ensures Contains(captured, "EMAIL")
    ensures Contains(captured, m)
  {
    var stdout := new Console();
    var email := new EmailNotifier(stdout);
    var service := new NotificationService(ViaEmail(email));
    service.Notify(m);
    captured := Captured(stdout.lines);
    LineMentionsTagAndMessage(Email, m);
    ContainsTransitive(captured, Line(Tag(Email), m), "EMAIL");
    ContainsTransitive(captured, Line(Tag(Email), m), m);
  }
}
