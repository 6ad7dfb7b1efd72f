/**
 * The notifier capability (src/notifications/notifiers.py): one operation,
 * `Send(message)`, and three channel variants that each print exactly one
 * line "Sending <TAG>: <message>" on standard output.
 *
 * Dafny has no open interfaces here, so the abstraction is the closed sum
 * `Notifier` of its implementations: the three channels and the recording
 * double used by the tests. No variant stands for the abstract base itself,
 * which has no behaviour of its own.
 */
module Notifiers {
  import opened Wrappers
  import opened Text
  import opened Output
  import opened Recording

  /** The delivery channels a notifier can print on. */
  datatype Channel = Email | Sms | Push

  /** The literal tag each channel prints in front of the message. */
  function Tag(c: Channel): (t: string)
    ensures t in {"EMAIL", "SMS", "PUSH"}
  {
    match c
    case Email => "EMAIL"
    case Sms => "SMS"
    case Push => "PUSH"
  }

  /** Each channel has its own tag: no two channels share one. */
  lemma TagsDistinct(c1: Channel, c2: Channel)
    ensures Tag(c1) == Tag(c2) <==> c1 == c2
  {
  }

  /** The text of the line a notifier prints for `m` under `tag`. */
  function Line(tag: string, m: string): (r: string)
    ensures |r| == |"Sending "| + |tag| + |": "| + |m|
    ensures r[..|"Sending "|] == "Sending "
    ensures r[|"Sending "|..|"Sending "| + |tag|] == tag
    ensures r[|"Sending "| + |tag|..|r| - |m|] == ": "
    ensures r[|r| - |m|..] == m
  {
    "Sending " + tag + ": " + m
  }

  /**
   * Reads a printed line back: the message, if the line has the shape
   * `Line(tag, _)`, and None otherwise.
   */
  function MessageOf(tag: string, line: string): (r: Option<string>)
    ensures r.Some? ==> Line(tag, r.value) == line
    ensures r.None? ==> forall m :: Line(tag, m) != line
  {
    var prefix := "Sending " + tag + ": ";
    if prefix <= line then Some(line[|prefix|..]) else None
  }

  /** The message is recoverable from its line: no transformation, no truncation. */
  lemma MessageOfLine(tag: string, m: string)
    ensures MessageOf(tag, Line(tag, m)) == Some(m)
  {
  }

  /** Two messages printed on the same channel give the same line only if they are equal. */
  lemma LineInjective(c: Channel, m1: string, m2: string)
    ensures Line(Tag(c), m1) == Line(Tag(c), m2) <==> m1 == m2
  {
  }

  /** The same message on different channels gives different lines. */
  lemma ChannelsGiveDistinctLines(c1: Channel, c2: Channel, m: string)
    ensures Line(Tag(c1), m) == Line(Tag(c2), m) <==> c1 == c2
  {
  }

  /** A printed line mentions both its channel's tag and the whole message. */
  lemma LineMentionsTagAndMessage(c: Channel, m: string)
    ensures Contains(Line(Tag(c), m), Tag(c))
    ensures Contains(Line(Tag(c), m), m)
  {
    assert Line(Tag(c), m) == "Sending " + Tag(c) + ": " + m;
    ContainsInConcat("Sending ", Tag(c), ": " + m);
    assert "Sending " + Tag(c) + ": " + m == "Sending " + Tag(c) + (": " + m);
    ContainsInConcat("Sending " + Tag(c) + ": ", m, "");
    assert "Sending " + Tag(c) + ": " + m + "" == "Sending " + Tag(c) + ": " + m;
  }

  /** `EmailNotifier`: prints "Sending EMAIL: <message>". */
  class EmailNotifier {
    /** The process's standard output, the only thing sending touches. */
    const stdout: Console

    constructor (stdout: Console)
      ensures this.stdout == stdout
    {
      this.stdout := stdout;
    }

    method Send(message: string)
      modifies stdout
      ensures stdout.lines == old(stdout.lines) + ["Sending EMAIL: " + message]
    {
      stdout.WriteLine("Sending EMAIL: " + message);
    }
  }

  /** `SMSNotifier`: prints "Sending SMS: <message>". */
  class SmsNotifier {
    /** The process's standard output, the only thing sending touches. */
    const stdout: Console

    constructor (stdout: Console)
      ensures this.stdout == stdout
    {
      this.stdout := stdout;
    }

    method Send(message: string)
      modifies stdout
      ensures stdout.lines == old(stdout.lines) + ["Sending SMS: " + message]
    {
      stdout.WriteLine("Sending SMS: " + message);
    }
  }

  /** `PushNotifier`: prints "Sending PUSH: <message>". */
  class PushNotifier {
    /** The process's standard output, the only thing sending touches. */
    const stdout: Console

    constructor (stdout: Console)
      ensures this.stdout == stdout
    {
      this.stdout := stdout;
    }

    method Send(message: string)
      modifies stdout
      ensures stdout.lines == old(stdout.lines) + ["Sending PUSH: " + message]
    {
      stdout.WriteLine("Sending PUSH: " + message);
    }
  }

  /** The `Notifier` abstraction: a reference to one of its implementations. */
  datatype Notifier =
    | ViaEmail(email: EmailNotifier)
    | ViaSms(sms: SmsNotifier)
    | ViaPush(push: PushNotifier)
    // exists only for the test suite: the double it passes to the service
    | ViaRecorder(recorder: RecordingNotifier)
  {
    /** The channel this notifier prints on; None for the recording double. */
    function ChannelOf(): Option<Channel>
    {
      match this
      case ViaEmail(_) => Some(Email)
      case ViaSms(_) => Some(Sms)
      case ViaPush(_) => Some(Push)
      case ViaRecorder(_) => None
    }

    /** The implementing object itself. */
    function Object(): object
    {
      match this
      case ViaEmail(n) => n
      case ViaSms(n) => n
      case ViaPush(n) => n
      case ViaRecorder(n) => n
    }

    /** The only objects a send may change: standard output, or the double's record. */
    function Footprint(): set<object>
    {
      match this
      case ViaEmail(n) => {n.stdout}
      case ViaSms(n) => {n.stdout}
      case ViaPush(n) => {n.stdout}
      case ViaRecorder(n) => {n}
    }

    /** What an observer of this notifier sees: the printed lines, or the recorded messages. */
    function Trace(): seq<string>
      reads Footprint()
    {
      match this
      case ViaEmail(n) => n.stdout.lines
      case ViaSms(n) => n.stdout.lines
      case ViaPush(n) => n.stdout.lines
      case ViaRecorder(n) => n.messages
    }

    /** The one entry a send of `message` adds to the trace. */
    function Entry(message: string): string
    {
      match ChannelOf()
      case Some(c) => Line(Tag(c), message)
      case None => message
    }

    /** Different messages leave different entries: what a send records is the message unchanged. */
    lemma EntryInjective(m1: string, m2: string)
      ensures Entry(m1) == Entry(m2) <==> m1 == m2
    {
      if ChannelOf().Some? {
        LineInjective(ChannelOf().value, m1, m2);
      }
    }

    /** `Notifier.send`, dispatched to the implementation. */
    method Send(message: string)
      modifies Footprint()
      ensures Trace() == old(Trace()) + [Entry(message)]
    {
      match this
      case ViaEmail(n) =>
        n.Send(message);
        assert Line(Tag(Email), message) == "Sending EMAIL: " + message;
      case ViaSms(n) =>
        n.Send(message);
        assert Line(Tag(Sms), message) == "Sending SMS: " + message;
      case ViaPush(n) =>
        n.Send(message);
        assert Line(Tag(Push), message) == "Sending PUSH: " + message;
      case ViaRecorder(n) =>
        n.Send(message);
    }
  }
}
