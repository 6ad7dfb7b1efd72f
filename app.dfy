/**
 * The command-line entry of src/main.py: the `CHANNELS` table from channel
 * names to notifier kinds, and `main`'s select / construct / notify sequence
 * for a channel that argument parsing has already validated.
 */
module App {
  import opened Wrappers
  import opened Output
  import opened Notifiers
  import opened Service

  /** `CHANNELS`: the closed table of accepted channel names. */
  const Channels: map<string, Channel> := map["email" := Email, "sms" := Sms, "push" := Push]

  /** The name under which `c` appears in `Channels`. */
  function Name(c: Channel): (n: string)
    ensures n in Channels && Channels[n] == c
  {
    match c
    case Email => "email"
    case Sms => "sms"
    case Push => "push"
  }

  /** `CHANNELS[name]` made total: None for a name outside the table. */
  function Lookup(name: string): (r: Option<Channel>)
    ensures r.Some? <==> name in {"email", "sms", "push"}
    ensures r.Some? ==> Name(r.value) == name
  {
    if name in Channels then Some(Channels[name]) else None
  }

  /** The table has exactly the three keys, and each channel sits under its own name. */
  lemma ChannelsTable()
    ensures Channels.Keys == {"email", "sms", "push"}
    ensures forall c: Channel :: Name(c) in Channels && Channels[Name(c)] == c
  {
  }

  /** Looking up a channel's own name finds that channel. */
  lemma LookupName(c: Channel)
    ensures Lookup(Name(c)) == Some(c)
  {
  }

  /**
   * `notifier_cls()`: a fresh notifier of the class `CHANNELS` gives for `c`,
   * printing on `stdout`.
   */
  method NewNotifier(c: Channel, stdout: Console) returns (n: Notifier)
    ensures n.ChannelOf() == Some(c)
    ensures fresh(n.Object())
    ensures n.Footprint() == {stdout}
  {
    match c
    case Email =>
      var e := new EmailNotifier(stdout);
      n := ViaEmail(e);
    case Sms =>
      var s := new SmsNotifier(stdout);
      n := ViaSms(s);
    case Push =>
      var p := new PushNotifier(stdout);
      n := ViaPush(p);
  }

  /**
   * `main` after argument parsing: builds one fresh notifier for `channel`
   * and one fresh service around it, and notifies once with `message`.
   * Exactly one `print` happens: one entry, tagged for `channel` and ending in `message`.
   */
  method Run(channel: Channel, message: string, stdout: Console) returns (ghost service: NotificationService)
    modifies stdout
    ensures stdout.lines == old(stdout.lines) + [Line(Tag(channel), message)]
    ensures fresh(service) && fresh(service.notifier.Object())
    ensures service.notifier.ChannelOf() == Some(channel)
  {
    var notifier := NewNotifier(channel, stdout);
    var s := new NotificationService(notifier);
    s.Notify(message);
    service := s;
  }

  /** `main` with the channel still a name: the table lookup, then `Run` if it succeeds. */
  method RunNamed(name: string, message: string, stdout: Console) returns (accepted: bool)
    modifies stdout
    ensures accepted <==> name in Channels
    ensures accepted ==> stdout.lines == old(stdout.lines) + [Line(Tag(Channels[name]), message)]
    ensures !accepted ==> stdout.lines == old(stdout.lines)
  {
    match Lookup(name)
    case Some(c) =>
      var _ := Run(c, message, stdout);
      accepted := true;
    case None =>
      accepted := false;
  }
}
