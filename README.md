# Notification service: a verified model

This project models the notification system of a small dependency-inversion
demonstration. A `NotificationService` depends only on an abstract
`Notifier` capability with one operation, `send(message)`. Three channel
variants implement it: email, SMS and push. Each makes exactly one `print`
call, of the text `Sending <TAG>: <message>`. The command-line entry picks a variant by name
from the `CHANNELS` table, wraps it in a service and notifies once.

Files and modules:

- `notifiers.dfy` (`Notifiers`): the `Channel` datatype, `Tag`, the line format `Line`, its inverse `MessageOf`, the three notifier classes and the `Notifier` abstraction with its dispatching `Send`.
- `service.dfy` (`Service`): `NotificationService`, whose notifier is a `const` field, and `Notify`.
- `app.dfy` (`App`): the `CHANNELS` table, its lookup, and `main`'s construct-and-notify sequence.
- `recording.dfy` (`Recording`): the recording test double of the test suite.
- `output.dfy` (`Output`): standard output as a `Console` holding one entry per `print` call, and the captured text a test reads back.
- `scenarios.dfy` (`Scenarios`): the test suite's scenarios, stated for all messages.
- `text.dfy` (`Text`), `wrappers.dfy` (`Wrappers`): substring containment and `Option`.

Design choices:

- The abstraction is a closed sum. `Notifiers.Notifier` is a datatype holding a reference to one implementation: `EmailNotifier`, `SmsNotifier`, `PushNotifier` or the recording double. No variant stands for the abstract base, which has no behaviour.
- Standard output is an object, `Output.Console`. Its `lines` hold one entry per `print` call: the printed text without its newline. Each printing notifier holds a `const` reference to it, so `Send` and `Notify` keep their one-argument form.
- `Notifier.Trace()` is what an observer of a notifier sees: the printed entries, or the double's record. `Notifier.Entry(m)` is the one entry a send of `m` adds to it. The forwarding contract of `Notify` is stated through these two.

## Model

| member | source | states |
|---|---|---|
| `Output.Console.WriteLine` | src/notifications/notifiers.py:11 | one `print` call appends exactly its text as a new entry and keeps every earlier entry |
| `Output.Captured` | tests/test_notifications.py:23 | the captured output contains the last line printed |
| `Output.CapturedContainsLine` | tests/test_notifications.py:23-24 | every printed line can be found in the captured output |
| `Recording.RecordingNotifier.constructor` | tests/test_notifications.py:6-7 | the double starts with an empty record |
| `Recording.RecordingNotifier.Send` | tests/test_notifications.py:9-10 | the double appends the message verbatim to its record and changes nothing else |
| `Notifiers.Tag` | src/notifications/notifiers.py:10-19 | each channel's tag is one of the literals "EMAIL", "SMS", "PUSH" |
| `Notifiers.TagsDistinct` | src/notifications/notifiers.py:10-19 | two channels have the same tag if and only if they are the same channel |
| `Notifiers.Line` | src/notifications/notifiers.py:10-19 | a notifier line is "Sending ", then the tag, then ": ", then the whole message as its suffix |
| `Notifiers.MessageOf` | src/notifications/notifiers.py:10-19 | reading a line back yields a message whose line is exactly that line, and None only when no message produces it |
| `Notifiers.MessageOfLine` | src/notifications/notifiers.py:10-19 | the message is recovered unchanged from its line: it is never transformed or truncated |
| `Notifiers.LineInjective` | src/notifications/notifiers.py:10-19 | on one channel, two messages give the same line if and only if they are equal |
| `Notifiers.ChannelsGiveDistinctLines` | src/notifications/notifiers.py:10-19 | the same message on two channels gives the same line if and only if the channels are equal |
| `Notifiers.LineMentionsTagAndMessage` | src/notifications/notifiers.py:10-19 | each variant's line contains its tag and the message as substrings |
| `Notifiers.EmailNotifier.constructor` | src/notifications/notifiers.py:9 | an email notifier has no state of its own beyond the output it prints on |
| `Notifiers.EmailNotifier.Send` | src/notifications/notifiers.py:10-11 | appends exactly one entry, "Sending EMAIL: " + message, and changes only standard output |
| `Notifiers.SmsNotifier.constructor` | src/notifications/notifiers.py:13 | an SMS notifier has no state of its own beyond the output it prints on |
| `Notifiers.SmsNotifier.Send` | src/notifications/notifiers.py:14-15 | appends exactly one entry, "Sending SMS: " + message, and changes only standard output |
| `Notifiers.PushNotifier.constructor` | src/notifications/notifiers.py:17 | a push notifier has no state of its own beyond the output it prints on |
| `Notifiers.PushNotifier.Send` | src/notifications/notifiers.py:18-19 | appends exactly one entry, "Sending PUSH: " + message, and changes only standard output |
| `Notifiers.Notifier.EntryInjective` | src/notifications/notifiers.py:10-19 | for every notifier, two messages leave the same entry if and only if they are equal, so the entry determines the message sent |
| `Notifiers.Notifier.Send` | src/notifications/notifiers.py:3-7 | sending through the abstraction adds exactly one entry to the implementation's trace, the tagged line for a channel and the message itself for the double, and changes nothing outside its footprint |
| `Service.NotificationService.constructor` | src/notifications/service.py:5-6 | the service holds exactly the notifier it was given; the field is constant, so it is never reassigned |
| `Service.NotificationService.Notify` | src/notifications/service.py:8-9 | the held notifier's trace gains exactly the one entry a single send of the unchanged message adds; the service's own state is outside the frame |
| `App.Name` | src/main.py:9-13 | each channel's name is a key of the table that maps back to that channel |
| `App.Lookup` | src/main.py:9-13 | a name is found if and only if it is one of "email", "sms", "push", and the channel found is the one filed under that name |
| `App.ChannelsTable` | src/main.py:9-13 | the table has exactly the keys "email", "sms", "push", mapping to email, SMS and push respectively |
| `App.LookupName` | src/main.py:10-12 | looking up a channel's own name finds that channel |
| `App.NewNotifier` | src/main.py:23-24 | the selected class yields one fresh notifier of the selected channel, printing on standard output |
| `App.Run` | src/main.py:21-25 | for channel c and message m, exactly one `print` of "Sending " + Tag(c) + ": " + m happens, through one fresh service around one fresh notifier of channel c |
| `App.RunNamed` | src/main.py:17-25 | a channel name is accepted if and only if it is a key of the table; when accepted exactly the tagged text is printed once, otherwise nothing |
| `Scenarios.NotifyOnce` | tests/test_notifications.py:12-16 | a service over a fresh recording double, notified once with m, leaves the record exactly [m] |
| `Scenarios.NotifyTwice` | tests/test_notifications.py:9-10 | two notifications leave the record exactly [a, b]: two calls in call order, nothing carried between them |
| `Scenarios.NotifyInOrder` | src/notifications/service.py:8-9 | on any service, notify(a) then notify(b) extend the notifier's trace by the two entries in call order |
| `Scenarios.EmailOutput` | tests/test_notifications.py:18-24 | a service over an email notifier, notified once, produces captured output that contains "EMAIL" and the message |

## Left out

- Argument parsing (`build_parser`, help text, usage errors, exit codes) is not modelled. `App.Run` takes an already validated channel; `App.RunNamed` keeps only the rule that a name outside the table is refused.
- The `if __name__ == "__main__"` entry point is process glue and is not modelled.
- Output.Console.WriteLine: records one entry per `print` call. A message that itself holds a line break prints several lines on a terminal but is still one entry here; `Output.Captured` gives the exact text, line breaks included.
- Real writing to standard output is replaced by appending to `Output.Console.lines`. The trailing newline of `print` appears only in `Output.Captured`.
- The concrete notifiers take the console they print on as a constructor argument. In the source they take none and use the process's standard output implicitly.
- The abstract base class machinery (`ABC`, `abstractmethod`, `NotImplementedError`) is not modelled. The base class cannot be instantiated there, and `Notifiers.Notifier` has no variant for it here.
- The abstraction is closed: only the three channels and the recording double implement `Notifiers.Notifier`. Other subclasses a user might write are not covered.
- `CHANNELS` maps names to classes. Here it maps names to `Channel` values, and `App.NewNotifier` plays the part of calling the class.
- `src/notifications/__init__.py` only re-exports names and is not modelled.
- The test harness's output capture (`capsys`) is not modelled; `Output.Captured` stands for the text it reads back.
