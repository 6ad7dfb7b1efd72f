/**
 * `NotificationService` (src/notifications/service.py): the high-level
 * component that depends only on the `Notifier` abstraction and forwards
 * every notification to the one notifier it was built with.
 */
module Service {
  import opened Notifiers

  class NotificationService {
    /** The notifier given at construction; a `const`, so nothing reassigns it. */
    const notifier: Notifier

    constructor (notifier: Notifier)
      ensures this.notifier == notifier
    {
      this.notifier := notifier;
    }

    /**
     * Forwards `message`, unchanged, to the held notifier's `Send`, once:
     * its trace gains exactly the entry that one send of `message` adds.
     * The service itself is not in the frame, so none of its state changes.
     */
    method Notify(message: string)
      modifies notifier.Footprint()
      ensures notifier.Trace() == old(notifier.Trace()) + [notifier.Entry(message)]
    {
      notifier.Send(message);
    }
  }
}
