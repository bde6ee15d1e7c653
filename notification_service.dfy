/**
 * `NotificationService`: shows success, warning and error snackbars in the host
 * window. A notification raised while the window is not loaded yet is queued,
 * and the whole queue is shown, in order, when the window's `Loaded` event fires.
 */
module NotificationService {
  import opened Host

  datatype Appearance = Success | Caution | Danger
  datatype SymbolIcon = ChatWarning24 | Warning24 | ErrorCircle24

  /** One `ISnackbarService.Show` call. */
  datatype Snackbar = Snackbar(title: string, message: string, appearance: Appearance, icon: SymbolIcon)

  /** `ShowSuccessBar`. */
  function SuccessBar(title: string, message: string): Snackbar
  {
    Snackbar(title, message, Success, ChatWarning24)
  }

  /** `ShowWarningBar`. */
  function WarningBar(title: string, message: string): Snackbar
  {
    Snackbar(title, message, Caution, Warning24)
  }

  /** `ShowErrorBar`. */
  function ErrorBar(title: string, message: string): Snackbar
  {
    Snackbar(title, message, Danger, ErrorCircle24)
  }

  class Service {
    /** `_pendingNotifications`: the queued bars, in the order they were raised; `null` is the empty queue. */
    var pending: seq<Snackbar>
    /** How many times `ShowPendingNotifications` is subscribed to the host's `Loaded` event. */
    var subscriptions: nat
    /** The bars the snackbar service has shown, in order. */
    var shown: seq<Snackbar>

    /** The handler is subscribed exactly while something is queued, and never twice. */
    predicate Valid()
      reads this
    {
      subscriptions == if pending == [] then 0 else 1
    }

    /** Every bar raised so far: the ones shown, then the ones waiting. */
    function Raised(): seq<Snackbar>
      reads this
    {
      shown + pending
    }

    constructor ()
      ensures Valid() && pending == [] && shown == [] && subscriptions == 0
    {
      pending := [];
      subscriptions := 0;
      shown := [];
    }

    /**
     * `Push…Message`: with the host not loaded, subscribes the handler if the queue
     * was empty and queues the bar; with the host loaded, shows the bar at once,
     * ahead of any bar still queued.
     */
    method Push(bar: Snackbar, hostLoaded: bool)
      modifies this
      ensures multiset(Raised()) == multiset(old(Raised())) + multiset{bar}
      ensures !hostLoaded || old(pending) == [] ==> Raised() == old(Raised()) + [bar]
      ensures hostLoaded ==> shown == old(shown) + [bar] && pending == old(pending) && subscriptions == old(subscriptions)
      ensures !hostLoaded ==> shown == old(shown) && pending == old(pending) + [bar]
      ensures !hostLoaded ==> subscriptions == old(subscriptions) + (if old(pending) == [] then 1 else 0)
      ensures old(Valid()) ==> Valid()
    {
      if !hostLoaded {
        if pending == [] {
          subscriptions := subscriptions + 1;
        }
        pending := pending + [bar];
      } else {
        shown := shown + [bar];
      }
    }

    /** `ShowSuccess(title, message)`; the dispatcher hop is not modelled. */
    method ShowSuccess(title: string, message: string, hostLoaded: bool)
      modifies this
      ensures multiset(Raised()) == multiset(old(Raised())) + multiset{SuccessBar(title, message)}
      ensures !hostLoaded || old(pending) == [] ==> Raised() == old(Raised()) + [SuccessBar(title, message)]
      ensures old(Valid()) ==> Valid()
    {
      Push(SuccessBar(title, message), hostLoaded);
    }

    /** `ShowWarning(title, message)`. */
    method ShowWarning(title: string, message: string, hostLoaded: bool)
      modifies this
      ensures multiset(Raised()) == multiset(old(Raised())) + multiset{WarningBar(title, message)}
      ensures !hostLoaded || old(pending) == [] ==> Raised() == old(Raised()) + [WarningBar(title, message)]
      ensures old(Valid()) ==> Valid()
    {
      Push(WarningBar(title, message), hostLoaded);
    }

    /** `ShowError(title, message)`. */
    method ShowError(title: string, message: string, hostLoaded: bool)
      modifies this
      ensures multiset(Raised()) == multiset(old(Raised())) + multiset{ErrorBar(title, message)}
      ensures !hostLoaded || old(pending) == [] ==> Raised() == old(Raised()) + [ErrorBar(title, message)]
      ensures old(Valid()) ==> Valid()
    {
      Push(ErrorBar(title, message), hostLoaded);
    }

    /** `ShowError(title, exception)`: the bar carries the exception's message. */
    method ShowException(title: string, exception: Exception, hostLoaded: bool)
      modifies this
      ensures multiset(Raised()) == multiset(old(Raised())) + multiset{ErrorBar(title, exception.message)}
      ensures !hostLoaded || old(pending) == [] ==> Raised() == old(Raised()) + [ErrorBar(title, exception.message)]
      ensures old(Valid()) ==> Valid()
    {
      Push(ErrorBar(title, exception.message), hostLoaded);
    }

    /**
     * `ShowPendingNotifications`, the `Loaded` handler: unsubscribes itself (a no-op
     * when not subscribed), then shows every queued bar in order and empties the queue.
     */
    method ShowPendingNotifications()
      modifies this
      ensures Raised() == old(Raised())
      ensures pending == [] && shown == old(shown) + old(pending)
      ensures subscriptions == if old(subscriptions) == 0 then 0 else old(subscriptions) - 1
      ensures old(Valid()) ==> Valid() && subscriptions == 0
    {
      if subscriptions > 0 {
        subscriptions := subscriptions - 1;
      }
      if pending == [] {
        return;
      }
      shown := shown + pending;
      pending := [];
    }
  }
}
