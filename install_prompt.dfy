/** The install banner: whether it is shown, the deferred browser install
    prompt, and the dismissal time kept in local storage. The browser's
    display mode, the user agent test, the clock and the install dialog's
    answer are parameters; the 10-second timer and the
    `beforeinstallprompt` event are methods called when they fire. */
module InstallPrompt {
  import opened Wrappers

  const MillisPerDay: int := 1000 * 60 * 60 * 24

  /** How many days a dismissal keeps the banner away. */
  const SnoozeDays: int := 7

  /** How long ago a dismissal happened, in days, as the browser divides it. */
  function DaysSince(dismissedAt: int, now: int): real {
    (now - dismissedAt) as real / (MillisPerDay as real)
  }

  /** A dismissal less than seven days old suppresses the banner. The seven
      days are 604,800,000 milliseconds: a dismissal is active exactly while
      fewer milliseconds than that have passed. A dismissal stamped in the
      future counts as active. */
  function DismissalActive(dismissedAt: int, now: int): (r: bool)
    ensures r <==> now - dismissedAt < 604800000
  {
    var x := (now - dismissedAt) as real;
    assert MillisPerDay == 86400000;
    assert DaysSince(dismissedAt, now) == x / 86400000.0;
    assert x / 86400000.0 < 7.0 <==> x < 604800000.0;
    DaysSince(dismissedAt, now) < SnoozeDays as real
  }

  /** The answer of the browser's install dialog. */
  datatype InstallOutcome = Accepted | DismissedDialog

  /** The component's state cells and the effect's timer and listener. The
      deferred prompt is the captured event, identified by a number. */
  class Banner {
    var deferredPrompt: Option<nat>
    var showPrompt: bool
    var isIOS: bool
    var isInstalled: bool
    /** Whether the 10-second timer is pending. */
    var timerArmed: bool
    /** Whether the `beforeinstallprompt` listener is attached. */
    var listening: bool
    /** `localStorage.installPromptDismissed`, as a number. */
    var storedDismissal: Option<int>

    constructor(storedDismissal: Option<int>)
      ensures this.storedDismissal == storedDismissal
      ensures deferredPrompt.None? && !showPrompt && !isIOS && !isInstalled && !timerArmed && !listening
    {
      this.storedDismissal := storedDismissal;
      deferredPrompt := None;
      showPrompt := false;
      isIOS := false;
      isInstalled := false;
      timerArmed := false;
      listening := false;
    }

    /** Whether anything is rendered: the banner is up and the app is not
        installed. */
    function Renders(): (r: bool)
      reads this
      ensures isInstalled ==> !r
      ensures r ==> showPrompt
      ensures showPrompt && !isInstalled ==> r
    {
      showPrompt && !isInstalled
    }

    /** The mount effect. In standalone mode the app counts as installed and
      nothing else happens; a dismissal under seven days old stops the
      effect too; otherwise the platform is recorded and the timer and the
      listener are set up. The effect runs once, before any timer or
      listener exists. */
    method Mount(standalone: bool, now: int, iOS: bool)
      requires !timerArmed && !listening
      modifies this
      ensures var suppressed := standalone || (storedDismissal.Some? && DismissalActive(storedDismissal.value, now));
        (timerArmed <==> !suppressed) && (listening <==> !suppressed) &&
        isIOS == (if suppressed then old(isIOS) else iOS)
      ensures isInstalled == (standalone || old(isInstalled))
      ensures standalone ==> !Renders()
      ensures showPrompt == old(showPrompt) && deferredPrompt == old(deferredPrompt)
      ensures storedDismissal == old(storedDismissal)
    {
      if standalone {
        isInstalled := true;
        return;
      }
      if storedDismissal.Some? && DismissalActive(storedDismissal.value, now) {
        return;
      }
      isIOS := iOS;
      timerArmed := true;
      listening := true;
    }

    /** The effect's cleanup: the timer is cleared and the listener removed. */
    method Unmount()
      modifies this`timerArmed, this`listening
      ensures !timerArmed && !listening
    {
      timerArmed := false;
      listening := false;
    }

    /** The 10-second timer fires: a pending timer raises the banner. */
    method TimerFired()
      modifies this`showPrompt, this`timerArmed
      ensures showPrompt == (old(showPrompt) || old(timerArmed))
      ensures !timerArmed
    {
      if timerArmed {
        showPrompt := true;
        timerArmed := false;
      }
    }

    /** `beforeinstallprompt` arrives: while listening, its default is
      prevented and the event is kept as the deferred prompt. */
    method BeforeInstallPrompt(event: nat) returns (prevented: bool)
      modifies this`deferredPrompt
      ensures prevented == listening
      ensures deferredPrompt == if listening then Some(event) else old(deferredPrompt)
    {
      prevented := listening;
      if listening {
        deferredPrompt := Some(event);
      }
    }

    /** `handleInstall`: without a deferred prompt nothing happens
      (`prompted` is false). Otherwise the dialog is shown; an accepted
      install hides the banner and marks the app installed, and either
      answer uses up the deferred prompt. */
    method HandleInstall(answer: InstallOutcome) returns (prompted: bool)
      modifies this`showPrompt, this`isInstalled, this`deferredPrompt
      ensures prompted <==> old(deferredPrompt).Some?
      ensures !prompted ==> showPrompt == old(showPrompt) && isInstalled == old(isInstalled) && deferredPrompt.None?
      ensures prompted && answer == Accepted ==> !showPrompt && isInstalled && !Renders()
      ensures prompted && answer == DismissedDialog ==> showPrompt == old(showPrompt) && isInstalled == old(isInstalled)
      ensures deferredPrompt.None?
    {
      if deferredPrompt.None? {
        prompted := false;
        return;
      }
      prompted := true;
      if answer == Accepted {
        showPrompt := false;
        isInstalled := true;
      }
      deferredPrompt := None;
    }

    /** `handleDismiss`: the banner goes away and the time is stored, so a
      mount in the next seven days is suppressed. */
    method HandleDismiss(now: int)
      modifies this`showPrompt, this`storedDismissal
      ensures !showPrompt && !Renders()
      ensures storedDismissal == Some(now)
      ensures forall later :: now <= later < now + 604800000 ==> DismissalActive(now, later)
    {
      showPrompt := false;
      storedDismissal := Some(now);
    }
  }
}
