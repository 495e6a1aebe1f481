/** The toast for the newest system alert: shown on each new pointer value,
    dismissed by its 3.5 s timer, the close button or a tap on the card (which
    first focuses the map on the alert). A dismissal runs a 220 ms hide
    animation whose completion hides the toast and consumes the pointer.
    Timers and the animation's completion are explicit events. */
module SystemAlertToast {
  import opened Wrappers
  import opened I18n
  import opened AlertTypes
  import opened AlertsStore
  import opened MapFocus

  const ShowMs: nat := 3500
  const HideMs: nat := 220
  const FocusZoom: real := 17.0

  /** The rendered card: translated title and subtitle (an empty subtitle is not shown). */
  datatype ToastView = ToastView(title: string, subtitle: string)

  class SystemAlertToast {
    const store: AlertsProvider
    const maps: MapFocusRegistry
    var visible: bool
    var cur: Option<AlertItem>
    /** `hideTimer.current`: the last timer scheduled. */
    var hideTimerRef: Option<nat>
    /** Pending hide timers, each with the `visible` its `dismiss` closure captured. */
    var pending: map<nat, bool>
    var nextTimer: nat
    /** `lastSystemAlert` as of the last effect run; a run with a non-null
        pointer is the only kind that registers a cleanup. */
    var seen: Option<AlertItem>
    /** A hide animation is running and its completion callback is due. */
    var hiding: bool

    ghost predicate Valid()
      reads this, store
    {
      && store.Valid()
      && (forall id :: id in pending ==> hideTimerRef == Some(id) && id < nextTimer)
      && seen == store.lastSystemAlert
      && (visible <==> cur.Some?)
    }

    /** Mounting runs the effect once: a pointer already set is shown at
        once, with a timer whose closure saw the toast hidden. */
    constructor (store: AlertsProvider, maps: MapFocusRegistry)
      requires store.Valid()
      ensures Valid() && this.store == store && this.maps == maps && !hiding
      ensures cur == store.lastSystemAlert
      ensures store.lastSystemAlert.Some? ==> pending == map[0 := false]
      ensures store.lastSystemAlert.None? ==> pending == map[]
    {
      this.store, this.maps := store, maps;
      visible, cur, hiding := false, None, false;
      hideTimerRef, pending, nextTimer := None, map[], 0;
      seen := store.lastSystemAlert;
      new;
      if store.lastSystemAlert.Some? {
        cur, visible := store.lastSystemAlert, true;
        hideTimerRef, pending, nextTimer := Some(0), map[0 := false], 1;
      }
    }

    /** `clearTimeout(hideTimer.current)`. */
    method ClearHideTimer()
      modifies this
      ensures pending == if old(hideTimerRef).Some? then old(pending) - {old(hideTimerRef).value} else old(pending)
      ensures (forall id :: id in old(pending) ==> hideTimerRef == Some(id)) ==> pending == map[]
      ensures visible == old(visible) && cur == old(cur) && seen == old(seen) && hiding == old(hiding)
      ensures hideTimerRef == old(hideTimerRef) && nextTimer == old(nextTimer)
    {
      if hideTimerRef.Some? {
        pending := pending - {hideTimerRef.value};
      }
    }

    /** The completion callback of the hide animation, followed by the effect
        re-run that the consumed pointer causes (whose cleanup clears the timer). */
    method HideCallback()
      requires store.Valid()
      requires forall id :: id in pending ==> hideTimerRef == Some(id) && id < nextTimer
      requires seen == store.lastSystemAlert
      modifies this, store
      ensures Valid()
      ensures !visible && cur.None? && !hiding && store.lastSystemAlert.None?
      ensures old(store.lastSystemAlert).Some? ==> pending == map[]
      ensures old(store.lastSystemAlert).None? ==> pending == old(pending)
      ensures store.userAlerts == old(store.userAlerts) && store.systemAlerts == old(store.systemAlerts)
      ensures store.idSeq == old(store.idSeq)
      ensures store.lastUserAlert == old(store.lastUserAlert)
      ensures hideTimerRef == old(hideTimerRef) && nextTimer == old(nextTimer)
    {
      visible, cur, hiding := false, None, false;
      store.ConsumeLastSystemAlert();
      if seen.Some? {
        ClearHideTimer();
        seen := None;
      }
    }

    /** `dismiss`, as a closure that saw `visible` equal to `sawVisible`:
        nothing when it saw the toast hidden; otherwise the timer is cleared
        and the hide animation starts, which first completes (interrupts) a
        hide animation already running. */
    method Dismiss(sawVisible: bool)
      requires Valid()
      modifies this, store
      ensures Valid()
      ensures !sawVisible ==>
                visible == old(visible) && cur == old(cur) && pending == old(pending) && hiding == old(hiding)
                && store.lastSystemAlert == old(store.lastSystemAlert)
      ensures sawVisible ==> hiding && pending == map[]
      ensures sawVisible && !old(hiding) ==>
                visible == old(visible) && cur == old(cur) && store.lastSystemAlert == old(store.lastSystemAlert)
      ensures sawVisible && old(hiding) ==> !visible && cur.None? && store.lastSystemAlert.None?
      ensures store.userAlerts == old(store.userAlerts) && store.systemAlerts == old(store.systemAlerts)
      ensures store.idSeq == old(store.idSeq)
      ensures store.lastUserAlert == old(store.lastUserAlert)
      ensures hideTimerRef == old(hideTimerRef) && nextTimer == old(nextTimer)
    {
      if !sawVisible {
        return;
      }
      ClearHideTimer();
      if hiding {
        HideCallback();
      }
      hiding := true;
    }

    /** React re-runs the effect after a render in which `lastSystemAlert`
        changed. The previous run's cleanup (if it registered one) clears the
        timer; a non-null alert is shown, the show animation starts and a new
        timer is scheduled whose `dismiss` saw the `visible` of the render
        before. Starting the show animation interrupts a running hide
        animation, whose callback then hides the toast and consumes the
        pointer, so the new alert is not shown. */
    method Sync()
      requires store.Valid()
      requires forall id :: id in pending ==> hideTimerRef == Some(id) && id < nextTimer
      requires visible <==> cur.Some?
      modifies this, store
      ensures Valid()
      ensures old(seen) == old(store.lastSystemAlert) ==>
                visible == old(visible) && cur == old(cur) && pending == old(pending) && hiding == old(hiding)
                && store.lastSystemAlert == old(store.lastSystemAlert)
      ensures old(seen) != old(store.lastSystemAlert) && old(store.lastSystemAlert).None? ==>
                visible == old(visible) && cur == old(cur) && hiding == old(hiding)
                && (old(seen).Some? ==> pending == map[])
                && store.lastSystemAlert == old(store.lastSystemAlert)
      ensures old(seen) != old(store.lastSystemAlert) && old(store.lastSystemAlert).Some? && !old(hiding) ==>
                visible && cur == old(store.lastSystemAlert) && !hiding
                && hideTimerRef == Some(old(nextTimer)) && pending == map[old(nextTimer) := old(visible)]
                && store.lastSystemAlert == old(store.lastSystemAlert)
      ensures old(seen) != old(store.lastSystemAlert) && old(store.lastSystemAlert).Some? && old(hiding) ==>
                !visible && cur.None? && !hiding && pending == map[] && store.lastSystemAlert.None?
      ensures store.userAlerts == old(store.userAlerts) && store.systemAlerts == old(store.systemAlerts)
      ensures store.idSeq == old(store.idSeq)
      ensures store.lastUserAlert == old(store.lastUserAlert)
    {
      if seen == store.lastSystemAlert {
        return;
      }
      if seen.Some? {
        ClearHideTimer();
      }
      seen := store.lastSystemAlert;
      if seen.Some? {
        if hiding {
          ShowInterrupted();
        } else {
          Show();
        }
      }
    }

    /** The effect body for a new alert while no hide animation runs. */
    method Show()
      requires store.Valid() && seen == store.lastSystemAlert && seen.Some? && !hiding
      requires forall id :: id in pending ==> hideTimerRef == Some(id) && id < nextTimer
      modifies this
      ensures Valid()
      ensures visible && cur == seen && !hiding && seen == old(seen)
      ensures hideTimerRef == Some(old(nextTimer)) && pending == map[old(nextTimer) := old(visible)]
    {
      var saw := visible;
      cur, visible := seen, true;
      ClearHideTimer();
      hideTimerRef := Some(nextTimer);
      pending := map[nextTimer := saw];
      nextTimer := nextTimer + 1;
    }

    /** The effect body for a new alert while a hide animation runs: the
        interrupted animation's callback hides the toast and consumes the
        pointer, and the effect re-run for the null pointer clears the new timer. */
    method ShowInterrupted()
      requires store.Valid() && seen == store.lastSystemAlert && seen.Some? && hiding
      requires forall id :: id in pending ==> hideTimerRef == Some(id) && id < nextTimer
      modifies this, store
      ensures Valid()
      ensures !visible && cur.None? && !hiding && pending == map[] && store.lastSystemAlert.None?
      ensures store.userAlerts == old(store.userAlerts) && store.systemAlerts == old(store.systemAlerts)
      ensures store.idSeq == old(store.idSeq)
      ensures store.lastUserAlert == old(store.lastUserAlert)
    {
      var saw := visible;
      visible, cur, hiding := false, None, false;
      store.ConsumeLastSystemAlert();
      ClearHideTimer();
      hideTimerRef := Some(nextTimer);
      pending := map[nextTimer := saw];
      nextTimer := nextTimer + 1;
      ClearHideTimer();
      seen := None;
    }

    /** A hide timer fires and calls the `dismiss` it captured, which reads
        the `visible` of the render that scheduled it. */
    method HideTimerFires(id: nat)
      requires Valid() && id in pending
      modifies this, store
      ensures Valid()
      ensures pending == map[]
      ensures !old(pending[id]) ==>
                visible == old(visible) && cur == old(cur) && hiding == old(hiding)
                && store.lastSystemAlert == old(store.lastSystemAlert)
      ensures old(pending[id]) ==> hiding
      ensures old(pending[id]) && !old(hiding) ==>
                visible == old(visible) && cur == old(cur) && store.lastSystemAlert == old(store.lastSystemAlert)
      ensures old(pending[id]) && old(hiding) ==> !visible && cur.None? && store.lastSystemAlert.None?
      ensures store.userAlerts == old(store.userAlerts) && store.systemAlerts == old(store.systemAlerts)
      ensures store.idSeq == old(store.idSeq)
      ensures store.lastUserAlert == old(store.lastUserAlert)
      ensures hideTimerRef == old(hideTimerRef) && nextTimer == old(nextTimer)
    {
      var saw := pending[id];
      pending := pending - {id};
      Dismiss(saw);
    }

    /** The hide timer as evidently intended: `dismiss` reads the current
        `visible`, so a shown toast always starts hiding. */
    method HideTimerFiresCorrected(id: nat)
      requires Valid() && id in pending
      modifies this, store
      ensures Valid()
      ensures pending == map[]
      ensures !old(visible) ==>
                !visible && cur.None? && hiding == old(hiding) && store.lastSystemAlert == old(store.lastSystemAlert)
      ensures old(visible) ==> hiding
      ensures old(visible) && !old(hiding) ==>
                visible && cur == old(cur) && store.lastSystemAlert == old(store.lastSystemAlert)
      ensures old(visible) && old(hiding) ==> !visible && cur.None? && store.lastSystemAlert.None?
      ensures store.userAlerts == old(store.userAlerts) && store.systemAlerts == old(store.systemAlerts)
      ensures store.idSeq == old(store.idSeq)
      ensures store.lastUserAlert == old(store.lastUserAlert)
      ensures hideTimerRef == old(hideTimerRef) && nextTimer == old(nextTimer)
    {
      pending := pending - {id};
      Dismiss(visible);
    }

    /** The hide animation completes. */
    method HideAnimationEnds()
      requires Valid() && hiding
      modifies this, store
      ensures Valid()
      ensures !visible && cur.None? && !hiding && store.lastSystemAlert.None?
      ensures old(store.lastSystemAlert).Some? ==> pending == map[]
      ensures old(store.lastSystemAlert).None? ==> pending == old(pending)
      ensures hideTimerRef == old(hideTimerRef) && nextTimer == old(nextTimer)
      ensures store.userAlerts == old(store.userAlerts) && store.systemAlerts == old(store.systemAlerts)
      ensures store.idSeq == old(store.idSeq)
      ensures store.lastUserAlert == old(store.lastUserAlert)
    {
      HideCallback();
    }

    /** The close button calls the current `dismiss`. */
    method Close()
      requires Valid()
      modifies this, store
      ensures Valid()
      ensures !old(visible) ==>
                visible == old(visible) && cur == old(cur) && pending == old(pending) && hiding == old(hiding)
                && store.lastSystemAlert == old(store.lastSystemAlert)
      ensures old(visible) ==> hiding && pending == map[]
      ensures old(visible) && !old(hiding) ==>
                visible && cur == old(cur) && store.lastSystemAlert == old(store.lastSystemAlert)
      ensures old(visible) && old(hiding) ==> !visible && cur.None? && store.lastSystemAlert.None?
      ensures store.userAlerts == old(store.userAlerts) && store.systemAlerts == old(store.systemAlerts)
      ensures store.idSeq == old(store.idSeq)
      ensures store.lastUserAlert == old(store.lastUserAlert)
      ensures hideTimerRef == old(hideTimerRef) && nextTimer == old(nextTimer)
    {
      Dismiss(visible);
    }

    /** `onPressCard`: focuses the map on the alert at zoom 17 when there is
        one, then dismisses. */
    method PressCard() returns (focus: Option<FocusOutcome>)
      requires Valid()
      modifies this, store
      ensures Valid()
      ensures focus.Some? <==> old(cur).Some?
      ensures old(cur).Some? ==>
                var loc := old(cur).value.location;
                var call := MoveCall(loc.latitude, loc.longitude, FocusZoom);
                (maps.mover.None? <==> focus.value == NoMover) &&
                (maps.mover.Some? ==>
                   match maps.mover.value(call.lat, call.lng, call.zoom)
                   case Moved => focus.value == Invoked(call)
                   case Threw(e) => focus.value == MoverFailed(call, e))
      ensures !old(visible) ==>
                visible == old(visible) && cur == old(cur) && pending == old(pending) && hiding == old(hiding)
                && store.lastSystemAlert == old(store.lastSystemAlert)
      ensures old(visible) ==> hiding && pending == map[]
      ensures old(visible) && !old(hiding) ==>
                visible && cur == old(cur) && store.lastSystemAlert == old(store.lastSystemAlert)
      ensures old(visible) && old(hiding) ==> !visible && cur.None? && store.lastSystemAlert.None?
      ensures store.userAlerts == old(store.userAlerts) && store.systemAlerts == old(store.systemAlerts)
      ensures store.idSeq == old(store.idSeq)
      ensures store.lastUserAlert == old(store.lastUserAlert)
      ensures hideTimerRef == old(hideTimerRef) && nextTimer == old(nextTimer)
      ensures maps.mover == old(maps.mover)
    {
      focus := None;
      if cur.Some? {
        var o := maps.FocusMap(cur.value.location.latitude, cur.value.location.longitude, Some(FocusZoom));
        focus := Some(o);
      }
      Dismiss(visible);
    }

    /** Unmounting runs the cleanup of the last non-null effect run. */
    method Unmount()
      requires Valid()
      modifies this
      ensures seen.Some? ==> pending == map[]
      ensures seen.None? ==> pending == old(pending)
      ensures visible == old(visible) && cur == old(cur) && hiding == old(hiding)
    {
      if seen.Some? {
        ClearHideTimer();
      }
    }

    /** What is rendered: the card only while visible with an alert. */
    function Rendered(t: Translator): (v: Option<ToastView>)
      reads this
      ensures v.Some? <==> visible && cur.Some?
      ensures v.Some? ==>
                v.value.title == AsText(t, Some(cur.value.title)) &&
                v.value.subtitle == AsText(t, cur.value.subtitle)
    {
      if visible && cur.Some? then
        Some(ToastView(AsText(t, Some(cur.value.title)), AsText(t, cur.value.subtitle)))
      else None
    }
  }

  const SampleAlert: AlertFields :=
    AlertFields(Plain("Heavy rain"), None, None, Red, LatLng(32.2, 119.5))

  /** The toast as written: the first system alert, arriving while the
      toast is hidden, stays on screen after its 3.5 s timer fires and the
      pointer is never consumed, because the timer's `dismiss` saw
      `visible == false`. */
  method FirstToastStaysAsWritten() returns (stillVisible: bool, pointerKept: bool)
    ensures stillVisible && pointerKept
  {
    var store := new AlertsProvider();
    var maps := new MapFocusRegistry();
    var toast := new SystemAlertToast(store, maps);
    var _ := store.AddSystemAlert(SampleAlert, 0);
    toast.Sync();
    toast.HideTimerFires(toast.hideTimerRef.value);
    stillVisible := toast.visible;
    pointerKept := store.lastSystemAlert.Some?;
  }

  /** With the corrected timer the same first alert starts hiding when the
      timer fires, and once the animation completes the toast is gone and the
      pointer is consumed. */
  method FirstToastHidesCorrected() returns (stillVisible: bool, pointerKept: bool)
    ensures !stillVisible && !pointerKept
  {
    var store := new AlertsProvider();
    var maps := new MapFocusRegistry();
    var toast := new SystemAlertToast(store, maps);
    var _ := store.AddSystemAlert(SampleAlert, 0);
    toast.Sync();
    toast.HideTimerFiresCorrected(toast.hideTimerRef.value);
    toast.HideAnimationEnds();
    stillVisible := toast.visible;
    pointerKept := store.lastSystemAlert.Some?;
  }
}
