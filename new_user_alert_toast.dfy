/** The toast shown when the user submits a report: visible and collapsed on
    each new "last user alert", hidden by a 5.5 s timer or the close button,
    which both consume the store's pointer. Timers are explicit events. */
module NewUserAlertToast {
  import opened Wrappers
  import opened I18n
  import opened AlertTypes
  import opened AlertsStore

  const HideAfterMs: nat := 5500

  /** `iconFor(sev)`: the severity dot; anything else (an absent severity) is yellow. */
  function IconFor(sev: Option<Severity>): (icon: string)
    ensures sev == Some(Red) ==> icon == "🔴"
    ensures sev == Some(Orange) ==> icon == "🟠"
    ensures sev != Some(Red) && sev != Some(Orange) ==> icon == "🟡"
  {
    match sev
    case Some(Red) => "🔴"
    case Some(Orange) => "🟠"
    case _ => "🟡"
  }

  /** A title inside a template literal: a string as it is, an object as
      JavaScript prints it. */
  function TemplateText(v: I18nText): (s: string)
    ensures v.Plain? ==> s == v.str
    ensures v.Keyed? ==> s == "[object Object]"
  {
    match v
    case Plain(s) => s
    case Keyed(_, _) => "[object Object]"
  }

  /** The properties handed to `TopUserToast`. */
  datatype ToastView = ToastView(visible: bool, title: string, photoUri: Option<string>, expanded: bool)

  class UserAlertToast {
    const store: AlertsProvider
    var visible: bool
    var expanded: bool
    /** `hideTimer.current`: the last timer scheduled; clearing a timer does not reset it. */
    var hideTimerRef: Option<nat>
    /** Timers scheduled and neither fired nor cleared, with their delays. */
    var pending: map<nat, nat>
    var nextTimer: nat
    /** `lastUserAlert` as of the last effect run. */
    var seen: Option<AlertItem>

    ghost predicate Valid()
      reads this, store
    {
      && store.Valid()
      && (forall id :: id in pending ==> hideTimerRef == Some(id) && id < nextTimer)
      && seen == store.lastUserAlert
    }

    /** At most one hide timer is ever pending. */
    lemma AtMostOneTimer()
      requires Valid()
      ensures |pending.Keys| <= 1
    {
      if hideTimerRef.Some? && hideTimerRef.value in pending {
        assert pending.Keys == {hideTimerRef.value};
      } else {
        assert pending.Keys == {};
      }
    }

    /** Mounting runs the effect once with the store's current pointer. */
    constructor (store: AlertsProvider)
      requires store.Valid()
      ensures Valid() && this.store == store
      ensures expanded == false
      ensures visible <==> store.lastUserAlert.Some?
      ensures store.lastUserAlert.Some? ==> pending.Values == {HideAfterMs} && |pending.Keys| == 1
      ensures store.lastUserAlert.None? ==> pending == map[]
    {
      this.store := store;
      visible, expanded := false, false;
      hideTimerRef, pending, nextTimer := None, map[], 0;
      seen := store.lastUserAlert;
      new;
      if store.lastUserAlert.Some? {
        visible := true;
        hideTimerRef, pending, nextTimer := Some(0), map[0 := HideAfterMs], 1;
      }
    }

    /** `clearTimeout(hideTimer.current)`. */
    method ClearHideTimer()
      requires Valid()
      modifies this
      ensures Valid() && pending == map[]
      ensures visible == old(visible) && expanded == old(expanded) && seen == old(seen)
      ensures hideTimerRef == old(hideTimerRef) && nextTimer == old(nextTimer)
    {
      if hideTimerRef.Some? {
        pending := pending - {hideTimerRef.value};
      }
    }

    /** React re-runs the effect after a render in which `lastUserAlert`
        changed: the previous run's cleanup clears the timer, and a non-null
        alert shows the toast collapsed with a single fresh 5.5 s timer. */
    method Sync()
      requires store.Valid()
      requires forall id :: id in pending ==> hideTimerRef == Some(id) && id < nextTimer
      modifies this
      ensures Valid()
      ensures old(seen) == store.lastUserAlert ==>
                visible == old(visible) && expanded == old(expanded) && pending == old(pending)
      ensures old(seen) != store.lastUserAlert && store.lastUserAlert.None? ==>
                visible == old(visible) && expanded == old(expanded) && pending == map[]
      ensures old(seen) != store.lastUserAlert && store.lastUserAlert.Some? ==>
                visible && !expanded && hideTimerRef == Some(old(nextTimer)) &&
                pending == map[old(nextTimer) := HideAfterMs]
    {
      if seen != store.lastUserAlert {
        seen := store.lastUserAlert;
        ClearHideTimer();
        if store.lastUserAlert.Some? {
          expanded := false;
          visible := true;
          ClearHideTimer();
          hideTimerRef := Some(nextTimer);
          pending := map[nextTimer := HideAfterMs];
          nextTimer := nextTimer + 1;
        }
      }
    }

    /** The hide timer fires: the toast hides and the pointer is consumed. */
    method HideTimerFires(id: nat)
      requires Valid() && id in pending
      modifies this, store
      ensures Valid()
      ensures !visible && store.lastUserAlert.None? && pending == map[]
      ensures expanded == old(expanded)
      ensures store.userAlerts == old(store.userAlerts) && store.systemAlerts == old(store.systemAlerts)
      ensures store.idSeq == old(store.idSeq)
      ensures store.lastSystemAlert == old(store.lastSystemAlert)
    {
      pending := pending - {id};
      visible := false;
      store.ConsumeLastUserAlert();
      Sync();
    }

    /** `onToggle`: flips `expanded` only. */
    method Toggle()
      requires Valid()
      modifies this
      ensures Valid()
      ensures expanded == !old(expanded)
      ensures visible == old(visible) && pending == old(pending) && hideTimerRef == old(hideTimerRef)
    {
      expanded := !expanded;
    }

    /** `onClose`: cancels the timer, hides the toast and consumes the pointer. */
    method Close()
      requires Valid()
      modifies this, store
      ensures Valid()
      ensures !visible && store.lastUserAlert.None? && pending == map[]
      ensures expanded == old(expanded)
      ensures store.userAlerts == old(store.userAlerts) && store.systemAlerts == old(store.systemAlerts)
      ensures store.idSeq == old(store.idSeq)
      ensures store.lastSystemAlert == old(store.lastSystemAlert)
    {
      ClearHideTimer();
      visible := false;
      store.ConsumeLastUserAlert();
      Sync();
    }

    /** Unmounting runs the cleanup, which clears the timer. */
    method Unmount()
      requires Valid()
      modifies this
      ensures Valid() && pending == map[]
      ensures visible == old(visible) && expanded == old(expanded)
    {
      ClearHideTimer();
    }

    /** What is rendered: nothing while there is no pointer, whatever
        `visible` is; otherwise the toast with the severity icon before the title. */
    function Rendered(): (v: Option<ToastView>)
      reads this, store
      ensures v.None? <==> store.lastUserAlert.None?
      ensures v.Some? ==>
                && v.value.visible == visible && v.value.expanded == expanded
                && v.value.title == IconFor(Some(store.lastUserAlert.value.severity)) + " "
                                    + TemplateText(store.lastUserAlert.value.title)
                && v.value.photoUri == store.lastUserAlert.value.photoUri
    {
      match store.lastUserAlert
      case None => None
      case Some(a) => Some(ToastView(visible, IconFor(Some(a.severity)) + " " + TemplateText(a.title), a.photoUri, expanded))
    }
  }
}
