/** The mock forecaster: a render-less component whose interval adds one
    system alert per tick around a centre point, one tick in five a
    "prediction failed" alert. Each random draw and the sampled location are
    parameters of the tick. */
module ForecastAutoMock {
  import opened Wrappers
  import opened I18n
  import opened AlertTypes
  import opened AlertsStore

  const Severities: seq<Severity> := [Red, Orange, Yellow]
  const DefaultIntervalSec: real := 10.0
  const DefaultScatterKm: real := 10.0
  const FailureThreshold: real := 0.2

  /** `SEVERITIES[Math.floor(q * SEVERITIES.length)]` for a draw `q` in [0, 1). */
  function PickSeverity(q: real): (s: Severity)
    requires 0.0 <= q < 1.0
    ensures s == Red <==> q < 1.0 / 3.0
    ensures s == Orange <==> 1.0 / 3.0 <= q < 2.0 / 3.0
    ensures s == Yellow <==> 2.0 / 3.0 <= q
  {
    Severities[(q * 3.0).Floor]
  }

  /** Every severity is picked by some draw, so each can occur. */
  lemma EverySeverityPickable(s: Severity)
    ensures exists q: real :: 0.0 <= q < 1.0 && PickSeverity(q) == s
  {
    match s
    case Red => assert PickSeverity(0.0) == Red;
    case Orange => assert PickSeverity(0.5) == Orange;
    case Yellow => assert PickSeverity(0.9) == Yellow;
  }

  /** The alert one tick adds: `failDraw < 0.2` gives the failure alert
      (yellow, keys only); otherwise the picked severity with a subtitle
      whose `severity` parameter is the key `severity.<code>`. Neither has a photo. */
  function TickAlert(loc: LatLng, failDraw: real, pickDraw: real): (a: AlertFields)
    requires 0.0 <= pickDraw < 1.0
    ensures a.location == loc && a.photoUri.None? && a.subtitle.Some?
    ensures failDraw < FailureThreshold ==>
              a.title == Keyed("forecast.errorTitle", Absent) &&
              a.subtitle.value == Keyed("forecast.errorSubtitle", Absent) &&
              a.severity == Yellow
    ensures failDraw >= FailureThreshold ==>
              a.title == Keyed("forecast.autoTitle", Absent) &&
              a.severity == PickSeverity(pickDraw) &&
              a.subtitle.value ==
                Keyed("forecast.autoSubtitle",
                      Record(map["severity" := Text(Keyed("severity." + SeverityCode(a.severity), Absent))]))
  {
    if failDraw < FailureThreshold then
      AlertFields(Keyed("forecast.errorTitle", Absent), Some(Keyed("forecast.errorSubtitle", Absent)),
                  None, Yellow, loc)
    else
      var pick := PickSeverity(pickDraw);
      AlertFields(Keyed("forecast.autoTitle", Absent),
                  Some(Keyed("forecast.autoSubtitle",
                             Record(map["severity" := Text(Keyed("severity." + SeverityCode(pick), Absent))]))),
                  None, pick, loc)
  }

  /** The interval period in milliseconds, `intervalSec * 1000`. */
  function PeriodMs(intervalSec: Option<real>): (ms: real)
    ensures intervalSec.None? ==> ms == 10000.0
    ensures intervalSec.Some? ==> ms == intervalSec.value * 1000.0
  {
    intervalSec.GetOr(DefaultIntervalSec) * 1000.0
  }

  /** The effect's dependencies among the props, after the destructuring
      defaults `intervalSec = 10` and `scatterKm = 10` are applied. */
  datatype Deps = Deps(center: LatLng, intervalSec: real, scatterKm: real)

  function DepsOf(center: LatLng, intervalSec: Option<real>, scatterKm: Option<real>): (d: Deps)
    ensures d.center == center
    ensures d.intervalSec == if intervalSec.Some? then intervalSec.value else DefaultIntervalSec
    ensures d.scatterKm == if scatterKm.Some? then scatterKm.value else DefaultScatterKm
  {
    Deps(center, intervalSec.GetOr(DefaultIntervalSec), scatterKm.GetOr(DefaultScatterKm))
  }

  /** Leaving a prop out and passing its default value give the same
      dependencies, so switching between the two restarts nothing. */
  lemma DefaultsAreValues(center: LatLng, intervalSec: Option<real>, scatterKm: Option<real>)
    ensures DepsOf(center, None, scatterKm) == DepsOf(center, Some(DefaultIntervalSec), scatterKm)
    ensures DepsOf(center, intervalSec, None) == DepsOf(center, intervalSec, Some(DefaultScatterKm))
  {
  }

  class ForecastGenerator {
    const store: AlertsProvider
    var center: LatLng
    var intervalSec: Option<real>
    var scatterKm: Option<real>
    /** The dependencies of the last effect run. */
    var deps: Deps
    /** The interval the last effect run started, until it is cleared. */
    var interval: Option<nat>
    /** Its period, in milliseconds. */
    var periodMs: real
    var nextTimer: nat

    ghost predicate Valid()
      reads this, store
    {
      && store.Valid()
      && (interval.Some? ==> interval.value < nextTimer)
    }

    /** Mounting starts one interval. */
    constructor (store: AlertsProvider, center: LatLng, intervalSec: Option<real>, scatterKm: Option<real>)
      requires store.Valid()
      ensures Valid() && this.store == store
      ensures interval == Some(0) && periodMs == PeriodMs(intervalSec)
      ensures deps == DepsOf(center, intervalSec, scatterKm)
    {
      this.store := store;
      this.center, this.intervalSec, this.scatterKm := center, intervalSec, scatterKm;
      deps := DepsOf(center, intervalSec, scatterKm);
      interval, periodMs, nextTimer := Some(0), PeriodMs(intervalSec), 1;
    }

    /** After a render: when a dependency changed, the old interval is
        cleared and a new one, with the current period, takes its place. */
    method Sync()
      requires Valid()
      modifies this
      ensures Valid()
      ensures center == old(center) && intervalSec == old(intervalSec) && scatterKm == old(scatterKm)
      ensures deps == DepsOf(center, intervalSec, scatterKm)
      ensures old(deps) == deps ==>
                interval == old(interval) && periodMs == old(periodMs) && nextTimer == old(nextTimer)
      ensures old(deps) != deps ==>
                interval == Some(old(nextTimer)) && periodMs == PeriodMs(intervalSec)
                && nextTimer == old(nextTimer) + 1
    {
      var now := DepsOf(center, intervalSec, scatterKm);
      if now != deps {
        deps := now;
        interval, periodMs := Some(nextTimer), PeriodMs(intervalSec);
        nextTimer := nextTimer + 1;
      }
    }

    /** The parent re-renders with new props. */
    method SetProps(c: LatLng, iv: Option<real>, sk: Option<real>)
      requires Valid()
      modifies this
      ensures Valid()
      ensures center == c && intervalSec == iv && scatterKm == sk
      ensures deps == DepsOf(c, iv, sk)
      ensures old(deps) != deps ==> interval == Some(old(nextTimer)) && periodMs == PeriodMs(iv)
      ensures old(deps) == deps ==> interval == old(interval) && periodMs == old(periodMs)
    {
      center, intervalSec, scatterKm := c, iv, sk;
      Sync();
    }

    /** The live interval ticks: exactly one system alert is added at the
        head of the list and becomes the toast pointer; the interval goes on. */
    method Tick(id: nat, loc: LatLng, failDraw: real, pickDraw: real, now: int) returns (alertId: string)
      requires Valid() && interval == Some(id)
      requires 0.0 <= pickDraw < 1.0
      modifies store
      ensures Valid()
      ensures alertId == MakeId(SystemPrefix, old(store.idSeq))
      ensures store.systemAlerts == [NewItem(alertId, now, TickAlert(loc, failDraw, pickDraw))] + old(store.systemAlerts)
      ensures store.lastSystemAlert == Some(store.systemAlerts[0])
      ensures store.userAlerts == old(store.userAlerts) && store.lastUserAlert == old(store.lastUserAlert)
      ensures |store.systemAlerts| == |old(store.systemAlerts)| + 1
    {
      alertId := store.AddSystemAlert(TickAlert(loc, failDraw, pickDraw), now);
    }

    /** Unmounting clears the interval. */
    method Unmount()
      modifies this
      ensures interval == None
      ensures center == old(center) && intervalSec == old(intervalSec) && scatterKm == old(scatterKm)
      ensures deps == old(deps) && periodMs == old(periodMs) && nextTimer == old(nextTimer)
    {
      interval := None;
    }
  }

  /** Mounting without `intervalSec` and re-rendering with `intervalSec={10}`
      keeps the running interval. */
  method ExplicitDefaultKeepsInterval(c: LatLng) returns (kept: bool)
    ensures kept
  {
    var store := new AlertsProvider();
    var g := new ForecastGenerator(store, c, None, None);
    g.SetProps(c, Some(DefaultIntervalSec), None);
    kept := g.interval == Some(0);
  }
}
