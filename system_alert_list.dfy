/** The system alert list of the sidebar: real alerts, else demo alerts on
    request, else an empty-state view; each row shows a rounded "time ago". */
module SystemAlertList {
  import opened Wrappers
  import opened I18n
  import opened AlertTypes
  import RelativeTime

  /** The `t` calls of `timeAgo`, before translation. */
  datatype TimePhrase = JustNow | Minutes(count: nat) | Hours(count: nat) | HoursHalf(h: nat, half: nat)

  /** `Math.max(0, Math.round((now - ts) / 60000))`: minutes rounded half up. */
  function RoundedMinutes(ts: int, now: int): (m: nat)
    ensures m == 0 <==> now - ts < 30000
    ensures m > 0 ==> (m * 60000 - 30000 <= now - ts < m * 60000 + 30000)
  {
    var r := (now - ts + 30000) / 60000;
    if r < 0 then 0 else r
  }

  /** `timeAgo`: "just now" below one minute, the exact minute count below an
      hour, whole hours when the remainder is zero, otherwise hours with a
      half of 0 or 30. */
  function TimeAgoPhrase(ts: int, now: int): (p: TimePhrase)
    ensures var m := RoundedMinutes(ts, now);
            && (p == JustNow <==> m < 1)
            && (1 <= m < 60 ==> p == Minutes(m))
            && (m >= 60 && m % 60 == 0 ==> p == Hours(m / 60))
            && (m >= 60 && m % 60 != 0 ==> p == HoursHalf(m / 60, if m % 60 < 30 then 0 else 30))
  {
    var m := RoundedMinutes(ts, now);
    if m < 1 then JustNow
    else if m < 60 then Minutes(m)
    else
      var h := m / 60;
      var rem := m % 60;
      if rem == 0 then Hours(h)
      else HoursHalf(h, if rem < 30 then 0 else 30)
  }

  /** i18next reads a string second argument of `t` as the default value. */
  function DefaultValue(s: string): Option<map<string, Arg>> {
    Some(map["defaultValue" := AStr(s)])
  }

  /** The string `timeAgo(t, ts)` shows. */
  function TimeAgo(t: Translator, ts: int, now: int): (s: string)
    ensures var m := RoundedMinutes(ts, now);
            && (m == 0 ==> s == t("alerts.timeAgo.justNow", DefaultValue("방금")))
            && (1 <= m < 60 ==> s == t("alerts.timeAgo.m", Some(map["count" := ANum(m as real)])))
            && (m >= 60 && m % 60 == 0 ==> s == t("alerts.timeAgo.h", Some(map["count" := ANum((m / 60) as real)])))
            && (m >= 60 && m % 60 != 0 ==>
                  s == t("alerts.timeAgo.hHalf",
                         Some(map["h" := ANum((m / 60) as real), "half" := ANum(if m % 60 < 30 then 0.0 else 30.0)])))
  {
    match TimeAgoPhrase(ts, now)
    case JustNow => t("alerts.timeAgo.justNow", DefaultValue("방금"))
    case Minutes(m) => t("alerts.timeAgo.m", Some(map["count" := ANum(m as real)]))
    case Hours(h) => t("alerts.timeAgo.h", Some(map["count" := ANum(h as real)]))
    case HoursHalf(h, half) => t("alerts.timeAgo.hHalf", Some(map["h" := ANum(h as real), "half" := ANum(half as real)]))
  }

  /** A row of the list. Demo rows have no location. */
  datatype Row = Row(id: string, title: I18nText, subtitle: Option<I18nText>, severity: Severity,
                     ts: int, photoUri: Option<string>, location: Option<LatLng>)

  datatype DemoItem = DemoItem(id: string, title: string, subtitle: string, severity: Severity, createdAt: int)

  /** `makeDemo(t, now)`: three sample alerts, 5, 22 and 50 minutes old. */
  function MakeDemo(t: Translator, now: int): (d: seq<DemoItem>)
    ensures |d| == 3
    ensures d[0].severity == Red && d[1].severity == Orange && d[2].severity == Yellow
    ensures forall i, j :: 0 <= i < j < |d| ==> d[j].createdAt < d[i].createdAt && d[i].id != d[j].id
    ensures TimeAgoPhrase(d[0].createdAt, now) == Minutes(5)
    ensures TimeAgoPhrase(d[1].createdAt, now) == Minutes(22)
    ensures TimeAgoPhrase(d[2].createdAt, now) == Minutes(50)
  {
    [ DemoItem("demo-1", t("alerts.demo.floodWarningTitle", DefaultValue("침수 경보(시범)")),
               t("alerts.demo.floodWarningSubtitle", DefaultValue("중문 교차로")), Red, now - 5 * 60 * 1000),
      DemoItem("demo-2", t("alerts.demo.slowDownTitle", DefaultValue("서행 권고(시범)")),
               t("alerts.demo.slowDownSubtitle", DefaultValue("체육관 앞 도로")), Orange, now - 22 * 60 * 1000),
      DemoItem("demo-3", t("alerts.demo.drainWorkTitle", DefaultValue("배수 작업 중(시범)")),
               t("alerts.demo.drainWorkSubtitle", DefaultValue("기숙사 A동")), Yellow, now - 50 * 60 * 1000) ]
  }

  function AlertRow(a: AlertItem): Row {
    Row(a.id, a.title, a.subtitle, a.severity, a.timestamp, a.photoUri, Some(a.location))
  }

  function DemoRow(d: DemoItem): Row {
    Row(d.id, Plain(d.title), Some(Plain(d.subtitle)), d.severity, d.createdAt, None, None)
  }

  /** `rows`: the real alerts, one row each in list order; otherwise the demo
      rows when requested; otherwise none. */
  function Rows(systemAlerts: seq<AlertItem>, showDemo: bool, t: Translator, now: int): (r: seq<Row>)
    ensures systemAlerts != [] ==>
              |r| == |systemAlerts| &&
              forall i :: 0 <= i < |r| ==>
                r[i].id == systemAlerts[i].id && r[i].ts == systemAlerts[i].timestamp &&
                r[i].title == systemAlerts[i].title && r[i].severity == systemAlerts[i].severity &&
                r[i].subtitle == systemAlerts[i].subtitle && r[i].photoUri == systemAlerts[i].photoUri &&
                r[i].location == Some(systemAlerts[i].location)
    ensures systemAlerts == [] && showDemo ==>
              |r| == 3 && r[0].severity == Red && r[1].severity == Orange && r[2].severity == Yellow
              && r[0].ts == now - 300000 && r[1].ts == now - 1320000 && r[2].ts == now - 3000000
    ensures systemAlerts == [] && !showDemo ==> r == []
  {
    if |systemAlerts| > 0 then seq(|systemAlerts|, i requires 0 <= i < |systemAlerts| => AlertRow(systemAlerts[i]))
    else if showDemo then
      var demo := MakeDemo(t, now);
      seq(|demo|, i requires 0 <= i < |demo| => DemoRow(demo[i]))
    else []
  }

  /** The component's output: the empty-state box, or the list with the demo
      badge when the store list is empty. */
  datatype ListView = EmptyState | List(rows: seq<Row>, demoBadge: bool)

  function View(systemAlerts: seq<AlertItem>, showDemo: bool, t: Translator, now: int): (v: ListView)
    ensures v == EmptyState <==> systemAlerts == [] && !showDemo
    ensures v.List? ==> v.rows == Rows(systemAlerts, showDemo, t, now) && v.rows != []
    ensures v.List? ==> (v.demoBadge <==> systemAlerts == [])
  {
    if |systemAlerts| == 0 && !showDemo then EmptyState
    else List(Rows(systemAlerts, showDemo, t, now), |systemAlerts| == 0)
  }

  /** Pressing a row focuses the map at its location, at zoom 17, when it has one. */
  function RowPressTarget(row: Row): (r: Option<(real, real, real)>)
    ensures r.Some? <==> row.location.Some?
    ensures r.Some? ==> r.value == (row.location.value.latitude, row.location.value.longitude, 17.0)
  {
    if row.location.Some? then Some((row.location.value.latitude, row.location.value.longitude, 17.0))
    else None
  }

  /** Pressing the row of a stored alert focuses the map on that alert's
      location at zoom 17. */
  lemma RealRowsFocusAlert(systemAlerts: seq<AlertItem>, showDemo: bool, t: Translator, now: int, i: nat)
    requires i < |systemAlerts|
    ensures var loc := systemAlerts[i].location;
            RowPressTarget(Rows(systemAlerts, showDemo, t, now)[i]) == Some((loc.latitude, loc.longitude, 17.0))
  {
  }

  /** Demo rows have no location, so pressing one moves nothing. */
  lemma DemoRowsDoNotFocus(t: Translator, now: int)
    ensures forall r :: r in Rows([], true, t, now) ==> RowPressTarget(r).None?
  {
  }

  /** The list's minutes and the store's relative time disagree: the list
      rounds and reports every minute, the store floors and buckets; 29.5
      minutes is "30" in the list and the 20-minute bucket in the store, and
      7 minutes is "7" against the 5-minute bucket. */
  lemma ListAndStoreDiffer(now: int)
    ensures TimeAgoPhrase(now - 1770000, now) == Minutes(30)
    ensures RelativeTime.RelativeOf(now - 1770000, now) == RelativeTime.MinAgo(20)
    ensures TimeAgoPhrase(now - 420000, now) == Minutes(7)
    ensures RelativeTime.RelativeOf(now - 420000, now) == RelativeTime.MinAgo(5)
  {
    RelativeTime.ReduceBucketsIsLargestAtMost(RelativeTime.MinBuckets, 29, 1);
    RelativeTime.ReduceBucketsIsLargestAtMost(RelativeTime.MinBuckets, 7, 1);
  }
}
