/** The forecast overlay: the newest system alerts as map circles coloured by
    severity. */
module ForecastOverlay {
  import opened Wrappers
  import opened AlertTypes

  datatype Colors = Colors(stroke: string, fill: string)

  /** `colorBySeverity`. */
  function ColorBySeverity(s: Severity): (c: Colors)
    ensures s == Red ==> c.stroke == "#ef4444" && c.fill == "rgba(239,68,68,0.28)"
    ensures s == Orange ==> c.stroke == "#f59e0b" && c.fill == "rgba(245,158,11,0.26)"
    ensures s == Yellow ==> c.stroke == "#eab308" && c.fill == "rgba(234,179,8,0.24)"
  {
    match s
    case Red => Colors("#ef4444", "rgba(239,68,68,0.28)")
    case Orange => Colors("#f59e0b", "rgba(245,158,11,0.26)")
    case Yellow => Colors("#eab308", "rgba(234,179,8,0.24)")
  }

  const DefaultRadiusM: real := 600.0
  const DefaultZIndex: int := 8
  const DefaultMaxCount: int := 6
  const StrokeWidth: int := 2

  datatype Circle = Circle(key: string, center: LatLng, radius: real, strokeColor: string,
                           fillColor: string, strokeWidth: int, zIndex: int)

  /** The end index of `slice(0, count)` on a list of length n: a negative
      count counts back from the end. */
  function SliceEnd(n: nat, count: int): (e: nat)
    ensures e <= n
    ensures count >= 0 ==> e == if count < n then count else n
    ensures count < 0 ==> e == if n + count > 0 then n + count else 0
  {
    if count >= 0 then (if count < n then count else n)
    else if n + count > 0 then n + count else 0
  }

  function CircleFor(a: AlertItem, radiusM: real, zIndex: int): (c: Circle)
    ensures c.key == a.id && c.center == a.location && c.radius == radiusM && c.zIndex == zIndex
    ensures c.strokeColor == ColorBySeverity(a.severity).stroke && c.fillColor == ColorBySeverity(a.severity).fill
    ensures c.strokeWidth == 2
  {
    var c := ColorBySeverity(a.severity);
    Circle(a.id, a.location, radiusM, c.stroke, c.fill, StrokeWidth, zIndex)
  }

  /** What `ForecastOverlay` renders: nothing for an empty list, otherwise one
      circle per alert among the first `maxCount`, in list order (newest first). */
  function Render(systemAlerts: seq<AlertItem>, radiusM: Option<real>, zIndex: Option<int>,
                  maxCount: Option<int>): (r: Option<seq<Circle>>)
    ensures r.None? <==> systemAlerts == []
    ensures r.Some? ==>
              var n := SliceEnd(|systemAlerts|, maxCount.GetOr(DefaultMaxCount));
              && |r.value| == n
              && forall i :: 0 <= i < n ==>
                   && r.value[i].key == systemAlerts[i].id
                   && r.value[i].center == systemAlerts[i].location
                   && r.value[i].radius == radiusM.GetOr(DefaultRadiusM)
                   && r.value[i].zIndex == zIndex.GetOr(DefaultZIndex)
                   && r.value[i].strokeColor == ColorBySeverity(systemAlerts[i].severity).stroke
                   && r.value[i].fillColor == ColorBySeverity(systemAlerts[i].severity).fill
  {
    if systemAlerts == [] then None
    else
      var items := systemAlerts[..SliceEnd(|systemAlerts|, maxCount.GetOr(DefaultMaxCount))];
      var rad := radiusM.GetOr(DefaultRadiusM);
      var z := zIndex.GetOr(DefaultZIndex);
      Some(seq(|items|, i requires 0 <= i < |items| => CircleFor(items[i], rad, z)))
  }

  /** With the defaults, at most the six newest alerts are drawn. */
  lemma DefaultsDrawAtMostSix(systemAlerts: seq<AlertItem>)
    requires systemAlerts != []
    ensures var r := Render(systemAlerts, None, None, None);
            |r.value| == if |systemAlerts| < 6 then |systemAlerts| else 6
  {
  }
}
