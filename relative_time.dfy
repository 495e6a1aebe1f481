/** `formatRelative`: elapsed time as "just now", a minute bucket, whole
    hours or hours and a half, in one of four languages. */
module RelativeTime {
  import opened Wrappers
  import opened JsString
  import Decimal

  datatype Lang = Ko | En | Ja | Zh

  /** `normalizeLang`: lower-cased prefix ko / ja / zh, everything else en. */
  function NormalizeLang(x: Option<string>): (l: Lang)
    ensures l == Ko <==> StartsWith(ToLower(x.GetOr("")), "ko")
    ensures l == Ja <==> !StartsWith(ToLower(x.GetOr("")), "ko") && StartsWith(ToLower(x.GetOr("")), "ja")
    ensures l == Zh <==> !StartsWith(ToLower(x.GetOr("")), "ko") && !StartsWith(ToLower(x.GetOr("")), "ja")
                         && StartsWith(ToLower(x.GetOr("")), "zh")
  {
    var tag := ToLower(x.GetOr(""));
    if StartsWith(tag, "ko") then Ko
    else if StartsWith(tag, "ja") then Ja
    else if StartsWith(tag, "zh") then Zh
    else En
  }

  /** `MIN_BUCKETS`. */
  const MinBuckets: seq<nat> := [1, 3, 5, 10, 15, 20, 30, 45]

  /** `buckets.reduce((acc, b) => (b <= min ? b : acc), acc)`. */
  function ReduceBuckets(buckets: seq<nat>, min: nat, acc: nat): nat
  {
    if buckets == [] then acc
    else ReduceBuckets(buckets[1..], min, if buckets[0] <= min then buckets[0] else acc)
  }

  /** Over ascending buckets the reduction yields the largest bucket not above
      `min`, or the initial value when there is none. */
  lemma {:induction false} ReduceBucketsIsLargestAtMost(buckets: seq<nat>, min: nat, acc: nat)
    requires forall i, j :: 0 <= i < j < |buckets| ==> buckets[i] < buckets[j]
    requires acc <= min
    ensures ReduceBuckets(buckets, min, acc) <= min
    ensures ReduceBuckets(buckets, min, acc) == acc || ReduceBuckets(buckets, min, acc) in buckets
    ensures forall b :: b in buckets && b <= min ==> b <= ReduceBuckets(buckets, min, acc)
    decreases |buckets|
  {
    if buckets != [] {
      var next := if buckets[0] <= min then buckets[0] else acc;
      ReduceBucketsIsLargestAtMost(buckets[1..], min, next);
      var r := ReduceBuckets(buckets, min, acc);
      assert r == ReduceBuckets(buckets[1..], min, next);
      if buckets[0] > min {
        assert forall b :: b in buckets[1..] ==> b > min;
        assert r == next;
      } else {
        if r != buckets[0] {
          var j :| 0 <= j < |buckets[1..]| && buckets[1..][j] == r;
          assert buckets[0] < buckets[j + 1];
        }
        assert buckets[0] <= r;
        forall b | b in buckets && b <= min ensures b <= r {
          if b != buckets[0] {
            var i :| 0 <= i < |buckets| && buckets[i] == b;
            assert b == buckets[1..][i - 1];
            assert b in buckets[1..];
          }
        }
      }
    }
  }

  /** The four phrase shapes of the formatter. */
  datatype Relative = JustNow | MinAgo(n: nat) | HourAgo(h: nat) | HourHalfAgo(h: nat)

  /** Whole minutes elapsed, with a future timestamp counting as zero. */
  function ElapsedMinutes(ts: int, now: int): nat {
    (if now - ts < 0 then 0 else now - ts) / 60000
  }

  /** The phrase `formatRelative(ts, lang, now)` chooses, independent of the language. */
  function RelativeOf(ts: int, now: int): (r: Relative)
    ensures ElapsedMinutes(ts, now) == 0 <==> r == JustNow
    ensures 1 <= ElapsedMinutes(ts, now) < 60 ==>
              && r.MinAgo?
              && r.n in MinBuckets && r.n <= ElapsedMinutes(ts, now)
              && forall b :: b in MinBuckets && b <= ElapsedMinutes(ts, now) ==> b <= r.n
    ensures ElapsedMinutes(ts, now) >= 60 ==>
              && (r.HourAgo? || r.HourHalfAgo?)
              && r.h == ElapsedMinutes(ts, now) / 60 && r.h >= 1
              && (r.HourHalfAgo? <==> ElapsedMinutes(ts, now) % 60 >= 30)
  {
    var min := ElapsedMinutes(ts, now);
    if min == 0 then JustNow
    else if min < 60 then
      ReduceBucketsIsLargestAtMost(MinBuckets, min, 1);
      MinAgo(ReduceBuckets(MinBuckets, min, 1))
    else
      var hours := min / 60;
      var mins := min % 60;
      if mins >= 30 then HourHalfAgo(hours) else HourAgo(hours)
  }

  /** The phrase table `L`: every phrase but "just now" opens with its count. */
  function Phrase(lang: Lang, r: Relative): (s: string)
    ensures |s| > 0
    ensures r.JustNow? ==> !Decimal.IsDigit(s[0])
    ensures r.MinAgo? ==> Decimal.NatToString(r.n) <= s
    ensures r.HourAgo? || r.HourHalfAgo? ==> Decimal.NatToString(r.h) <= s
  {
    match lang
    case Ko => (match r
      case JustNow => "방금 전"
      case MinAgo(n) => Decimal.NatToString(n) + "분 전"
      case HourAgo(h) => Decimal.NatToString(h) + "시간 전"
      case HourHalfAgo(h) => Decimal.NatToString(h) + "시간 30분 전")
    case En => (match r
      case JustNow => "just now"
      case MinAgo(n) => Decimal.NatToString(n) + " min ago"
      case HourAgo(h) => Decimal.NatToString(h) + " hr ago"
      case HourHalfAgo(h) => Decimal.NatToString(h) + " hr 30 min ago")
    case Ja => (match r
      case JustNow => "たった今"
      case MinAgo(n) => Decimal.NatToString(n) + "分前"
      case HourAgo(h) => Decimal.NatToString(h) + "時間前"
      case HourHalfAgo(h) => Decimal.NatToString(h) + "時間30分前")
    case Zh => (match r
      case JustNow => "刚刚"
      case MinAgo(n) => Decimal.NatToString(n) + " 分钟前"
      case HourAgo(h) => Decimal.NatToString(h) + " 小时前"
      case HourHalfAgo(h) => Decimal.NatToString(h) + " 小时30分钟前")
  }

  /** `formatRelative(ts, lang, now)`. */
  function FormatRelative(ts: int, lang: Option<string>, now: int): (s: string)
    ensures ElapsedMinutes(ts, now) == 0 ==> s == Phrase(NormalizeLang(lang), JustNow)
    ensures ElapsedMinutes(ts, now) >= 1 ==> |s| > 0 && Decimal.IsDigit(s[0])
    ensures ElapsedMinutes(ts, now) >= 60 ==> Decimal.NatToString(ElapsedMinutes(ts, now) / 60) <= s
  {
    Phrase(NormalizeLang(lang), RelativeOf(ts, now))
  }

  /** A timestamp in the future reads as "just now". */
  lemma FutureIsJustNow(ts: int, now: int, lang: Option<string>)
    requires ts >= now
    ensures RelativeOf(ts, now) == JustNow
  {
  }

  /** An `en-US` tag is English. */
  lemma EnglishTag()
    ensures NormalizeLang(Some("en-US")) == En
  {
    var tag := ToLower("en-US");
    assert tag[..2][0] == 'e';
  }

  /** Which phrase shape 0, 7, 90 and 125 minutes take. */
  lemma ExampleShapes(now: int)
    ensures RelativeOf(now, now) == JustNow
    ensures RelativeOf(now - 7 * 60000, now) == MinAgo(5)
    ensures RelativeOf(now - 90 * 60000, now) == HourHalfAgo(1)
    ensures RelativeOf(now - 125 * 60000, now) == HourAgo(2)
  {
    assert ElapsedMinutes(now, now) == 0;
    assert ElapsedMinutes(now - 7 * 60000, now) == 7;
    assert ElapsedMinutes(now - 90 * 60000, now) == 90;
    assert ElapsedMinutes(now - 125 * 60000, now) == 125;
    assert ReduceBuckets(MinBuckets, 7, 1) == 5;
  }

  /** Worked values in English: 0 min, 7 min, 90 min and 125 min. */
  lemma EnglishExamples(now: int)
    ensures FormatRelative(now, Some("en-US"), now) == "just now"
    ensures FormatRelative(now - 7 * 60000, Some("en-US"), now) == "5 min ago"
    ensures FormatRelative(now - 90 * 60000, Some("en-US"), now) == "1 hr 30 min ago"
    ensures FormatRelative(now - 125 * 60000, Some("en-US"), now) == "2 hr ago"
  {
    EnglishTag();
    ExampleShapes(now);
    assert Decimal.NatToString(5) == "5" && Decimal.NatToString(1) == "1" && Decimal.NatToString(2) == "2";
  }
}
