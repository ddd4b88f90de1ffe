/** A staff member's reliability: counts over the call-outs they accepted,
    their mean response time, and the composite score in [0, 1]; plus the
    label, colour and response-time display helpers. Scores are exact
    reals. */
module Reliability {
  import opened Domain

  // ---------------------------------------------------------------------
  // Counts and the mean response time
  // ---------------------------------------------------------------------

  /** The call-outs `userId` accepted, in table order. */
  function AcceptedBy(logs: seq<CallOutLog>, userId: int): (r: seq<CallOutLog>)
    ensures |r| <= |logs|
    ensures forall l :: l in r <==> l in logs && l.acceptedById == Some(userId)
  {
    if |logs| == 0 then []
    else (if logs[0].acceptedById == Some(userId) then [logs[0]] else []) + AcceptedBy(logs[1..], userId)
  }

  function MissedCount(logs: seq<CallOutLog>): (n: nat)
    ensures n <= |logs|
    ensures n == 0 <==> forall k :: 0 <= k < |logs| ==> !logs[k].missed
  {
    if |logs| == 0 then 0
    else
      var rest := MissedCount(logs[1..]);
      assert forall k :: 0 < k < |logs| ==> logs[k] == logs[1..][k - 1];
      (if logs[0].missed then 1 else 0) + rest
  }

  /** How many call-outs carry a `respondedAt`. */
  function RespondedCount(logs: seq<CallOutLog>): nat
  {
    if |logs| == 0 then 0
    else (if logs[0].respondedAt.Some? then 1 else 0) + RespondedCount(logs[1..])
  }

  /** Minutes from the call-out's `timestamp` (the shift start) to the
      acceptance (60 000 ms to the minute); negative when the shift was
      accepted before it started. */
  function ResponseMinutes(l: CallOutLog): real
    requires l.respondedAt.Some?
  {
    (l.respondedAt.value - l.timestamp) as real / 60000.0
  }

  function SumResponseMinutes(logs: seq<CallOutLog>): real
  {
    if |logs| == 0 then 0.0
    else (if logs[0].respondedAt.Some? then ResponseMinutes(logs[0]) else 0.0) + SumResponseMinutes(logs[1..])
  }

  /** The arithmetic mean over the call-outs that have a `respondedAt`, or 0
      when none has. */
  function MeanResponseMinutes(logs: seq<CallOutLog>): (m: real)
    ensures RespondedCount(logs) == 0 ==> m == 0.0
    ensures RespondedCount(logs) > 0 ==> m * RespondedCount(logs) as real == SumResponseMinutes(logs)
  {
    var n := RespondedCount(logs);
    if n > 0 then SumResponseMinutes(logs) / n as real else 0.0
  }

  /** `c` added once for every call-out that has a `respondedAt`. */
  function RepeatedPerResponse(logs: seq<CallOutLog>, c: real): real
  {
    if |logs| == 0 then 0.0
    else (if logs[0].respondedAt.Some? then c else 0.0) + RepeatedPerResponse(logs[1..], c)
  }

  lemma {:induction false} RepeatedIsProduct(logs: seq<CallOutLog>, c: real)
    ensures RepeatedPerResponse(logs, c) == c * RespondedCount(logs) as real
  {
    if |logs| > 0 {
      RepeatedIsProduct(logs[1..], c);
      Distribute(c, RespondedCount(logs[1..]) as real);
    }
  }

  /** Term by term comparison of the response sum with `lo` and `hi`. */
  lemma {:induction false} SumBetweenRepeated(logs: seq<CallOutLog>, lo: real, hi: real)
    requires forall k :: 0 <= k < |logs| && logs[k].respondedAt.Some? ==> lo <= ResponseMinutes(logs[k]) <= hi
    ensures RepeatedPerResponse(logs, lo) <= SumResponseMinutes(logs) <= RepeatedPerResponse(logs, hi)
  {
    if |logs| > 0 {
      var rest := logs[1..];
      forall k | 0 <= k < |rest| && rest[k].respondedAt.Some?
        ensures lo <= ResponseMinutes(rest[k]) <= hi
      {
        assert rest[k] == logs[k + 1];
      }
      SumBetweenRepeated(rest, lo, hi);
      if logs[0].respondedAt.Some? {
        assert lo <= ResponseMinutes(logs[0]) <= hi;
      }
    }
  }

  /** If every response took between `lo` and `hi` minutes, the sum lies
      between `lo` and `hi` times the number of responses. */
  lemma SumWithinBounds(logs: seq<CallOutLog>, lo: real, hi: real)
    requires forall k :: 0 <= k < |logs| && logs[k].respondedAt.Some? ==> lo <= ResponseMinutes(logs[k]) <= hi
    ensures lo * RespondedCount(logs) as real <= SumResponseMinutes(logs) <= hi * RespondedCount(logs) as real
  {
    SumBetweenRepeated(logs, lo, hi);
    RepeatedIsProduct(logs, lo);
    RepeatedIsProduct(logs, hi);
  }

  lemma Distribute(x: real, n: real)
    ensures x * (n + 1.0) == x * n + x
  {
  }

  /** Multiplying by a non-negative factor keeps the order. */
  lemma MulLe(x: real, y: real, c: real)
    requires x <= y && 0.0 <= c
    ensures x * c <= y * c
  {
    assert y * c - x * c == (y - x) * c;
  }

  /** Multiplying by a positive factor keeps the strict order. */
  lemma MulLt(x: real, y: real, c: real)
    requires x < y && 0.0 < c
    ensures x * c < y * c
  {
    assert y * c - x * c == (y - x) * c;
  }

  /** A count over a positive total is a fraction in [0, 1]. */
  lemma RatioBounds(part: nat, total: nat)
    requires part <= total && 0 < total
    ensures 0.0 <= part as real / total as real <= 1.0
  {
    var q := part as real / total as real;
    assert q * total as real == part as real;
    if q > 1.0 {
      MulLt(1.0, q, total as real);
    }
    if q < 0.0 {
      MulLt(q, 0.0, total as real);
    }
  }

  /** A quotient of a sum bounded by `lo * n` and `hi * n` lies in [lo, hi]. */
  lemma QuotientBetween(sum: real, n: real, lo: real, hi: real)
    requires 0.0 < n && lo * n <= sum <= hi * n
    ensures lo <= sum / n <= hi
  {
    var m := sum / n;
    assert m * n == sum;
    if m < lo {
      MulLt(m, lo, n);
    }
    if m > hi {
      MulLt(hi, m, n);
    }
  }

  lemma MeanWithinBounds(logs: seq<CallOutLog>, lo: real, hi: real)
    requires forall k :: 0 <= k < |logs| && logs[k].respondedAt.Some? ==> lo <= ResponseMinutes(logs[k]) <= hi
    requires RespondedCount(logs) > 0
    ensures lo <= MeanResponseMinutes(logs) <= hi
  {
    SumWithinBounds(logs, lo, hi);
    QuotientBetween(SumResponseMinutes(logs), RespondedCount(logs) as real, lo, hi);
  }

  // ---------------------------------------------------------------------
  // The composite score
  // ---------------------------------------------------------------------

  /** A 5-minute mean response is neutral; every further 60 minutes costs
      the whole factor, down to a floor of 0.1; faster than 5 minutes is
      capped at 1. */
  function ResponseTimeFactor(avgMinutes: real): (f: real)
    ensures 0.1 <= f <= 1.0
    ensures avgMinutes <= 5.0 ==> f == 1.0
    ensures avgMinutes >= 59.0 ==> f == 0.1
  {
    MaxReal(0.1, MinReal(1.0, 1.0 - (avgMinutes - 5.0) / 60.0))
  }

  lemma ProductBounds(a: real, b: real)
    requires 0.3 <= a <= 1.0 && 0.73 <= b <= 1.0
    ensures 0.219 <= a * b <= 1.0
  {
    assert 0.219 <= a * b by {
      MulLe(0.3, a, b);
      MulLe(0.73, b, 0.3);
    }
    assert a * b <= 1.0 by {
      MulLe(a, 1.0, b);
      MulLe(b, 1.0, 1.0);
    }
  }

  /** Completion weighs 70% and response time 30%; the product is clamped to
      [0, 1]. With a completion rate in [0, 1] the score never drops below
      0.3 * 0.73. */
  function CompositeScore(completionRate: real, avgMinutes: real): (s: real)
    ensures 0.0 <= s <= 1.0
    ensures 0.0 <= completionRate <= 1.0 ==> s >= 0.219
  {
    var completion := 0.3 + completionRate * 0.7;
    var response := 0.7 + ResponseTimeFactor(avgMinutes) * 0.3;
    if 0.0 <= completionRate <= 1.0 then
      ProductBounds(completion, response);
      MaxReal(0.0, MinReal(1.0, completion * response))
    else
      MaxReal(0.0, MinReal(1.0, completion * response))
  }

  /** A perfect completion rate with a response at most 5 minutes gives the
      full score 1. */
  lemma PerfectRecordScoresOne(avgMinutes: real)
    requires avgMinutes <= 5.0
    ensures CompositeScore(1.0, avgMinutes) == 1.0
  {
  }

  /** Ten accepted shifts, one missed, answered in 3 minutes on average:
      0.93 * (0.7 + 0.3 * 1) = 0.93. */
  lemma NineOfTenInThreeMinutes()
    ensures CompositeScore(0.9, 3.0) == 0.93
  {
  }

  /** `Math.round(x * 10) / 10` and `Math.round(x * 100) / 100`. */
  function RoundTo1(x: real): (r: real)
    ensures x - 0.05 < r <= x + 0.05
  {
    JsRound(x * 10.0) as real / 10.0
  }

  function RoundTo2(x: real): (r: real)
    ensures x - 0.005 < r <= x + 0.005
    ensures 0.0 <= x <= 1.0 ==> 0.0 <= r <= 1.0
  {
    JsRound(x * 100.0) as real / 100.0
  }

  datatype ReliabilityStats = ReliabilityStats(
    score: real,
    totalShifts: nat,
    completedShifts: nat,
    missedShifts: nat,
    avgResponseTimeMinutes: real,
    completionRate: real)

  const NoHistory := ReliabilityStats(1.0, 0, 0, 0, 0.0, 0.0)

  /** The statistics `CalculateReliabilityScore` reports for `userId`. */
  function ReliabilityOf(logs: seq<CallOutLog>, userId: int): (s: ReliabilityStats)
    ensures 0.0 <= s.score <= 1.0
    ensures s.totalShifts == |AcceptedBy(logs, userId)|
    ensures s.totalShifts == 0 ==> s == NoHistory
    ensures s.totalShifts > 0 ==>
              && s.completedShifts + s.missedShifts == s.totalShifts
              && s.missedShifts == MissedCount(AcceptedBy(logs, userId))
              && 0.0 <= s.completionRate <= 1.0
              && s.score >= 0.219
              && s.score == CompositeScore(s.completedShifts as real / s.totalShifts as real,
                                           MeanResponseMinutes(AcceptedBy(logs, userId)))
              && -0.005 < s.completionRate - s.completedShifts as real / s.totalShifts as real <= 0.005
              && -0.05 < s.avgResponseTimeMinutes - MeanResponseMinutes(AcceptedBy(logs, userId)) <= 0.05
  {
    var accepted := AcceptedBy(logs, userId);
    var total := |accepted|;
    if total == 0 then NoHistory
    else
      var missed := MissedCount(accepted);
      var rate := (total - missed) as real / total as real;
      RatioBounds(total - missed, total);
      var avg := MeanResponseMinutes(accepted);
      ReliabilityStats(CompositeScore(rate, avg), total, total - missed, missed, RoundTo1(avg), RoundTo2(rate))
  }

  /** Computes the statistics over the call-outs `userId` accepted,
      multiplying the two factors into `score` one after the other. */
  method CalculateReliabilityScore(logs: seq<CallOutLog>, userId: int) returns (stats: ReliabilityStats)
    ensures stats == ReliabilityOf(logs, userId)
  {
    var accepted := AcceptedBy(logs, userId);
    var totalShifts := |accepted|;
    if totalShifts == 0 {
      return NoHistory;
    }
    var missedShifts := MissedCount(accepted);
    var completedShifts := totalShifts - missedShifts;
    var completionRate := completedShifts as real / totalShifts as real;
    var avgResponseTimeMinutes := MeanResponseMinutes(accepted);

    var score := 1.0;
    score := score * (0.3 + completionRate * 0.7);
    var responseTimeFactor := MaxReal(0.1, MinReal(1.0, 1.0 - (avgResponseTimeMinutes - 5.0) / 60.0));
    score := score * (0.7 + responseTimeFactor * 0.3);
    score := MaxReal(0.0, MinReal(1.0, score));
    assert score == CompositeScore(completionRate, avgResponseTimeMinutes);

    stats := ReliabilityStats(score, totalShifts, completedShifts, missedShifts,
                              RoundTo1(avgResponseTimeMinutes), RoundTo2(completionRate));
  }

  // ---------------------------------------------------------------------
  // Labels and colours
  // ---------------------------------------------------------------------

  const EMERALD := "text-emerald-600 bg-emerald-50 border-emerald-200"
  const YELLOW := "text-yellow-600 bg-yellow-50 border-yellow-200"
  const RED := "text-red-600 bg-red-50 border-red-200"

  /** Emerald from 0.8, yellow from 0.6, red below. */
  function ReliabilityColor(score: real): (color: string)
    ensures color == EMERALD <==> score >= 0.8
    ensures color == YELLOW <==> 0.6 <= score < 0.8
    ensures color == RED <==> score < 0.6
  {
    if score >= 0.8 then EMERALD
    else if score >= 0.6 then YELLOW
    else RED
  }

  /** "Excellent" from 0.9, "Good" from 0.8, "Fair" from 0.6,
      "Needs Improvement" below. */
  function ReliabilityLabel(score: real): (text: string)
    ensures text == "Excellent" <==> score >= 0.9
    ensures text == "Good" <==> 0.8 <= score < 0.9
    ensures text == "Fair" <==> 0.6 <= score < 0.8
    ensures text == "Needs Improvement" <==> score < 0.6
  {
    if score >= 0.9 then "Excellent"
    else if score >= 0.8 then "Good"
    else if score >= 0.6 then "Fair"
    else "Needs Improvement"
  }

  function LabelRank(name: string): nat
  {
    if name == "Excellent" then 3
    else if name == "Good" then 2
    else if name == "Fair" then 1
    else 0
  }

  /** The colour refines nothing the label does not: emerald for
      "Excellent" and "Good", yellow for "Fair", red otherwise. */
  lemma LabelAndColorAgree(score: real)
    ensures ReliabilityColor(score) == EMERALD <==> ReliabilityLabel(score) in {"Excellent", "Good"}
    ensures ReliabilityColor(score) == YELLOW <==> ReliabilityLabel(score) == "Fair"
    ensures ReliabilityColor(score) == RED <==> ReliabilityLabel(score) == "Needs Improvement"
  {
  }

  function ColorRank(color: string): nat
  {
    if color == EMERALD then 2
    else if color == YELLOW then 1
    else 0
  }

  /** A higher score never gets a worse colour. */
  lemma ColorMonotone(s1: real, s2: real)
    requires s1 <= s2
    ensures ColorRank(ReliabilityColor(s1)) <= ColorRank(ReliabilityColor(s2))
  {
  }

  /** A higher score never gets a worse label. */
  lemma LabelMonotone(s1: real, s2: real)
    requires s1 <= s2
    ensures LabelRank(ReliabilityLabel(s1)) <= LabelRank(ReliabilityLabel(s2))
  {
  }

  // ---------------------------------------------------------------------
  // Response-time display
  // ---------------------------------------------------------------------

  /** The parts `formatResponseTime` prints. */
  datatype ResponseDisplay = UnderAMinute | Minutes(m: nat) | HoursMinutes(h: nat, m: nat)
  {
    /** The parts printed: minutes as digits and "m", hours as digits and
        "h", followed by " " and the minutes only when they are positive. */
    function Text(): (t: string)
      ensures UnderAMinute? ==> t == "< 1m"
      ensures Minutes? ==> t == NatToString(m) + "m"
      ensures HoursMinutes? ==> t == HoursText(h, m)
    {
      match this
      case UnderAMinute => "< 1m"
      case Minutes(m) => NatToString(m) + "m"
      case HoursMinutes(h, m) => HoursText(h, m)
    }
  }

  /** Hours then, only when positive, the minutes. */
  function HoursText(h: nat, m: nat): (t: string)
    ensures |t| >= |NatToString(h)| + 1 && t[..|NatToString(h)| + 1] == NatToString(h) + "h"
    ensures |t| > |NatToString(h)| + 1 <==> m > 0
    ensures m > 0 ==> t[|NatToString(h)| + 1..] == " " + NatToString(m) + "m"
  {
    NatToString(h) + "h" + (if m > 0 then " " + NatToString(m) + "m" else "")
  }

  /** As written: below 1 minute "< 1m"; below 60, the rounded minutes;
      otherwise whole hours and the rounded remainder, shown when positive.
      The remainder is rounded after the hours are taken, so it can reach
      60. */
  function ResponseTimeParts(minutes: real): (d: ResponseDisplay)
    ensures d.UnderAMinute? <==> minutes < 1.0
    ensures d.Minutes? <==> 1.0 <= minutes < 60.0
    ensures d.Minutes? ==> 1 <= d.m <= 60 && minutes - 0.5 < d.m as real <= minutes + 0.5
    ensures d.HoursMinutes? ==> d.h >= 1 && d.m <= 60
    ensures d.HoursMinutes? ==>
              && 60.0 * d.h as real <= minutes < 60.0 * (d.h + 1) as real
              && minutes - 0.5 < (60 * d.h + d.m) as real <= minutes + 0.5
  {
    if minutes < 1.0 then UnderAMinute
    else if minutes < 60.0 then Minutes(JsRound(minutes))
    else
      var hours := JsFloor(minutes / 60.0);
      HoursMinutes(hours, JsRound(minutes - 60.0 * hours as real))
  }

  /** The text shown for a mean response time: "< 1m" exactly below one
      minute, a minute count ending in "m" below an hour, and an hour count
      with "h" from an hour on. */
  function FormatResponseTime(minutes: real): (text: string)
    ensures text == "< 1m" <==> minutes < 1.0
    ensures 1.0 <= minutes < 60.0 ==> |text| >= 2 && text[|text| - 1] == 'm' && 'h' !in text
    ensures 60.0 <= minutes ==> 'h' in text
    ensures 1.0 <= minutes < 60.0 ==>
              exists m: nat :: minutes - 0.5 < m as real <= minutes + 0.5 && text == NatToString(m) + "m"
    ensures 60.0 <= minutes ==>
              exists h: nat, m: nat ::
                && 60.0 * h as real <= minutes < 60.0 * (h + 1) as real
                && minutes - 0.5 < (60 * h + m) as real <= minutes + 0.5
                && text == HoursText(h, m)
  {
    var d := ResponseTimeParts(minutes);
    var text := d.Text();
    if d.Minutes? then
      var digits := NatToString(d.m);
      assert text == digits + "m";
      assert text[0] == digits[0];
      assert forall k :: 0 <= k < |digits| ==> text[k] == digits[k];
      text
    else if d.HoursMinutes? then
      var digits := NatToString(d.h);
      assert text[..|digits| + 1] == digits + "h";
      assert text[0] == digits[0];
      assert text[|digits|] == 'h';
      text
    else text
  }

  /** 119.6 minutes is shown as one hour and sixty minutes. */
  lemma SixtyMinutesShown()
    ensures ResponseTimeParts(119.6) == HoursMinutes(1, 60)
    ensures ResponseTimeParts(59.6) == Minutes(60)
  {
    assert JsFloor(119.6 / 60.0) == 1;
  }

  /** Rounds the whole duration first, then splits it: the minute part is
      always below 60 and hours and minutes add up to the rounded
      duration. */
  function CarriedResponseTimeParts(minutes: real): (d: ResponseDisplay)
    ensures d.Minutes? ==> 1 <= d.m < 60 && d.m == JsRound(minutes)
    ensures d.HoursMinutes? ==> d.h >= 1 && d.m < 60 && d.h * 60 + d.m == JsRound(minutes)
    ensures d.UnderAMinute? <==> minutes < 1.0
  {
    if minutes < 1.0 then UnderAMinute
    else
      var total := JsRound(minutes);
      if total < 60 then Minutes(total) else HoursMinutes(total / 60, total % 60)
  }

  lemma CarriedShowsTwoHours()
    ensures CarriedResponseTimeParts(119.6) == HoursMinutes(2, 0)
    ensures FormatResponseTimeCarried(119.6) == "2h"
  {
  }

  /** The corrected text: the rounded total printed as minutes below an
      hour, and otherwise as hours with a minute part below 60. */
  function FormatResponseTimeCarried(minutes: real): (text: string)
    ensures text == "< 1m" <==> minutes < 1.0
    ensures 1.0 <= minutes && JsRound(minutes) < 60 ==> text == NatToString(JsRound(minutes)) + "m"
    ensures 1.0 <= minutes && JsRound(minutes) >= 60 ==>
              exists h: nat, m: nat :: m < 60 && 60 * h + m == JsRound(minutes) && text == HoursText(h, m)
  {
    var d := CarriedResponseTimeParts(minutes);
    var text := d.Text();
    if d.Minutes? then
      assert text[0] == NatToString(d.m)[0];
      text
    else if d.HoursMinutes? then
      assert text[0] == NatToString(d.h)[0];
      text
    else text
  }
}
