/**
 * The per-hour spraying-suitability evaluator: local time helpers, the
 * weather-condition classifier, the three context scans over the forecast
 * series, and the evaluator that builds one judgment per displayed hour.
 */
module Spray {
  import opened Config

  datatype Option<T> = None | Some(value: T)

  // Times are whole seconds: an hour is 3600 of them, a day 86400.

  /** Japan Standard Time is UTC+9; Japan has kept no daylight saving since 1951. */
  const JstOffset: int := 32400

  /**
   * One forecast step. `utc` is the timestamp in seconds since the epoch;
   * `wind`, `temp` and `cloudiness` are the instant values (0 when the
   * provider leaves one out); `next1` and `next6` are the precipitation
   * amounts of the optional one-hour and six-hour blocks (Some(0.0) when a
   * block is present without an amount).
   */
  datatype Entry = Entry(
    utc: int,
    wind: real,
    temp: real,
    cloudiness: real,
    next1: Option<real>,
    next6: Option<real>)

  /** The series is in ascending time order. */
  predicate Sorted(ts: seq<Entry>) {
    forall i, j :: 0 <= i < j < |ts| ==> ts[i].utc <= ts[j].utc
  }

  // ---------------------------------------------------------------------
  // Local time

  /** The entry's timestamp in local (JST) seconds. */
  function LocalTime(e: Entry): int {
    e.utc + JstOffset
  }

  /** Local clock hour of a local instant. */
  function Hour(t: int): (h: int)
    ensures 0 <= h < 24
  {
    (t % 86400) / 3600
  }

  /** Index of the local calendar day of a local instant. */
  function Day(t: int): int {
    t / 86400
  }

  /** 00:00:00 of the local day of `t`. */
  function DateStart(t: int): (s: int)
    ensures s <= t < s + 86400 && s % 86400 == 0
    ensures Day(s) == Day(t) && Hour(s) == 0
  {
    Day(t) * 86400
  }

  /** 23:59:59 of the local day of `t`. */
  function DateEnd(t: int): (e: int)
    ensures t <= e < t + 86400
    ensures Day(e) == Day(t) && Hour(e) == 23
    ensures Day(e + 1) == Day(t) + 1
  {
    Day(t) * 86400 + 86399
  }

  /** The two-sided bound test of the day scans is the same-calendar-day test. */
  lemma WithinDayIffSameDay(t: int, cur: int)
    ensures DateStart(cur) <= t <= DateEnd(cur) <==> Day(t) == Day(cur)
  {
  }

  /** True iff the hour lies in the early-morning or the evening spray window. */
  function InTimeWindow(t: int): (b: bool)
    ensures b <==> Hour(t) in {4, 5, 6, 16, 17, 18}
  {
    var h := Hour(t);
    (Default.earlyMorning.start <= h < Default.earlyMorning.stop)
    || (Default.evening.start <= h < Default.evening.stop)
  }

  /** The hours shown to the user: 4-7, 8-15, 16-19 and 20-23, i.e. all but 0-3. */
  function IsDisplayHour(t: int): (b: bool)
    ensures b <==> Hour(t) >= 4
  {
    var h := Hour(t);
    (4 <= h <= 7) || (8 <= h <= 15) || (16 <= h <= 19) || (20 <= h <= 23)
  }

  // ---------------------------------------------------------------------
  // Precipitation and condition

  /** The amount the evaluator displays: the one-hour block only, else 0. */
  function Next1Precip(e: Entry): real {
    match e.next1
    case Some(p) => p
    case None => 0.0
  }

  /** The amount the same-day scan uses: the one-hour block, else the six-hour block, else 0. */
  function FallbackPrecip(e: Entry): real {
    match e.next1
    case Some(p) => p
    case None =>
      match e.next6
      case Some(p) => p
      case None => 0.0
  }

  datatype Condition = HeavyRain | LightRain | Clear | Cloudy

  /** First matching branch wins; exactly one of the four labels holds. */
  function WeatherCondition(precip: real, cloudiness: real): (c: Condition)
    ensures c == HeavyRain <==> precip > 1.0
    ensures c == LightRain <==> 0.2 < precip <= 1.0
    ensures c == Clear <==> precip <= 0.2 && cloudiness < 20.0
    ensures c == Cloudy <==> precip <= 0.2 && cloudiness >= 20.0
  {
    if precip > 1.0 then HeavyRain
    else if precip > 0.2 then LightRain
    else if cloudiness < 20.0 then Clear
    else Cloudy
  }

  // ---------------------------------------------------------------------
  // Same-day future rain

  /** A later entry on the same local calendar day as `cur`. */
  predicate IsUpcoming(e: Entry, cur: int) {
    Day(LocalTime(e)) == Day(cur) && LocalTime(e) > cur
  }

  /** A later same-day entry whose amount, with the six-hour fallback, exceeds the rain threshold. */
  predicate RainsLater(e: Entry, cur: int) {
    IsUpcoming(e, cur) && FallbackPrecip(e) > Default.maxPrecipOk
  }

  ghost predicate RainLaterToday(ts: seq<Entry>, cur: int) {
    exists i :: 0 <= i < |ts| && RainsLater(ts[i], cur)
  }

  /**
   * Is rain forecast later on the local day of `cur`? Entries outside that
   * day's 00:00:00-23:59:59 or not after `cur` are skipped; the first one
   * whose amount exceeds the threshold ends the scan.
   */
  method CheckPrecipitationToday(ts: seq<Entry>, cur: int) returns (rain: bool)
    ensures rain <==> RainLaterToday(ts, cur)
  {
    var dateStart := DateStart(cur);
    var dateEnd := DateEnd(cur);
    for i := 0 to |ts|
      invariant forall j :: 0 <= j < i ==> !RainsLater(ts[j], cur)
    {
      var dt := LocalTime(ts[i]);
      WithinDayIffSameDay(dt, cur);
      if dt < dateStart || dt > dateEnd {
        continue;
      }
      if dt <= cur {
        continue;
      }
      var precip := 0.0;
      if ts[i].next1.Some? {
        precip := ts[i].next1.value;
      } else if ts[i].next6.Some? {
        precip := ts[i].next6.value;
      }
      if precip > Default.maxPrecipOk {
        assert RainsLater(ts[i], cur);
        return true;
      }
    }
    return false;
  }

  // ---------------------------------------------------------------------
  // Same-day run of high temperatures

  /** The later same-day entries, in series order. */
  function Upcoming(ts: seq<Entry>, cur: int): (u: seq<Entry>)
    ensures |u| <= |ts|
    ensures forall j :: 0 <= j < |u| ==> IsUpcoming(u[j], cur)
  {
    if ts == [] then []
    else
      var last := ts[|ts| - 1];
      Upcoming(ts[..|ts| - 1], cur) + (if IsUpcoming(last, cur) then [last] else [])
  }

  predicate IsHot(e: Entry) {
    e.temp >= Default.highTempThreshold
  }

  function Max(a: nat, b: nat): nat {
    if a < b then b else a
  }

  /** Length of the run of hot entries that ends `s`. */
  function TrailingRun(s: seq<Entry>): (n: nat)
    ensures n <= |s|
    ensures forall j :: |s| - n <= j < |s| ==> IsHot(s[j])
    ensures n < |s| ==> !IsHot(s[|s| - 1 - n])
  {
    if s == [] || !IsHot(s[|s| - 1]) then 0 else TrailingRun(s[..|s| - 1]) + 1
  }

  /** Length of the longest run seen in `s`, computed left to right. */
  function LongestRun(s: seq<Entry>): (n: nat)
    ensures TrailingRun(s) <= n <= |s|
  {
    if s == [] then 0 else Max(LongestRun(s[..|s| - 1]), TrailingRun(s))
  }

  /** `k` hot entries in a row start at position `i` of `s`. */
  ghost predicate HotFrom(s: seq<Entry>, i: int, k: nat) {
    0 <= i && i + k <= |s| && forall j :: i <= j < i + k ==> IsHot(s[j])
  }

  ghost predicate HasHotRun(s: seq<Entry>, k: nat) {
    exists i :: HotFrom(s, i, k)
  }

  /** The left-to-right maximum really is the length of the longest run. */
  lemma {:induction false} LongestRunIsLongest(s: seq<Entry>, k: nat)
    ensures LongestRun(s) >= k <==> HasHotRun(s, k)
  {
    if s == [] {
      if k == 0 {
        assert HotFrom(s, 0, 0);
      }
    } else {
      var p := s[..|s| - 1];
      LongestRunIsLongest(p, k);
      if LongestRun(s) >= k {
        if LongestRun(p) >= k {
          var i :| HotFrom(p, i, k);
          assert HotFrom(s, i, k);
        } else {
          assert HotFrom(s, |s| - k, k);
        }
      }
      if HasHotRun(s, k) {
        var i :| HotFrom(s, i, k);
        if i + k <= |p| {
          assert HotFrom(p, i, k);
        }
      }
    }
  }

  /** Extending a prefix of the series by one entry extends its upcoming entries by at most that entry. */
  lemma UpcomingStep(ts: seq<Entry>, i: nat, cur: int)
    requires i < |ts|
    ensures Upcoming(ts[..i + 1], cur) == Upcoming(ts[..i], cur) + (if IsUpcoming(ts[i], cur) then [ts[i]] else [])
  {
    assert ts[..i + 1][..i] == ts[..i];
  }

  /** How one more entry changes the trailing and the longest run. */
  lemma RunsStep(u: seq<Entry>, x: Entry)
    ensures TrailingRun(u + [x]) == if IsHot(x) then TrailingRun(u) + 1 else 0
    ensures LongestRun(u + [x]) == Max(LongestRun(u), TrailingRun(u + [x]))
  {
  }

  ghost predicate SustainedHeat(ts: seq<Entry>, cur: int) {
    HasHotRun(Upcoming(ts, cur), Default.highTempDurationHours)
  }

  /**
   * Does a run of at least three hot entries follow `cur` on its local day?
   * A run counts consecutive entries of the filtered series, not clock
   * hours; a cooler entry resets the current run.
   */
  method CheckHighTempDuration(ts: seq<Entry>, cur: int) returns (sustained: bool)
    ensures sustained <==> SustainedHeat(ts, cur)
  {
    var dateStart := DateStart(cur);
    var dateEnd := DateEnd(cur);
    var maxConsecutive: nat := 0;
    var currentConsecutive: nat := 0;
    for i := 0 to |ts|
      invariant currentConsecutive == TrailingRun(Upcoming(ts[..i], cur))
      invariant maxConsecutive == LongestRun(Upcoming(ts[..i], cur))
      invariant currentConsecutive <= maxConsecutive
    {
      ghost var seen := Upcoming(ts[..i], cur);
      UpcomingStep(ts, i, cur);
      var dt := LocalTime(ts[i]);
      WithinDayIffSameDay(dt, cur);
      if dt < dateStart || dt > dateEnd {
        assert Upcoming(ts[..i + 1], cur) == seen;
        continue;
      }
      if dt <= cur {
        assert Upcoming(ts[..i + 1], cur) == seen;
        continue;
      }
      assert Upcoming(ts[..i + 1], cur) == seen + [ts[i]];
      var temp := ts[i].temp;
      RunsStep(seen, ts[i]);
      if temp >= Default.highTempThreshold {
        currentConsecutive := currentConsecutive + 1;
        maxConsecutive := Max(maxConsecutive, currentConsecutive);
      } else {
        currentConsecutive := 0;
      }
    }
    assert ts[..|ts|] == ts;
    LongestRunIsLongest(Upcoming(ts, cur), Default.highTempDurationHours);
    sustained := maxConsecutive >= Default.highTempDurationHours;
  }

  // ---------------------------------------------------------------------
  // Rain in the recent past

  /**
   * `e` starts within the `hours` before `cur` (both ends included), has a
   * one-hour block, and that block's amount exceeds the rain threshold.
   */
  predicate RainedAt(e: Entry, cur: int, hours: int) {
    var dt := LocalTime(e);
    cur - hours * 3600 <= dt <= cur
    && e.next1.Some? && e.next1.value > Default.maxPrecipOk
  }

  /**
   * Some entry rained in the window, and no entry before it in the series
   * lies after `cur` (the scan stops at the first such entry).
   */
  ghost predicate RecentRain(ts: seq<Entry>, cur: int, hours: int) {
    exists i :: 0 <= i < |ts| && RainedAt(ts[i], cur, hours) && NotPastBefore(ts, i, cur)
  }

  /** No entry before position `i` lies after `cur`. */
  ghost predicate NotPastBefore(ts: seq<Entry>, i: int, cur: int)
    requires 0 <= i <= |ts|
  {
    forall j :: 0 <= j < i ==> LocalTime(ts[j]) <= cur
  }

  /**
   * Did it rain in the `hours` up to `cur`? The scan stops at the first
   * entry after `cur` and consults only the one-hour blocks.
   */
  method CheckRainWithinHours(ts: seq<Entry>, cur: int, hours: int) returns (rained: bool)
    ensures rained <==> RecentRain(ts, cur, hours)
  {
    var timeLimit := cur - hours * 3600;
    var i := 0;
    while i < |ts|
      invariant 0 <= i <= |ts|
      invariant forall j :: 0 <= j < i ==> LocalTime(ts[j]) <= cur && !RainedAt(ts[j], cur, hours)
    {
      var dt := LocalTime(ts[i]);
      if dt > cur {
        break;
      }
      if dt < timeLimit {
        i := i + 1;
        continue;
      }
      if ts[i].next1.Some? {
        var precip := ts[i].next1.value;
        var periodEnd := dt + 3600;
        if periodEnd >= timeLimit && dt <= cur && precip > Default.maxPrecipOk {
          assert RainedAt(ts[i], cur, hours);
          return true;
        }
      }
      i := i + 1;
    }
    // Either every entry was scanned, or entry i lies after cur and blocks every later witness.
    assert i < |ts| ==> LocalTime(ts[i]) > cur;
    return false;
  }

  // ---------------------------------------------------------------------
  // The judgment of one hour

  datatype Status = Green | Yellow | Red

  datatype Reason = StrongWind | RainRisk | TemperatureCaution

  datatype Recommendation = FoliarFertilizer | InsecticideAfterRain

  datatype Warning = WashOffRisk | HeatInjuryRisk

  /** One displayed hour: the observed values and the verdict. */
  datatype Judgment = Judgment(
    time: int,                    // local seconds
    wind: real,
    temp: real,
    precip: real,                 // the one-hour block only
    cloudiness: real,
    condition: Condition,
    status: Status,
    reasons: seq<Reason>,
    recommendations: seq<Recommendation>,
    warnings: seq<Warning>,
    isSprayTime: bool)

  predicate TempOutOfRange(temp: real) {
    temp < Default.minTemp || temp > Default.maxTemp
  }

  /**
   * The status after the wind, rain and temperature rules run in that
   * order, each overwriting the last: the temperature rule wins over RED.
   */
  function StatusFor(wind: real, temp: real, precip: real): (s: Status)
    ensures s == Yellow <==> TempOutOfRange(temp)
    ensures s == Red <==> !TempOutOfRange(temp) && (wind > Default.maxWindOk || precip > Default.maxPrecipOk)
    ensures s == Green <==> !TempOutOfRange(temp) && wind <= Default.maxWindOk && precip <= Default.maxPrecipOk
  {
    var afterWind := if wind > Default.maxWindOk then Red else Green;
    var afterRain := if precip > Default.maxPrecipOk then Red else afterWind;
    if TempOutOfRange(temp) then Yellow else afterRain
  }

  /** Position of a reason in the order the rules are evaluated. */
  function ReasonRank(r: Reason): nat {
    match r
    case StrongWind => 0
    case RainRisk => 1
    case TemperatureCaution => 2
  }

  /** The triggered reasons, each at most once, in evaluation order. */
  function ReasonsFor(wind: real, temp: real, precip: real): seq<Reason>
  {
    (if wind > Default.maxWindOk then [StrongWind] else [])
    + (if precip > Default.maxPrecipOk then [RainRisk] else [])
    + (if TempOutOfRange(temp) then [TemperatureCaution] else [])
  }

  /**
   * The foliar advice: given only when the strong-wind rule did not fire,
   * inside a spray window, in calm air.
   */
  function FoliarAdvice(wind: real, isSprayTime: bool): seq<Recommendation> {
    if !(wind > Default.maxWindOk) && isSprayTime && wind < Default.maxWindFoliar then [FoliarFertilizer] else []
  }

  /** The foliar advice, then the insecticide advice when it rained recently. */
  function RecommendationsFor(wind: real, isSprayTime: bool, rainedRecently: bool): seq<Recommendation> {
    FoliarAdvice(wind, isSprayTime) + (if rainedRecently then [InsecticideAfterRain] else [])
  }

  /** The wash-off warning comes before the heat warning. */
  function WarningsFor(rainLater: bool, heat: bool): seq<Warning>
  {
    (if rainLater then [WashOffRisk] else []) + (if heat then [HeatInjuryRisk] else [])
  }

  /** The judgment of entry `e`, with the whole series `ts` as context. */
  ghost function JudgmentFor(ts: seq<Entry>, e: Entry): Judgment {
    var dt := LocalTime(e);
    var spray := InTimeWindow(dt);
    var precip := Next1Precip(e);
    Judgment(
      dt, e.wind, e.temp, precip, e.cloudiness,
      WeatherCondition(precip, e.cloudiness),
      StatusFor(e.wind, e.temp, precip),
      ReasonsFor(e.wind, e.temp, precip),
      RecommendationsFor(e.wind, spray, RecentRain(ts, dt, Default.rainAfterHours)),
      WarningsFor(RainLaterToday(ts, dt), SustainedHeat(ts, dt)),
      spray)
  }

  /** `f` applied to the entries among the first `n` that fall at display hours, in series order. */
  function MapDisplayed<T>(ts: seq<Entry>, n: nat, f: Entry -> T): seq<T>
    requires n <= |ts|
  {
    if n == 0 then []
    else MapDisplayed(ts, n - 1, f) + (if IsDisplayHour(LocalTime(ts[n - 1])) then [f(ts[n - 1])] else [])
  }

  /** Judging one entry with the whole series as context. */
  ghost function JudgeAgainst(ts: seq<Entry>): Entry -> Judgment {
    e => JudgmentFor(ts, e)
  }

  /** What the evaluator returns for the series `ts`. */
  ghost function Evaluate(ts: seq<Entry>): seq<Judgment> {
    MapDisplayed(ts, |ts|, JudgeAgainst(ts))
  }

  /**
   * The rules on the hour's own values, run in source order: each appends
   * to the lists in place and overwrites the status.
   */
  method ApplyHourRules(wind: real, temp: real, precip: real, isSprayTime: bool)
    returns (status: Status, reason: seq<Reason>, recommendations: seq<Recommendation>)
    ensures status == StatusFor(wind, temp, precip)
    ensures reason == ReasonsFor(wind, temp, precip)
    ensures recommendations == FoliarAdvice(wind, isSprayTime)
  {
    status := Green;
    reason := [];
    recommendations := [];

    if wind > Default.maxWindOk {
      status := Red;
      reason := reason + [StrongWind];
    } else if isSprayTime && wind < Default.maxWindFoliar {
      recommendations := recommendations + [FoliarFertilizer];
    }

    if precip > Default.maxPrecipOk {
      status := Red;
      reason := reason + [RainRisk];
    }

    if temp < Default.minTemp || temp > Default.maxTemp {
      status := Yellow;
      reason := reason + [TemperatureCaution];
    }
  }

  /**
   * The body of the evaluator's loop for one entry at a display hour: the
   * hour's own rules, then the three scans of the series, each appending
   * an advisory when it fires.
   */
  method JudgeHour(ts: seq<Entry>, e: Entry) returns (judgment: Judgment)
    ensures judgment == JudgmentFor(ts, e)
  {
    var dt := LocalTime(e);
    var isSprayTime := InTimeWindow(dt);
    var wind, temp, cloudiness := e.wind, e.temp, e.cloudiness;
    var precip := 0.0;
    if e.next1.Some? {
      precip := e.next1.value;
    }
    var condition := WeatherCondition(precip, cloudiness);

    var status, reason, recommendations := ApplyHourRules(wind, temp, precip, isSprayTime);
    var warnings: seq<Warning> := [];

    var rainLater := CheckPrecipitationToday(ts, dt);
    if rainLater {
      warnings := warnings + [WashOffRisk];
    }
    var heat := CheckHighTempDuration(ts, dt);
    if heat {
      warnings := warnings + [HeatInjuryRisk];
    }
    var rainedRecently := CheckRainWithinHours(ts, dt, Default.rainAfterHours);
    if rainedRecently {
      recommendations := recommendations + [InsecticideAfterRain];
    }

    judgment := Judgment(dt, wind, temp, precip, cloudiness, condition, status,
                         reason, recommendations, warnings, isSprayTime);
  }

  /** The evaluator: one judgment per entry at a display hour, in input order. */
  method Judge(ts: seq<Entry>) returns (results: seq<Judgment>)
    ensures results == Evaluate(ts)
  {
    results := [];
    for i := 0 to |ts|
      invariant results == MapDisplayed(ts, i, JudgeAgainst(ts))
    {
      var dt := LocalTime(ts[i]);
      if !IsDisplayHour(dt) {
        continue;
      }
      var judgment := JudgeHour(ts, ts[i]);
      results := results + [judgment];
    }
  }
}
