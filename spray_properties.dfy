/**
 * Properties of the evaluator stated over its specification: what each
 * judgment holds, which entries are judged and in what order, and how the
 * scans read on a time-ordered series.
 */
module SprayProperties {
  import opened Spray

  // ---------------------------------------------------------------------
  // One judgment

  /** The status precedence: an out-of-range temperature gives YELLOW even over RED. */
  lemma JudgmentStatus(ts: seq<Entry>, e: Entry)
    ensures JudgmentFor(ts, e).status == Yellow <==> e.temp < 5.0 || e.temp > 30.0
    ensures JudgmentFor(ts, e).status == Red
            <==> 5.0 <= e.temp <= 30.0 && (e.wind > 3.5 || Next1Precip(e) > 0.2)
    ensures JudgmentFor(ts, e).status == Green
            <==> 5.0 <= e.temp <= 30.0 && e.wind <= 3.5 && Next1Precip(e) <= 0.2
  {
  }

  /** The reasons are exactly the rules that fired, each once, in the order the rules run. */
  lemma ReasonsInRuleOrder(wind: real, temp: real, precip: real)
    ensures StrongWind in ReasonsFor(wind, temp, precip) <==> wind > 3.5
    ensures RainRisk in ReasonsFor(wind, temp, precip) <==> precip > 0.2
    ensures TemperatureCaution in ReasonsFor(wind, temp, precip) <==> temp < 5.0 || temp > 30.0
    ensures forall i, j :: 0 <= i < j < |ReasonsFor(wind, temp, precip)|
              ==> ReasonRank(ReasonsFor(wind, temp, precip)[i]) < ReasonRank(ReasonsFor(wind, temp, precip)[j])
  {
  }

  /**
   * Foliar advice iff the strong-wind rule did not fire, the hour is in a
   * spray window and the wind is under 0.5 m/s; insecticide advice iff it
   * rained recently. Foliar advice comes first.
   */
  lemma RecommendationsInRuleOrder(wind: real, isSprayTime: bool, rainedRecently: bool)
    ensures FoliarFertilizer in RecommendationsFor(wind, isSprayTime, rainedRecently)
            <==> wind <= 3.5 && isSprayTime && wind < 0.5
    ensures InsecticideAfterRain in RecommendationsFor(wind, isSprayTime, rainedRecently) <==> rainedRecently
    ensures forall i, j :: 0 <= i < j < |RecommendationsFor(wind, isSprayTime, rainedRecently)|
              ==> RecommendationsFor(wind, isSprayTime, rainedRecently)[i] == FoliarFertilizer
                  && RecommendationsFor(wind, isSprayTime, rainedRecently)[j] == InsecticideAfterRain
  {
  }

  /** One warning per scan that fired: wash-off risk first, then heat injury risk. */
  lemma WarningsInRuleOrder(rainLater: bool, heat: bool)
    ensures WashOffRisk in WarningsFor(rainLater, heat) <==> rainLater
    ensures HeatInjuryRisk in WarningsFor(rainLater, heat) <==> heat
    ensures forall i, j :: 0 <= i < j < |WarningsFor(rainLater, heat)|
              ==> WarningsFor(rainLater, heat)[i] == WashOffRisk && WarningsFor(rainLater, heat)[j] == HeatInjuryRisk
  {
  }

  /**
   * The judgment carries the hour's own values, the one-hour amount and the
   * condition label; its lists are those above, fed with the three scans of
   * the series at the entry's local time, the look-back being six hours.
   */
  lemma JudgmentValues(ts: seq<Entry>, e: Entry)
    ensures JudgmentFor(ts, e).time == LocalTime(e)
    ensures JudgmentFor(ts, e).wind == e.wind && JudgmentFor(ts, e).temp == e.temp
    ensures JudgmentFor(ts, e).cloudiness == e.cloudiness
    ensures e.next1.Some? ==> JudgmentFor(ts, e).precip == e.next1.value
    ensures e.next1.None? ==> JudgmentFor(ts, e).precip == 0.0
    ensures JudgmentFor(ts, e).condition == WeatherCondition(JudgmentFor(ts, e).precip, e.cloudiness)
    ensures JudgmentFor(ts, e).isSprayTime == InTimeWindow(LocalTime(e))
    ensures JudgmentFor(ts, e).reasons == ReasonsFor(e.wind, e.temp, JudgmentFor(ts, e).precip)
    ensures JudgmentFor(ts, e).recommendations
            == RecommendationsFor(e.wind, InTimeWindow(LocalTime(e)), RecentRain(ts, LocalTime(e), 6))
    ensures JudgmentFor(ts, e).warnings
            == WarningsFor(RainLaterToday(ts, LocalTime(e)), SustainedHeat(ts, LocalTime(e)))
  {
  }

  // ---------------------------------------------------------------------
  // Which entries are judged

  /** Positions of the entries at display hours among the first `n`, in order. */
  function DisplayIndices(ts: seq<Entry>, n: nat): seq<nat>
    requires n <= |ts|
  {
    if n == 0 then []
    else DisplayIndices(ts, n - 1) + (if IsDisplayHour(LocalTime(ts[n - 1])) then [n - 1] else [])
  }

  /** The display positions are exactly the positions at hours 4-23, strictly increasing. */
  lemma {:induction false} DisplayIndicesExact(ts: seq<Entry>, n: nat)
    requires n <= |ts|
    ensures |DisplayIndices(ts, n)| <= n
    ensures forall k :: 0 <= k < |DisplayIndices(ts, n)|
              ==> DisplayIndices(ts, n)[k] < n && Hour(LocalTime(ts[DisplayIndices(ts, n)[k]])) >= 4
    ensures forall k, l :: 0 <= k < l < |DisplayIndices(ts, n)|
              ==> DisplayIndices(ts, n)[k] < DisplayIndices(ts, n)[l]
    ensures forall i :: 0 <= i < n && Hour(LocalTime(ts[i])) >= 4 ==> i in DisplayIndices(ts, n)
  {
    if n > 0 {
      DisplayIndicesExact(ts, n - 1);
    }
  }

  /** The k-th value of a displayed-entry map belongs to the k-th displayed entry. */
  lemma {:induction false} MapDisplayedFollowsIndices<T>(ts: seq<Entry>, n: nat, f: Entry -> T)
    requires n <= |ts|
    ensures |MapDisplayed(ts, n, f)| == |DisplayIndices(ts, n)|
    ensures forall k :: 0 <= k < |MapDisplayed(ts, n, f)|
              ==> DisplayIndices(ts, n)[k] < |ts| && MapDisplayed(ts, n, f)[k] == f(ts[DisplayIndices(ts, n)[k]])
  {
    if n > 0 {
      MapDisplayedFollowsIndices(ts, n - 1, f);
    }
  }

  /**
   * The evaluator emits exactly one judgment per entry at local hours 4-23
   * and none for hours 0-3, in input order, so never more judgments than
   * entries.
   */
  lemma EvaluateOnePerDisplayedEntry(ts: seq<Entry>)
    ensures |Evaluate(ts)| == |DisplayIndices(ts, |ts|)| <= |ts|
    ensures forall k :: 0 <= k < |Evaluate(ts)|
              ==> DisplayIndices(ts, |ts|)[k] < |ts|
                  && Evaluate(ts)[k] == JudgmentFor(ts, ts[DisplayIndices(ts, |ts|)[k]])
    ensures forall k, l :: 0 <= k < l < |DisplayIndices(ts, |ts|)|
              ==> DisplayIndices(ts, |ts|)[k] < DisplayIndices(ts, |ts|)[l]
    ensures forall i :: 0 <= i < |ts| ==> (i in DisplayIndices(ts, |ts|) <==> Hour(LocalTime(ts[i])) >= 4)
  {
    DisplayIndicesExact(ts, |ts|);
    MapDisplayedFollowsIndices(ts, |ts|, JudgeAgainst(ts));
  }

  /** Every judgment is for a local hour from 4 to 23. */
  lemma JudgedHoursAreDisplayHours(ts: seq<Entry>)
    ensures forall k :: 0 <= k < |Evaluate(ts)| ==> 4 <= Hour(Evaluate(ts)[k].time) < 24
  {
    EvaluateOnePerDisplayedEntry(ts);
    DisplayIndicesExact(ts, |ts|);
  }

  /** On a time-ordered series the judgments come out in time order. */
  lemma EvaluateInTimeOrder(ts: seq<Entry>)
    requires Sorted(ts)
    ensures forall k, l :: 0 <= k < l < |Evaluate(ts)| ==> Evaluate(ts)[k].time <= Evaluate(ts)[l].time
  {
    EvaluateOnePerDisplayedEntry(ts);
  }

  // ---------------------------------------------------------------------
  // The scans

  /** The upcoming entries are exactly the later same-day entries of the series. */
  lemma {:induction false} UpcomingMembers(ts: seq<Entry>, cur: int)
    ensures forall e :: e in Upcoming(ts, cur) <==> e in ts && IsUpcoming(e, cur)
  {
    if ts != [] {
      var p := ts[..|ts| - 1];
      UpcomingMembers(p, cur);
      assert ts == p + [ts[|ts| - 1]];
    }
  }

  /**
   * On a time-ordered series the stop at the first entry after `cur` loses
   * nothing: recent rain is any rainy entry within the window.
   */
  lemma RecentRainOnSortedSeries(ts: seq<Entry>, cur: int, hours: int)
    requires Sorted(ts)
    ensures RecentRain(ts, cur, hours) <==> exists i :: 0 <= i < |ts| && RainedAt(ts[i], cur, hours)
  {
    if i :| 0 <= i < |ts| && RainedAt(ts[i], cur, hours) {
      assert NotPastBefore(ts, i, cur);
    }
  }

  /** Once no entry lies after `cur`, neither day scan can fire. */
  lemma {:induction false} NothingUpcomingAtEndOfSeries(ts: seq<Entry>, cur: int)
    requires forall i :: 0 <= i < |ts| ==> LocalTime(ts[i]) <= cur
    ensures Upcoming(ts, cur) == []
    ensures !RainLaterToday(ts, cur) && !SustainedHeat(ts, cur)
  {
    if ts != [] {
      NothingUpcomingAtEndOfSeries(ts[..|ts| - 1], cur);
    }
  }
}
