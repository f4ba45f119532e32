/** Worked cases of the deriver and the matcher: the unit heuristics on the
    provider's two ways of writing the same quantity, and the choice between
    a nap and a night. */
module WorkedCases {
  import opened JsMath
  import opened Records
  import opened SleepMetrics
  import opened SessionMatcher

  /** Seven hours given as session seconds, nothing else known. */
  lemma SessionSecondsTotal()
    ensures Round1(TotalHours(None, Some(SleepItem(None, None, map["total_sleep_duration" := 25200.0])))) == 7.0
  {
  }

  /** Seven hours given as daily minutes, without a session. */
  lemma DailyMinutesTotal()
    ensures Round1(TotalHours(Some(DailyItem("2025-01-01", map["total_sleep" := 420.0])), None)) == 7.0
  {
  }

  /** A percentage above 1 and the same efficiency written as a fraction give
      the same result, whatever the time in bed and the total. */
  lemma EfficiencyFractionOrPercent(p: real, tib: real, total: real)
    requires 1.0 < p <= 100.0
    ensures EfficiencyPercent(Some(p / 100.0), tib, total) == p
    ensures EfficiencyPercent(Some(p), tib, total) == p
  {
  }

  /** 600 is above the threshold and read as seconds; 10 is read as minutes. */
  lemma LatencySecondsOrMinutes()
    ensures LatencyToMinutes(600.0) == 10
    ensures LatencyToMinutes(10.0) == 10
  {
  }

  /** Of a one-hour nap and a seven-hour night that both start on the day,
      the night is chosen, whichever is listed first. */
  lemma NightChosenOverNap(dayStart: int)
    ensures var nap := SleepItem(Some(dayStart + 14 * HourMs), Some(dayStart + 15 * HourMs),
                                 map["total_sleep_duration" := 3600.0]);
            var night := SleepItem(Some(dayStart + 23 * HourMs), Some(dayStart + 31 * HourMs),
                                   map["total_sleep_duration" := 25200.0]);
            && PickForDay(ApiResp(None, Some([nap, night])), "2025-01-01", dayStart).sleep == Some(night)
            && PickForDay(ApiResp(None, Some([night, nap])), "2025-01-01", dayStart).sleep == Some(night)
  {
  }
}
