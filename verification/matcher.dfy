/** `pickForDay`: the daily record of a calendar day and the sleep session
    that belongs to it. Timestamps are milliseconds; the day is given by its
    label (`"YYYY-MM-DD"`) and by the timestamp of its first millisecond. */
module SessionMatcher {
  import opened JsMath
  import opened Records

  const HourMs: int := 3_600_000
  /** How far the matching window reaches beyond each end of the day. */
  const WindowSlackMs: int := 6 * HourMs
  /** `endOf("day")` minus `startOf("day")` on a 24-hour day. */
  const DayLastMs: int := 86_399_999

  /** `isBetween(startOf(day) - 6h, endOf(day) + 6h, null, "[]")`: both ends
      included. */
  predicate InWindow(t: int, dayStart: int) {
    dayStart - WindowSlackMs <= t <= dayStart + DayLastMs + WindowSlackMs
  }

  /** A session belongs to the day when its start or its end lies in the
      widened window; a missing bedtime never matches. */
  predicate Matches(s: SleepItem, dayStart: int) {
    (s.bedtimeStart.Some? && InWindow(s.bedtimeStart.value, dayStart)) ||
    (s.bedtimeEnd.Some? && InWindow(s.bedtimeEnd.value, dayStart))
  }

  /** The sort key `total_sleep_duration ?? 0`. */
  function Duration(s: SleepItem): real {
    if "total_sleep_duration" in s.fields then s.fields["total_sleep_duration"] else 0.0
  }

  /** `data.find(d => d.day === day)`: the first record labelled with the day. */
  function FindDay(items: seq<DailyItem>, day: string): (r: Option<DailyItem>)
    ensures r.None? <==> forall i :: 0 <= i < |items| ==> items[i].day != day
    ensures r.Some? ==>
      exists i :: 0 <= i < |items| && items[i] == r.value && r.value.day == day &&
        forall j :: 0 <= j < i ==> items[j].day != day
  {
    if items == [] then None
    else if items[0].day == day then Some(items[0])
    else
      var r := FindDay(items[1..], day);
      assert forall i :: 1 <= i < |items| ==> items[i] == items[1..][i - 1];
      r
  }

  /** The sessions that belong to the day, in their original order. */
  function Filter(ss: seq<SleepItem>, dayStart: int): (r: seq<SleepItem>)
    ensures forall x :: x in r <==> x in ss && Matches(x, dayStart)
  {
    if ss == [] then []
    else if Matches(ss[0], dayStart) then [ss[0]] + Filter(ss[1..], dayStart)
    else Filter(ss[1..], dayStart)
  }

  /** Filtering a concatenation filters each part and keeps them in order:
      the kept sessions stay in their input order, duplicates included. */
  lemma {:induction false} FilterAppend(a: seq<SleepItem>, b: seq<SleepItem>, dayStart: int)
    ensures Filter(a + b, dayStart) == Filter(a, dayStart) + Filter(b, dayStart)
  {
    if a == [] {
      assert a + b == b;
    } else {
      assert (a + b)[0] == a[0] && (a + b)[1..] == a[1..] + b;
      FilterAppend(a[1..], b, dayStart);
    }
  }

  ghost predicate SortedLongestFirst(s: seq<SleepItem>) {
    forall i, j :: 0 <= i < j < |s| ==> Duration(s[i]) >= Duration(s[j])
  }

  /** Places `x`, which came before every element of `t` in the input, ahead
      of the first element that is not strictly longer: ties keep input order. */
  function Insert(x: SleepItem, t: seq<SleepItem>): (r: seq<SleepItem>)
    ensures multiset(r) == multiset(t) + multiset{x}
  {
    if t == [] then [x]
    else if Duration(t[0]) <= Duration(x) then [x] + t
    else
      assert t == [t[0]] + t[1..];
      [t[0]] + Insert(x, t[1..])
  }

  lemma PrependSorted(a: SleepItem, s: seq<SleepItem>)
    requires SortedLongestFirst(s)
    requires forall k :: 0 <= k < |s| ==> Duration(s[k]) <= Duration(a)
    ensures SortedLongestFirst([a] + s)
  {
  }

  /** Insertion keeps a longest-first sequence longest first. */
  lemma {:induction false} InsertSorted(x: SleepItem, t: seq<SleepItem>)
    requires SortedLongestFirst(t)
    ensures SortedLongestFirst(Insert(x, t))
  {
    if t != [] && Duration(t[0]) > Duration(x) {
      var tail := Insert(x, t[1..]);
      InsertSorted(x, t[1..]);
      forall k | 0 <= k < |tail| ensures Duration(tail[k]) <= Duration(t[0]) {
        assert tail[k] in multiset(tail);
        if tail[k] != x {
          assert tail[k] in t[1..];
        }
      }
      PrependSorted(t[0], tail);
    } else if t != [] {
      PrependSorted(x, t);
    }
  }

  /** `sort((a, b) => (b.total_sleep_duration ?? 0) - (a.total_sleep_duration ?? 0))`:
      a stable sort, longest session first. The contract states a permutation
      in longest-first order; stability is not stated here but for the one
      element the page reads, the head, in `SortedHeadIsChosen`. */
  function SortByDuration(ss: seq<SleepItem>): (r: seq<SleepItem>)
    ensures multiset(r) == multiset(ss)
    ensures SortedLongestFirst(r)
  {
    if ss == [] then []
    else
      InsertSorted(ss[0], SortByDuration(ss[1..]));
      assert ss == [ss[0]] + ss[1..];
      Insert(ss[0], SortByDuration(ss[1..]))
  }

  /** Index `i` holds the session `pickForDay` is meant to choose: it belongs
      to the day, no session of the day is longer, and every session of the
      day listed before it is strictly shorter. */
  ghost predicate IsChosen(ss: seq<SleepItem>, dayStart: int, i: int) {
    && 0 <= i < |ss|
    && Matches(ss[i], dayStart)
    && (forall j :: 0 <= j < |ss| && Matches(ss[j], dayStart) ==> Duration(ss[j]) <= Duration(ss[i]))
    && (forall j :: 0 <= j < i && Matches(ss[j], dayStart) ==> Duration(ss[j]) < Duration(ss[i]))
  }

  /** A chosen index of the tail stays chosen, one place later, behind a
      first session that does not belong to the day or is strictly shorter. */
  lemma ChosenShift(ss: seq<SleepItem>, dayStart: int, k: int)
    requires ss != [] && IsChosen(ss[1..], dayStart, k)
    requires Matches(ss[0], dayStart) ==> Duration(ss[0]) < Duration(ss[1..][k])
    ensures IsChosen(ss, dayStart, k + 1)
  {
  }

  /** The first session is chosen when it belongs to the day and no later
      session of the day is longer. */
  lemma ChosenFirst(ss: seq<SleepItem>, dayStart: int)
    requires ss != [] && Matches(ss[0], dayStart)
    requires forall j :: 1 <= j < |ss| && Matches(ss[j], dayStart) ==> Duration(ss[j]) <= Duration(ss[0])
    ensures IsChosen(ss, dayStart, 0)
  {
  }

  /** The head of the sorted matches is the earliest longest matching session. */
  lemma {:induction false} SortedHeadIsChosen(ss: seq<SleepItem>, dayStart: int)
    requires Filter(ss, dayStart) != []
    ensures exists i :: IsChosen(ss, dayStart, i) && SortByDuration(Filter(ss, dayStart))[0] == ss[i]
  {
    var rest := ss[1..];
    if !Matches(ss[0], dayStart) {
      SortedHeadIsChosen(rest, dayStart);
      var k :| IsChosen(rest, dayStart, k) && SortByDuration(Filter(rest, dayStart))[0] == rest[k];
      ChosenShift(ss, dayStart, k);
      assert ss[k + 1] == rest[k];
    } else {
      var f := Filter(rest, dayStart);
      assert ([ss[0]] + f)[0] == ss[0] && ([ss[0]] + f)[1..] == f;
      var sorted := SortByDuration(f);
      assert SortByDuration(Filter(ss, dayStart)) == Insert(ss[0], sorted);
      if f == [] {
        forall j | 1 <= j < |ss| ensures !Matches(ss[j], dayStart) {
          assert ss[j] in rest;
        }
        ChosenFirst(ss, dayStart);
      } else {
        assert sorted != [] by {
          assert |multiset(sorted)| == |multiset(f)|;
        }
        SortedHeadIsChosen(rest, dayStart);
        var k :| IsChosen(rest, dayStart, k) && sorted[0] == rest[k];
        if Duration(rest[k]) <= Duration(ss[0]) {
          forall j | 1 <= j < |ss| && Matches(ss[j], dayStart) ensures Duration(ss[j]) <= Duration(ss[0]) {
            assert ss[j] == rest[j - 1];
          }
          ChosenFirst(ss, dayStart);
        } else {
          ChosenShift(ss, dayStart, k);
          assert ss[k + 1] == rest[k];
        }
      }
    }
  }

  /** What `pickForDay` returns. */
  datatype DayRecords = DayRecords(daily: Option<DailyItem>, sleep: Option<SleepItem>)

  /** `pickForDay(resp, day)`: the first daily record labelled with the day,
      and the longest session that belongs to the day (the earliest listed
      among equally long ones), none when no session does. */
  function PickForDay(resp: ApiResp, day: string, dayStart: int): (r: DayRecords)
    ensures r.daily == (if resp.daily.Some? then FindDay(resp.daily.value, day) else None)
    ensures var ss := resp.sleep.GetOr([]);
      r.sleep.None? <==> forall j :: 0 <= j < |ss| ==> !Matches(ss[j], dayStart)
    ensures var ss := resp.sleep.GetOr([]);
      r.sleep.Some? ==> exists i :: IsChosen(ss, dayStart, i) && ss[i] == r.sleep.value
  {
    var daily := if resp.daily.Some? then FindDay(resp.daily.value, day) else None;
    var ss := resp.sleep.GetOr([]);
    var sleeps := SortByDuration(Filter(ss, dayStart));
    if sleeps == [] then
      assert forall j :: 0 <= j < |ss| ==> !Matches(ss[j], dayStart) by {
        forall j | 0 <= j < |ss| ensures !Matches(ss[j], dayStart) {
          assert ss[j] in ss;
          assert |multiset(Filter(ss, dayStart))| == 0;
        }
      }
      DayRecords(daily, None)
    else
      assert Filter(ss, dayStart) != [];
      SortedHeadIsChosen(ss, dayStart);
      DayRecords(daily, Some(sleeps[0]))
  }
}
