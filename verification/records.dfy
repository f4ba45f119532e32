/** The two record shapes the wearable provider returns, and `pick`, the
    probe that reads the first usable numeric field among several names. */
module Records {
  import opened JsMath

  /** The numeric fields of a record, by their provider names. A key maps to a
      value exactly when the record holds a finite number under that name; a
      missing key, a non-numeric value and a non-finite number all read as
      absent, which is how `pick` treats all three. */
  type Fields = map<string, real>

  /** A daily summary: the calendar day it belongs to and its numbers
      (`total_sleep`, `rem_sleep`, `efficiency`, `latency`, ... in mixed units). */
  datatype DailyItem = DailyItem(day: string, fields: Fields)

  /** One sleep session: its bedtimes, as millisecond timestamps when present,
      and its numbers (`total_sleep_duration`, `awake_duration`, ... in seconds). */
  datatype SleepItem = SleepItem(bedtimeStart: Option<int>, bedtimeEnd: Option<int>, fields: Fields)

  /** The proxy's response: `{ daily?: { data }, sleep?: { data } }`. */
  datatype ApiResp = ApiResp(daily: Option<seq<DailyItem>>, sleep: Option<seq<SleepItem>>)

  function DailyFields(daily: Option<DailyItem>): Option<Fields> {
    if daily.Some? then Some(daily.value.fields) else None
  }

  function SessionFields(sleep: Option<SleepItem>): Option<Fields> {
    if sleep.Some? then Some(sleep.value.fields) else None
  }

  /** `pick(obj, keys)`: the value under the first listed key that holds a
      finite number; none when the record is absent or no key does. */
  function Pick(obj: Option<Fields>, keys: seq<string>): (r: Option<real>)
    ensures r.None? <==> (obj.None? || forall i :: 0 <= i < |keys| ==> keys[i] !in obj.value)
    ensures r.Some? ==>
      exists i :: 0 <= i < |keys| && keys[i] in obj.value && obj.value[keys[i]] == r.value &&
        forall j :: 0 <= j < i ==> keys[j] !in obj.value
  {
    if obj.None? || keys == [] then None
    else if keys[0] in obj.value then Some(obj.value[keys[0]])
    else
      var r := Pick(obj, keys[1..]);
      assert forall i :: 1 <= i < |keys| ==> keys[i] == keys[1..][i - 1];
      r
  }

  /** The `for (const k of keys)` loop of `pick`: the keys are probed in
      order and the first one holding a number ends the loop. */
  method PickFirst(obj: Option<Fields>, keys: seq<string>) returns (r: Option<real>)
    ensures r == Pick(obj, keys)
  {
    var i := 0;
    while i < |keys|
      invariant 0 <= i <= |keys|
      invariant Pick(obj, keys) == Pick(obj, keys[i..])
    {
      assert keys[i..][0] == keys[i] && keys[i..][1..] == keys[i + 1..];
      if obj.Some? && keys[i] in obj.value {
        return Some(obj.value[keys[i]]);
      }
      i := i + 1;
    }
    return None;
  }

  /** Every number of the record is non-negative. */
  predicate NonNegative(obj: Option<Fields>) {
    obj.Some? ==> forall k :: k in obj.value ==> obj.value[k] >= 0.0
  }

  /** A record without negative numbers yields no negative probe. */
  lemma PickNonNegative(obj: Option<Fields>, keys: seq<string>)
    requires NonNegative(obj)
    ensures Pick(obj, keys).Some? ==> Pick(obj, keys).value >= 0.0
  {
  }

  /** Probing a longer key list is probing its first part, then the rest:
      once a key of the first part matches, later keys are never consulted. */
  lemma {:induction false} PickAppend(obj: Option<Fields>, keys: seq<string>, more: seq<string>)
    ensures Pick(obj, keys + more) == Pick(obj, keys).OrElse(Pick(obj, more))
  {
    if obj.Some? && keys != [] {
      assert (keys + more)[0] == keys[0];
      if keys[0] !in obj.value {
        assert (keys + more)[1..] == keys[1..] + more;
        PickAppend(obj, keys[1..], more);
      }
    } else if obj.Some? {
      assert keys + more == more;
    }
  }
}
