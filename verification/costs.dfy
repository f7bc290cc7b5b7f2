/**
 * The aggregated meeting-cost chart: calendar events are filtered by the one
 * active dimension (sprint or milestone), bucketed by period, summed per
 * bucket, and listed in ascending period order.
 */
module Costs {
  import opened Common
  import opened Domain
  import opened Strings

  /** The selection the chart depends on. */
  datatype CostQuery = CostQuery(
    timePeriod: string,       // "day", "month" or "year"
    filterBy: string,         // "sprint" or "milestone"
    sprintFilter: string,
    milestoneFilter: string)

  datatype CostPoint = CostPoint(period: string, cost: int)

  /**
   * Whether an event passes the filter: only the dimension named by `filterBy`
   * constrains, the other selection is ignored.
   */
  predicate Survives(e: CalendarEvent, q: CostQuery)
  {
    && (q.filterBy == "sprint" ==> e.sprint == q.sprintFilter)
    && (q.filterBy == "milestone" ==> e.milestone == q.milestoneFilter)
  }

  /** The bucket of an event: its day key (or "Unk" when it has none), month key or year key. */
  function PeriodKey(e: CalendarEvent, timePeriod: string): (r: string)
    ensures timePeriod == "day" && e.day.Some? ==> r == e.day.value
    ensures timePeriod == "month" ==> r == e.monthKey
    ensures timePeriod != "day" && timePeriod != "month" ==> r == e.yearKey
  {
    if timePeriod == "day" then e.day.GetOr("Unk")
    else if timePeriod == "month" then e.monthKey
    else e.yearKey
  }

  /** The "Unk" fallback applies to a missing day only; an empty day stays "". */
  lemma DayFallback(e: CalendarEvent)
    ensures e.day.None? ==> PeriodKey(e, "day") == "Unk"
    ensures e.day == Some("") ==> PeriodKey(e, "day") == ""
  {
  }

  /** `events.filter(...)`: the events that pass the filter, in order. */
  function Survivors(events: seq<CalendarEvent>, q: CostQuery): (r: seq<CalendarEvent>)
    ensures |r| <= |events|
    ensures forall e :: e in r <==> e in events && Survives(e, q)
    ensures forall e :: multiset(r)[e] == if Survives(e, q) then multiset(events)[e] else 0
    ensures IsSubsequence(r, events)
  {
    if |events| == 0 then []
    else
      var init, last := events[..|events| - 1], events[|events| - 1];
      var rest := Survivors(init, q);
      assert events == init + [last];
      assert multiset(events) == multiset(init) + multiset{last};
      if Survives(last, q) then
        SubsequenceKeepLast(rest, init, last);
        assert multiset(rest + [last]) == multiset(rest) + multiset{last};
        rest + [last]
      else
        SubsequenceSkipLast(rest, init, last);
        rest
  }

  /** The summed cost of the events in bucket `key`. */
  function SumFor(evs: seq<CalendarEvent>, timePeriod: string, key: string): int
  {
    if |evs| == 0 then 0
    else
      var last := evs[|evs| - 1];
      SumFor(evs[..|evs| - 1], timePeriod, key) + (if PeriodKey(last, timePeriod) == key then last.cost else 0)
  }

  /** The summed cost of the events that pass the filter and fall in bucket `key`. */
  function SumWhere(events: seq<CalendarEvent>, q: CostQuery, key: string): int
  {
    if |events| == 0 then 0
    else
      var last := events[|events| - 1];
      SumWhere(events[..|events| - 1], q, key)
        + (if Survives(last, q) && PeriodKey(last, q.timePeriod) == key then last.cost else 0)
  }

  /** Summing a bucket over the survivors counts exactly the matching events. */
  lemma {:induction false} SumForSurvivors(events: seq<CalendarEvent>, q: CostQuery, key: string)
    ensures SumFor(Survivors(events, q), q.timePeriod, key) == SumWhere(events, q, key)
  {
    if |events| > 0 {
      var init, last := events[..|events| - 1], events[|events| - 1];
      SumForSurvivors(init, q, key);
      var s := Survivors(init, q);
      if Survives(last, q) {
        var t := s + [last];
        assert Survivors(events, q) == t;
        assert t[..|t| - 1] == s && t[|t| - 1] == last;
        assert SumFor(t, q.timePeriod, key) == SumFor(s, q.timePeriod, key)
          + (if PeriodKey(last, q.timePeriod) == key then last.cost else 0);
      } else {
        assert Survivors(events, q) == s;
      }
    }
  }

  /** The cost of all given events. */
  function TotalCost(evs: seq<CalendarEvent>): int
  {
    if |evs| == 0 then 0 else TotalCost(evs[..|evs| - 1]) + evs[|evs| - 1].cost
  }

  /** The buckets the given events fall into. */
  function KeysOf(evs: seq<CalendarEvent>, timePeriod: string): set<string>
  {
    if |evs| == 0 then {}
    else KeysOf(evs[..|evs| - 1], timePeriod) + {PeriodKey(evs[|evs| - 1], timePeriod)}
  }

  /** A key is a bucket of the events exactly when some event falls into it. */
  lemma {:induction false} KeysOfMembers(evs: seq<CalendarEvent>, timePeriod: string)
    ensures forall k :: k in KeysOf(evs, timePeriod) <==> exists e :: e in evs && PeriodKey(e, timePeriod) == k
  {
    if |evs| > 0 {
      var init, last := evs[..|evs| - 1], evs[|evs| - 1];
      KeysOfMembers(init, timePeriod);
      assert evs == init + [last];
      assert forall e :: e in evs <==> e in init || e == last;
    }
  }

  /** A bucket no event falls into sums to 0. */
  lemma {:induction false} SumForOutsideKeys(evs: seq<CalendarEvent>, timePeriod: string, key: string)
    requires key !in KeysOf(evs, timePeriod)
    ensures SumFor(evs, timePeriod, key) == 0
  {
    if |evs| > 0 {
      SumForOutsideKeys(evs[..|evs| - 1], timePeriod, key);
    }
  }

  function Periods(r: seq<CostPoint>): (ks: seq<string>)
    ensures |ks| == |r| && forall i :: 0 <= i < |r| ==> ks[i] == r[i].period
  {
    if |r| == 0 then [] else Periods(r[..|r| - 1]) + [r[|r| - 1].period]
  }

  /** The cost shown over all bars of the chart. */
  function CostSum(r: seq<CostPoint>): int
  {
    if |r| == 0 then 0 else CostSum(r[..|r| - 1]) + r[|r| - 1].cost
  }

  /** The bucket sums of `evs` over the keys `ks`, added up. */
  function SumKeys(evs: seq<CalendarEvent>, timePeriod: string, ks: seq<string>): int
  {
    if |ks| == 0 then 0 else SumKeys(evs, timePeriod, ks[..|ks| - 1]) + SumFor(evs, timePeriod, ks[|ks| - 1])
  }

  /** Adding one event to the events adds its cost to exactly the one key it falls in. */
  lemma {:induction false} SumKeysStep(p: seq<CalendarEvent>, e: CalendarEvent, timePeriod: string, ks: seq<string>)
    requires Ascending(ks)
    ensures SumKeys(p + [e], timePeriod, ks)
      == SumKeys(p, timePeriod, ks) + (if PeriodKey(e, timePeriod) in ks then e.cost else 0)
  {
    assert (p + [e])[..|p|] == p;
    if |ks| > 0 {
      var init, k := ks[..|ks| - 1], ks[|ks| - 1];
      assert Ascending(init);
      SumKeysStep(p, e, timePeriod, init);
      assert k !in init by {
        forall i | 0 <= i < |init| ensures init[i] != k {
          AscendingDistinct(ks, i, |ks| - 1);
        }
      }
      assert ks == init + [k];
    }
  }

  /** Over a list of distinct keys covering every bucket, the bucket sums add up to the total. */
  lemma {:induction false} SumOverAllKeys(evs: seq<CalendarEvent>, timePeriod: string, ks: seq<string>)
    requires Ascending(ks)
    requires forall k :: k in KeysOf(evs, timePeriod) ==> k in ks
    ensures SumKeys(evs, timePeriod, ks) == TotalCost(evs)
  {
    if |evs| == 0 {
      SumKeysOfNothing(timePeriod, ks);
    } else {
      var init, last := evs[..|evs| - 1], evs[|evs| - 1];
      assert evs == init + [last];
      SumOverAllKeys(init, timePeriod, ks);
      SumKeysStep(init, last, timePeriod, ks);
    }
  }

  lemma {:induction false} SumKeysOfNothing(timePeriod: string, ks: seq<string>)
    ensures SumKeys([], timePeriod, ks) == 0
  {
    if |ks| > 0 {
      SumKeysOfNothing(timePeriod, ks[..|ks| - 1]);
    }
  }

  /** The reduce step: a record from each bucket to the summed cost of its events. */
  method SumByPeriod(f: seq<CalendarEvent>, timePeriod: string) returns (acc: map<string, int>)
    ensures acc.Keys == KeysOf(f, timePeriod)
    ensures forall k :: k in acc ==> acc[k] == SumFor(f, timePeriod, k)
  {
    acc := map[];
    var i := 0;
    while i < |f|
      invariant 0 <= i <= |f|
      invariant acc.Keys == KeysOf(f[..i], timePeriod)
      invariant forall k :: k in acc ==> acc[k] == SumFor(f[..i], timePeriod, k)
    {
      var pK := PeriodKey(f[i], timePeriod);
      if pK !in acc {
        acc := acc[pK := 0];
        SumForOutsideKeys(f[..i], timePeriod, pK);
      }
      acc := acc[pK := acc[pK] + f[i].cost];
      assert f[..i + 1][..i] == f[..i];
      i := i + 1;
    }
    assert f[..|f|] == f;
  }

  /** `Object.keys(acc).sort()`: the keys of a record, ascending. */
  method SortedKeys(keys: set<string>) returns (ks: seq<string>)
    ensures Ascending(ks)
    ensures forall k :: k in ks <==> k in keys
    ensures keys == {} ==> ks == []
  {
    var rest := keys;
    ks := [];
    while rest != {}
      invariant rest <= keys
      invariant keys == {} ==> ks == []
      invariant Ascending(ks)
      invariant forall k :: k in ks <==> k in keys && k !in rest
      decreases rest
    {
      var k :| k in rest;
      ks := InsertSorted(ks, k);
      rest := rest - {k};
    }
  }

  /** A bucket of the kept events is exactly a key some kept event of `events` falls into. */
  lemma BucketsOfSurvivors(events: seq<CalendarEvent>, q: CostQuery)
    ensures forall k :: k in KeysOf(Survivors(events, q), q.timePeriod) <==>
      exists e :: e in events && Survives(e, q) && PeriodKey(e, q.timePeriod) == k
  {
    var f, tp := Survivors(events, q), q.timePeriod;
    KeysOfMembers(f, tp);
    forall k ensures k in KeysOf(f, tp) <==> exists e :: e in events && Survives(e, q) && PeriodKey(e, tp) == k {
      if k in KeysOf(f, tp) {
        var e :| e in f && PeriodKey(e, tp) == k;
        assert e in events && Survives(e, q);
      }
      if exists e :: e in events && Survives(e, q) && PeriodKey(e, tp) == k {
        var e :| e in events && Survives(e, q) && PeriodKey(e, tp) == k;
        assert e in f;
      }
    }
  }

  /** `.map(key => ({ period: key, cost: acc[key] }))`: one bar per key, in key order. */
  method ToPoints(ks: seq<string>, acc: map<string, int>, f: seq<CalendarEvent>, timePeriod: string)
    returns (r: seq<CostPoint>)
    requires forall k :: k in ks ==> k in acc
    requires forall k :: k in acc ==> acc[k] == SumFor(f, timePeriod, k)
    ensures Periods(r) == ks
    ensures forall t :: 0 <= t < |r| ==> r[t].cost == SumFor(f, timePeriod, ks[t])
    ensures CostSum(r) == SumKeys(f, timePeriod, ks)
  {
    r := [];
    var j := 0;
    while j < |ks|
      invariant 0 <= j <= |ks|
      invariant |r| == j
      invariant forall t :: 0 <= t < j ==> r[t] == CostPoint(ks[t], acc[ks[t]])
      invariant CostSum(r) == SumKeys(f, timePeriod, ks[..j])
    {
      assert ks[..j + 1][..j] == ks[..j];
      assert SumKeys(f, timePeriod, ks[..j + 1]) == SumKeys(f, timePeriod, ks[..j]) + SumFor(f, timePeriod, ks[j]);
      var r' := r + [CostPoint(ks[j], acc[ks[j]])];
      assert r'[..j] == r;
      assert CostSum(r') == CostSum(r) + acc[ks[j]];
      r := r';
      j := j + 1;
    }
    assert ks[..|ks|] == ks;
  }

  /**
   * `aggregatedCostChartData`: the reduce into a record keyed by period, then
   * its keys sorted ascending. Each bar is one bucket of the surviving events
   * with their summed cost; the buckets are distinct and ascending, every
   * bucket of a surviving event has a bar, and the bars add up to the cost of
   * the surviving events.
   */
  method AggregateCosts(events: seq<CalendarEvent>, q: CostQuery) returns (r: seq<CostPoint>)
    ensures Ascending(Periods(r))
    ensures forall k :: k in Periods(r) <==> exists e :: e in events && Survives(e, q) && PeriodKey(e, q.timePeriod) == k
    ensures forall i :: 0 <= i < |r| ==> r[i].cost == SumWhere(events, q, r[i].period)
    ensures CostSum(r) == TotalCost(Survivors(events, q))
    ensures Survivors(events, q) == [] ==> r == []
  {
    var f := Survivors(events, q);
    var tp := q.timePeriod;
    var acc := SumByPeriod(f, tp);
    var ks := SortedKeys(acc.Keys);
    r := ToPoints(ks, acc, f, tp);
    ChartOfBuckets(events, q, ks, r);
  }

  /** The bars built over the sorted buckets of the surviving events form the chart `AggregateCosts` promises. */
  lemma ChartOfBuckets(events: seq<CalendarEvent>, q: CostQuery, ks: seq<string>, r: seq<CostPoint>)
    requires Ascending(ks)
    requires forall k :: k in ks <==> k in KeysOf(Survivors(events, q), q.timePeriod)
    requires Periods(r) == ks
    requires forall t :: 0 <= t < |r| ==> r[t].cost == SumFor(Survivors(events, q), q.timePeriod, ks[t])
    requires CostSum(r) == SumKeys(Survivors(events, q), q.timePeriod, ks)
    requires KeysOf(Survivors(events, q), q.timePeriod) == {} ==> ks == []
    ensures Ascending(Periods(r))
    ensures forall k :: k in Periods(r) <==> exists e :: e in events && Survives(e, q) && PeriodKey(e, q.timePeriod) == k
    ensures forall i :: 0 <= i < |r| ==> r[i].cost == SumWhere(events, q, r[i].period)
    ensures CostSum(r) == TotalCost(Survivors(events, q))
    ensures Survivors(events, q) == [] ==> r == []
  {
    var f, tp := Survivors(events, q), q.timePeriod;
    SumOverAllKeys(f, tp, ks);
    BucketsOfSurvivors(events, q);
    forall t | 0 <= t < |r| ensures r[t].cost == SumWhere(events, q, r[t].period) {
      assert r[t].period == ks[t];
      SumForSurvivors(events, q, ks[t]);
    }
    if f == [] {
      assert KeysOf(f, tp) == {};
    }
  }
}
