/**
 * The statistics the client derives from its task history: the average
 * cycle duration, per-task success and failure counts, and the tasks
 * ranked by the time spent in them.
 */
module Statistics {
  import opened History

  // ---------------------------------------------------------------- average cycle duration

  /** The durations of the cycles the average counts: those whose duration is set and truthy (non-zero). */
  function TimedDurations(h: seq<HistoryEntry>): (r: seq<int>)
    ensures |r| <= |h|
    ensures forall d :: d in r ==> d != 0
  {
    if h == [] then []
    else
      var init := TimedDurations(h[..|h| - 1]);
      var last := h[|h| - 1];
      if last.duration.Some? && last.duration.value != 0 then init + [last.duration.value] else init
  }

  function Sum(s: seq<int>): int
  {
    if s == [] then 0 else Sum(s[..|s| - 1]) + s[|s| - 1]
  }

  /** Sums of bounded values are bounded by the count times the bound. */
  lemma {:induction false} SumBounds(s: seq<int>, lo: int, hi: int)
    requires forall d :: d in s ==> lo <= d <= hi
    ensures lo * |s| <= Sum(s) <= hi * |s|
    decreases |s|
  {
    if s != [] {
      var init := s[..|s| - 1];
      assert forall d :: d in init ==> d in s;
      SumBounds(init, lo, hi);
      assert s[|s| - 1] in s;
      assert lo * |s| == lo * |init| + lo;
      assert hi * |s| == hi * |init| + hi;
    }
  }

  /** The mean of the counted durations, 0 when there are none. */
  method CalculateAverageCycleDuration(h: seq<HistoryEntry>) returns (avg: real)
    ensures var ds := TimedDurations(h);
            avg == if ds == [] then 0.0 else Sum(ds) as real / |ds| as real
  {
    var total := 0;
    var count := 0;
    for i := 0 to |h|
      invariant total == Sum(TimedDurations(h[..i]))
      invariant count == |TimedDurations(h[..i])|
    {
      assert h[..i + 1][..i] == h[..i];
      var d := h[i].duration;
      if d.Some? && d.value != 0 {
        total := total + d.value;
        count := count + 1;
      }
    }
    assert h[..|h|] == h;
    if count == 0 {
      return 0.0;
    }
    avg := total as real / count as real;
  }

  /** Dividing bounds on `x` by a positive `n` bounds `x / n`. */
  lemma DivideBounds(x: real, n: real, lo: real, hi: real)
    requires n > 0.0 && lo * n <= x <= hi * n
    ensures lo <= x / n <= hi
  {
    assert x / n - lo == (x - lo * n) / n;
    assert hi - x / n == (hi * n - x) / n;
  }

  lemma CastProduct(a: int, b: int)
    ensures (a * b) as real == a as real * b as real
  {
  }

  /** The mean of bounded durations lies between the bounds. */
  lemma MeanWithinBounds(ds: seq<int>, lo: int, hi: int)
    requires ds != []
    requires forall d :: d in ds ==> lo <= d <= hi
    ensures lo as real <= Sum(ds) as real / |ds| as real <= hi as real
  {
    SumBounds(ds, lo, hi);
    CastProduct(lo, |ds|);
    CastProduct(hi, |ds|);
    DivideBounds(Sum(ds) as real, |ds| as real, lo as real, hi as real);
  }

  /** The average lies between the shortest and the longest counted cycle. */
  lemma AverageWithinBounds(h: seq<HistoryEntry>, lo: int, hi: int)
    requires TimedDurations(h) != []
    requires forall d :: d in TimedDurations(h) ==> lo <= d <= hi
    ensures var ds := TimedDurations(h);
            lo as real <= Sum(ds) as real / |ds| as real <= hi as real
  {
    MeanWithinBounds(TimedDurations(h), lo, hi);
  }

  // ---------------------------------------------------------------- outcomes across cycles

  /** Every completed outcome of every cycle, cycle by cycle. */
  function CompletedOutcomes(h: seq<HistoryEntry>): seq<TaskRecord>
  {
    if h == [] then [] else CompletedOutcomes(h[..|h| - 1]) + h[|h| - 1].completedTasks
  }

  /** Every failed outcome of every cycle, cycle by cycle. */
  function FailedOutcomes(h: seq<HistoryEntry>): seq<TaskRecord>
  {
    if h == [] then [] else FailedOutcomes(h[..|h| - 1]) + h[|h| - 1].failedTasks
  }

  /** Every outcome, each cycle's completed ones before its failed ones. */
  function AllOutcomes(h: seq<HistoryEntry>): seq<TaskRecord>
  {
    if h == [] then [] else AllOutcomes(h[..|h| - 1]) + (h[|h| - 1].completedTasks + h[|h| - 1].failedTasks)
  }

  /** How many outcomes carry the name. */
  function CountName(rs: seq<TaskRecord>, name: string): nat
  {
    if rs == [] then 0
    else CountName(rs[..|rs| - 1], name) + if rs[|rs| - 1].name == name then 1 else 0
  }

  /** The summed duration of the outcomes with the name. */
  function TotalDuration(rs: seq<TaskRecord>, name: string): int
  {
    if rs == [] then 0
    else TotalDuration(rs[..|rs| - 1], name) + if rs[|rs| - 1].name == name then rs[|rs| - 1].duration else 0
  }

  lemma {:induction false} CountNameAppend(a: seq<TaskRecord>, b: seq<TaskRecord>, name: string)
    ensures CountName(a + b, name) == CountName(a, name) + CountName(b, name)
    decreases |b|
  {
    if b == [] {
      assert a + b == a;
    } else {
      assert (a + b)[..|a + b| - 1] == a + b[..|b| - 1];
      CountNameAppend(a, b[..|b| - 1], name);
    }
  }

  /** A name that never ran has spent no time. */
  lemma {:induction false} NoRunsNoDuration(rs: seq<TaskRecord>, name: string)
    requires CountName(rs, name) == 0
    ensures TotalDuration(rs, name) == 0
    decreases |rs|
  {
    if rs != [] {
      NoRunsNoDuration(rs[..|rs| - 1], name);
    }
  }

  lemma {:induction false} CountNameZero(rs: seq<TaskRecord>, name: string)
    requires forall r :: r in rs ==> r.name != name
    ensures CountName(rs, name) == 0
    decreases |rs|
  {
    if rs != [] {
      var init := rs[..|rs| - 1];
      assert forall r :: r in init ==> r in rs;
      assert rs[|rs| - 1] in rs;
      CountNameZero(init, name);
    }
  }

  /** The names of the outcomes, each once, in order of first appearance. */
  function Names(rs: seq<TaskRecord>): (r: seq<string>)
    ensures forall n :: n in r <==> CountName(rs, n) > 0
    ensures forall i, j :: 0 <= i < j < |r| ==> r[i] != r[j]
  {
    if rs == [] then []
    else
      var init := Names(rs[..|rs| - 1]);
      if rs[|rs| - 1].name in init then init else init + [rs[|rs| - 1].name]
  }

  // ---------------------------------------------------------------- success counts per task

  /** The counters kept for one task name. */
  datatype TaskStats = TaskStats(success: nat, failed: nat)

  /** The counters of a name, zero when the name was never seen. */
  function Lookup(m: map<string, TaskStats>, name: string): TaskStats
  {
    if name in m then m[name] else TaskStats(0, 0)
  }

  /** Counts each outcome of `rs` once against its name, as a success or as a failure. */
  method Tally(m: map<string, TaskStats>, rs: seq<TaskRecord>, success: bool) returns (r: map<string, TaskStats>)
    ensures forall n :: n in r <==> n in m || CountName(rs, n) > 0
    ensures forall n :: Lookup(r, n).success == Lookup(m, n).success + (if success then CountName(rs, n) else 0)
    ensures forall n :: Lookup(r, n).failed == Lookup(m, n).failed + (if success then 0 else CountName(rs, n))
  {
    r := m;
    for i := 0 to |rs|
      invariant forall n :: n in r <==> n in m || CountName(rs[..i], n) > 0
      invariant forall n :: Lookup(r, n).success == Lookup(m, n).success + (if success then CountName(rs[..i], n) else 0)
      invariant forall n :: Lookup(r, n).failed == Lookup(m, n).failed + (if success then 0 else CountName(rs[..i], n))
    {
      assert rs[..i + 1][..i] == rs[..i];
      var name := rs[i].name;
      var s := Lookup(r, name);
      r := r[name := if success then s.(success := s.success + 1) else s.(failed := s.failed + 1)];
    }
    assert rs[..|rs|] == rs;
  }

  /**
   * `calculateTaskSuccessRates` without the formatted rate: a name is listed
   * exactly when some cycle ran it, with its numbers of completed and failed outcomes.
   */
  method CalculateTaskSuccessRates(h: seq<HistoryEntry>) returns (stats: map<string, TaskStats>)
    ensures forall n :: n in stats <==> CountName(CompletedOutcomes(h), n) + CountName(FailedOutcomes(h), n) > 0
    ensures forall n :: n in stats ==>
              stats[n] == TaskStats(CountName(CompletedOutcomes(h), n), CountName(FailedOutcomes(h), n))
  {
    stats := map[];
    for i := 0 to |h|
      invariant forall n :: n in stats <==> CountName(CompletedOutcomes(h[..i]), n) + CountName(FailedOutcomes(h[..i]), n) > 0
      invariant forall n :: Lookup(stats, n) == TaskStats(CountName(CompletedOutcomes(h[..i]), n), CountName(FailedOutcomes(h[..i]), n))
    {
      assert h[..i + 1][..i] == h[..i];
      forall n
        ensures CountName(CompletedOutcomes(h[..i + 1]), n) == CountName(CompletedOutcomes(h[..i]), n) + CountName(h[i].completedTasks, n)
        ensures CountName(FailedOutcomes(h[..i + 1]), n) == CountName(FailedOutcomes(h[..i]), n) + CountName(h[i].failedTasks, n)
      {
        CountNameAppend(CompletedOutcomes(h[..i]), h[i].completedTasks, n);
        CountNameAppend(FailedOutcomes(h[..i]), h[i].failedTasks, n);
      }
      stats := Tally(stats, h[i].completedTasks, true);
      stats := Tally(stats, h[i].failedTasks, false);
    }
    assert h[..|h|] == h;
    assert forall n :: n in stats ==> Lookup(stats, n) == stats[n];
  }

  /** In a history the cycle produced, only the story task is ever counted as failed. */
  lemma {:induction false} OnlyStoryTaskFails(h: seq<HistoryEntry>, name: string)
    requires forall i :: 0 <= i < |h| ==> forall r :: r in h[i].failedTasks ==> MayThrow(r.name)
    requires name != "startStructuredStory"
    ensures CountName(FailedOutcomes(h), name) == 0
    decreases |h|
  {
    if h != [] {
      var init := h[..|h| - 1];
      OnlyStoryTaskFails(init, name);
      CountNameZero(h[|h| - 1].failedTasks, name);
      CountNameAppend(FailedOutcomes(init), h[|h| - 1].failedTasks, name);
    }
  }

  // ---------------------------------------------------------------- time per task

  /** One row of the ranking. */
  datatype TaskTiming = TaskTiming(taskName: string, averageDuration: real, totalDuration: int, executionCount: nat)

  /** The row a name gets from a list of outcomes. */
  function TimingOf(rs: seq<TaskRecord>, name: string): (t: TaskTiming)
    ensures t.taskName == name && t.executionCount == CountName(rs, name)
    ensures t.totalDuration == TotalDuration(rs, name)
  {
    var total := TotalDuration(rs, name);
    var count := CountName(rs, name);
    TaskTiming(name, if count > 0 then total as real / count as real else 0.0, total, count)
  }

  function Timings(rs: seq<TaskRecord>, names: seq<string>): (r: seq<TaskTiming>)
    ensures |r| == |names|
    ensures forall i :: 0 <= i < |names| ==> r[i] == TimingOf(rs, names[i])
  {
    seq(|names|, i requires 0 <= i < |names| => TimingOf(rs, names[i]))
  }

  ghost predicate SortedByTotalDesc(s: seq<TaskTiming>)
  {
    forall i, j :: 0 <= i < j < |s| ==> s[i].totalDuration >= s[j].totalDuration
  }

  /** Inserts `t` before the first row whose total is not larger, so equal totals keep their order. */
  function InsertByTotal(t: TaskTiming, s: seq<TaskTiming>): (r: seq<TaskTiming>)
    ensures multiset(r) == multiset(s) + multiset{t}
  {
    if s == [] then [t]
    else if s[0].totalDuration > t.totalDuration then
      assert s == [s[0]] + s[1..];
      [s[0]] + InsertByTotal(t, s[1..])
    else [t] + s
  }

  /** Inserting a row no larger than a bound into rows no larger than it keeps every row within it. */
  lemma {:induction false} InsertStaysBelow(t: TaskTiming, s: seq<TaskTiming>, bound: int)
    requires t.totalDuration <= bound
    requires forall x :: x in s ==> x.totalDuration <= bound
    ensures forall x :: x in InsertByTotal(t, s) ==> x.totalDuration <= bound
    decreases |s|
  {
    if s != [] && s[0].totalDuration > t.totalDuration {
      assert forall x :: x in s[1..] ==> x in s;
      InsertStaysBelow(t, s[1..], bound);
    }
  }

  lemma SortedCons(x: TaskTiming, s: seq<TaskTiming>)
    requires SortedByTotalDesc(s)
    requires forall y :: y in s ==> y.totalDuration <= x.totalDuration
    ensures SortedByTotalDesc([x] + s)
  {
    var r := [x] + s;
    forall i, j | 0 <= i < j < |r|
      ensures r[i].totalDuration >= r[j].totalDuration
    {
      assert r[j] == s[j - 1];
      if i > 0 {
        assert r[i] == s[i - 1];
      }
    }
  }

  lemma {:induction false} InsertKeepsSorted(t: TaskTiming, s: seq<TaskTiming>)
    requires SortedByTotalDesc(s)
    ensures SortedByTotalDesc(InsertByTotal(t, s))
    decreases |s|
  {
    if s == [] {
    } else if s[0].totalDuration > t.totalDuration {
      var tail := s[1..];
      assert SortedByTotalDesc(tail) by {
        forall i, j | 0 <= i < j < |tail|
          ensures tail[i].totalDuration >= tail[j].totalDuration
        {
          assert tail[i] == s[i + 1] && tail[j] == s[j + 1];
        }
      }
      assert forall y :: y in tail ==> y.totalDuration <= s[0].totalDuration by {
        forall y | y in tail
          ensures y.totalDuration <= s[0].totalDuration
        {
          var k :| 0 <= k < |tail| && tail[k] == y;
          assert s[k + 1] == y;
        }
      }
      InsertKeepsSorted(t, tail);
      InsertStaysBelow(t, tail, s[0].totalDuration);
      SortedCons(s[0], InsertByTotal(t, tail));
    } else {
      forall y | y in s
        ensures y.totalDuration <= t.totalDuration
      {
        var k :| 0 <= k < |s| && s[k] == y;
        if k > 0 {
          assert s[0].totalDuration >= s[k].totalDuration;
        }
      }
      SortedCons(t, s);
    }
  }

  /**
   * The array sort with comparator `b.totalDuration - a.totalDuration`: a stable
   * sort by total duration, largest first.
   */
  function SortByTotalDesc(s: seq<TaskTiming>): (r: seq<TaskTiming>)
    ensures multiset(r) == multiset(s)
  {
    if s == [] then []
    else
      assert s == [s[0]] + s[1..];
      InsertByTotal(s[0], SortByTotalDesc(s[1..]))
  }

  /** The sort orders its rows by total duration, largest first. */
  lemma {:induction false} SortIsSorted(s: seq<TaskTiming>)
    ensures SortedByTotalDesc(SortByTotalDesc(s))
    decreases |s|
  {
    if s != [] {
      SortIsSorted(s[1..]);
      InsertKeepsSorted(s[0], SortByTotalDesc(s[1..]));
    }
  }

  /** The running totals kept per name while the outcomes are scanned. */
  datatype Accum = Accum(totalDuration: int, count: nat)

  /** `names` and `acc` hold the aggregate of the outcomes `rs`. */
  ghost predicate Aggregated(rs: seq<TaskRecord>, names: seq<string>, acc: map<string, Accum>)
  {
    && names == Names(rs)
    && (forall n :: n in acc <==> CountName(rs, n) > 0)
    && (forall n :: n in acc ==> acc[n] == Accum(TotalDuration(rs, n), CountName(rs, n)))
  }

  /** Folds one more outcome into the aggregate. */
  method AddOutcome(ghost rs: seq<TaskRecord>, names: seq<string>, acc: map<string, Accum>, t: TaskRecord)
    returns (names': seq<string>, acc': map<string, Accum>)
    requires Aggregated(rs, names, acc)
    ensures Aggregated(rs + [t], names', acc')
  {
    assert (rs + [t])[..|rs|] == rs;
    forall n
      ensures TotalDuration(rs + [t], n) == TotalDuration(rs, n) + (if t.name == n then t.duration else 0)
      ensures CountName(rs + [t], n) == CountName(rs, n) + (if t.name == n then 1 else 0)
    {
    }
    names', acc' := names, acc;
    if t.name !in acc' {
      acc' := acc'[t.name := Accum(0, 0)];
      names' := names' + [t.name];
    }
    acc' := acc'[t.name := Accum(acc'[t.name].totalDuration + t.duration, acc'[t.name].count + 1)];
    forall n | n in acc'
      ensures acc'[n] == Accum(TotalDuration(rs + [t], n), CountName(rs + [t], n))
    {
      if n != t.name {
        assert acc'[n] == acc[n];
      } else if t.name !in acc {
        NoRunsNoDuration(rs, n);
      }
    }
  }

  /** Folds one cycle's outcomes, completed first, into the aggregate. */
  method AddCycle(ghost rs: seq<TaskRecord>, names: seq<string>, acc: map<string, Accum>, e: HistoryEntry)
    returns (names': seq<string>, acc': map<string, Accum>)
    requires Aggregated(rs, names, acc)
    ensures Aggregated(rs + (e.completedTasks + e.failedTasks), names', acc')
  {
    var batch := e.completedTasks + e.failedTasks;
    names', acc' := names, acc;
    assert rs + batch[..0] == rs;
    for j := 0 to |batch|
      invariant Aggregated(rs + batch[..j], names', acc')
    {
      assert rs + batch[..j + 1] == (rs + batch[..j]) + [batch[j]];
      names', acc' := AddOutcome(rs + batch[..j], names', acc', batch[j]);
    }
    assert batch[..|batch|] == batch;
  }

  /** Runs through every cycle of the history, building the aggregate of all its outcomes. */
  method Aggregate(h: seq<HistoryEntry>) returns (names: seq<string>, acc: map<string, Accum>)
    ensures Aggregated(AllOutcomes(h), names, acc)
  {
    names, acc := [], map[];
    for i := 0 to |h|
      invariant Aggregated(AllOutcomes(h[..i]), names, acc)
    {
      assert h[..i + 1][..i] == h[..i];
      names, acc := AddCycle(AllOutcomes(h[..i]), names, acc, h[i]);
    }
    assert h[..|h|] == h;
  }

  /** The ranking holds exactly one row per name that ran, each with that name's own numbers. */
  lemma RankingRows(rs: seq<TaskRecord>)
    ensures var r := SortByTotalDesc(Timings(rs, Names(rs)));
            && (forall t :: t in r ==> t == TimingOf(rs, t.taskName) && t.executionCount > 0)
            && (forall n :: CountName(rs, n) > 0 ==> TimingOf(rs, n) in r)
            && |r| == |Names(rs)|
  {
    var names := Names(rs);
    var timings := Timings(rs, names);
    var r := SortByTotalDesc(timings);
    forall t | t in r
      ensures t == TimingOf(rs, t.taskName) && t.executionCount > 0
    {
      assert t in multiset(timings);
      var m :| 0 <= m < |timings| && timings[m] == t;
    }
    forall n | CountName(rs, n) > 0
      ensures TimingOf(rs, n) in r
    {
      var m :| 0 <= m < |names| && names[m] == n;
      assert timings[m] in multiset(r);
    }
    assert |r| == |multiset(r)| == |multiset(timings)| == |timings|;
  }

  /**
   * Every task name that ever ran, once, with its total and average duration
   * and its number of runs, ranked by total duration, largest first.
   */
  method IdentifyMostTimeConsumingTasks(h: seq<HistoryEntry>) returns (r: seq<TaskTiming>)
    ensures r == SortByTotalDesc(Timings(AllOutcomes(h), Names(AllOutcomes(h))))
    ensures SortedByTotalDesc(r)
    ensures forall t :: t in r ==> t == TimingOf(AllOutcomes(h), t.taskName) && t.executionCount > 0
    ensures forall n :: CountName(AllOutcomes(h), n) > 0 ==> TimingOf(AllOutcomes(h), n) in r
  {
    var names, acc := Aggregate(h);
    ghost var all := AllOutcomes(h);
    var timings: seq<TaskTiming> := [];
    for k := 0 to |names|
      invariant |timings| == k
      invariant forall m :: 0 <= m < k ==> timings[m] == TimingOf(all, names[m])
    {
      var a := acc[names[k]];
      timings := timings + [TaskTiming(names[k], a.totalDuration as real / a.count as real, a.totalDuration, a.count)];
    }
    assert timings == Timings(all, names);
    r := SortByTotalDesc(timings);
    SortIsSorted(timings);
    RankingRows(all);
  }
}
