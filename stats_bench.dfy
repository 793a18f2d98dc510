/** The two statistics routines compared by the statistics benchmark: the
    filter/reduce/sort original, which is `getStats` of the store
    (`Analytics.ComputeStats`), and a single pass that keeps a running
    count, sum and latest date. */
module StatsBench {
  import opened Collections
  import opened Types
  import opened Analytics

  /** The running latest date of the single pass: it starts at 0 and only
      moves to a strictly later date. */
  function LatestOrZero(cs: seq<Crisis>): int
    decreases |cs|
  {
    if cs == [] then 0
    else
      var m := LatestOrZero(cs[..|cs| - 1]);
      if cs[|cs| - 1].date > m then cs[|cs| - 1].date else m
  }

  /** The running value is the latest date, or 0 when every date is at or
      before 0 (the epoch). */
  lemma {:induction false} LatestOrZeroIsMax(cs: seq<Crisis>)
    requires cs != []
    ensures LatestOrZero(cs) == Max(0, MaxDate(cs))
    decreases |cs|
  {
    if |cs| > 1 {
      LatestOrZeroIsMax(cs[..|cs| - 1]);
    }
  }

  /** What the single pass reports as `daysFree`. */
  function OptimizedDaysFree(cs: seq<Crisis>, now: int): nat {
    var latest := LatestOrZero(cs);
    if latest > 0 then DaysSince(now, latest) else 0
  }

  /** The running count of recent records. */
  function RecentCount(cs: seq<Crisis>, now: int): nat
    decreases |cs|
  {
    if cs == [] then 0
    else RecentCount(cs[..|cs| - 1], now) + (if cs[|cs| - 1].date >= Cutoff(now) then 1 else 0)
  }

  /** The running sum of the intensities of recent records. */
  function RecentSum(cs: seq<Crisis>, now: int): int
    decreases |cs|
  {
    if cs == [] then 0
    else RecentSum(cs[..|cs| - 1], now) + (if cs[|cs| - 1].date >= Cutoff(now) then cs[|cs| - 1].intensity else 0)
  }

  /** The running totals are the length and the `reduce` sum of the
      filtered list. */
  lemma {:induction false} RunningTotals(cs: seq<Crisis>, now: int)
    ensures RecentCount(cs, now) == |Recent(cs, now)|
    ensures RecentSum(cs, now) == SumIntensity(Recent(cs, now))
    decreases |cs|
  {
    if cs != [] {
      var init, last := cs[..|cs| - 1], cs[|cs| - 1];
      RunningTotals(init, now);
      var r := Recent(init, now);
      if last.date >= Cutoff(now) {
        assert Recent(cs, now) == r + [last];
        assert (r + [last])[..|r|] == r;
      } else {
        assert Recent(cs, now) == r + [];
        assert r + [] == r;
      }
    }
  }

  /** The statistics the single pass computes. */
  function SinglePassStats(cs: seq<Crisis>, now: int): Stats {
    var count := RecentCount(cs, now);
    Stats(count, if count > 0 then Mean(RecentSum(cs, now), count) else NoRecent,
          |cs|, OptimizedDaysFree(cs, now))
  }

  /** The single pass agrees with the original on the recent count, the
      average and the total, and on `daysFree` whenever the latest record is
      after the epoch; otherwise it reports no free days. */
  lemma SinglePassAgrees(cs: seq<Crisis>, now: int)
    ensures SinglePassStats(cs, now).totalRecent == ComputeStats(cs, now).totalRecent
    ensures SinglePassStats(cs, now).avgIntensity == ComputeStats(cs, now).avgIntensity
    ensures SinglePassStats(cs, now).totalHistory == ComputeStats(cs, now).totalHistory
    ensures (cs == [] || MaxDate(cs) > 0) ==> SinglePassStats(cs, now) == ComputeStats(cs, now)
    ensures cs != [] && MaxDate(cs) <= 0 ==> SinglePassStats(cs, now).daysFree == 0
  {
    RunningTotals(cs, now);
    if cs != [] {
      LatestOrZeroIsMax(cs);
    }
  }

  /** `optimizedGetStats`: one loop over the records. */
  method OptimizedStats(cs: seq<Crisis>, now: int) returns (r: Stats)
    ensures r == SinglePassStats(cs, now)
  {
    var recentCount := 0;
    var recentIntensitySum := 0;
    var mostRecentDate := 0;
    for i := 0 to |cs|
      invariant recentCount == RecentCount(cs[..i], now)
      invariant recentIntensitySum == RecentSum(cs[..i], now)
      invariant mostRecentDate == LatestOrZero(cs[..i])
    {
      var c := cs[i];
      assert cs[..i + 1][..i] == cs[..i];
      if c.date > mostRecentDate {
        mostRecentDate := c.date;
      }
      if c.date >= Cutoff(now) {
        recentCount := recentCount + 1;
        recentIntensitySum := recentIntensitySum + c.intensity;
      }
    }
    assert cs[..|cs|] == cs;
    var avg := if recentCount > 0 then Mean(recentIntensitySum, recentCount) else NoRecent;
    var daysFree := 0;
    if mostRecentDate > 0 {
      daysFree := (now - mostRecentDate) / DAY;
    }
    r := Stats(recentCount, avg, |cs|, Max(0, daysFree));
  }

  /** The two differ on a record dated before the epoch: the original counts
      the days since it, the single pass never moves off 0 and reports no
      free days. */
  lemma PreEpochDiverges(c: Crisis, now: int)
    requires c.date <= 0 && now >= c.date + DAY
    ensures ComputeStats([c], now).daysFree >= 1
    ensures OptimizedDaysFree([c], now) == 0
  {
    assert MaxDate([c]) == c.date;
    assert LatestOrZero([c][..0]) == 0;
  }
}
