/** What one step and a whole sequence of steps of the dashboard reducer do to
    the three views, and the seeded scenario. */
module DashboardLemmas {
  import opened Wrappers
  import opened Dashboard

  // ---------------------------------------------------------------------------
  // Statistics

  lemma {:induction false} TotalAppend(stats: seq<Stat>, s: Stat)
    ensures Total(stats + [s]) == Total(stats) + s.count
    decreases |stats|
  {
    if |stats| == 0 {
      assert stats + [s] == [s];
    } else {
      assert (stats + [s])[1..] == stats[1..] + [s];
      TotalAppend(stats[1..], s);
    }
  }

  lemma {:induction false} TotalUpdate(stats: seq<Stat>, k: nat, s: Stat)
    requires k < |stats|
    ensures Total(stats[k := s]) == Total(stats) - stats[k].count + s.count
    decreases k
  {
    if k == 0 {
      assert stats[k := s][1..] == stats[1..];
    } else {
      assert stats[k := s][1..] == stats[1..][k - 1 := s];
      TotalUpdate(stats[1..], k - 1, s);
    }
  }

  /** Each classification adds exactly one to the sum of the counts. */
  lemma IncrementTotal(stats: seq<Stat>, color: string)
    ensures Total(Increment(stats, color)) == Total(stats) + 1
  {
    match FindIndex(stats, color)
    case Some(k) => TotalUpdate(stats, k, stats[k].(count := stats[k].count + 1));
    case None => TotalAppend(stats, Stat(color, 1));
  }

  /** Two lists whose colors agree position by position find the same first index. */
  lemma FindIndexColorsOnly(a: seq<Stat>, b: seq<Stat>, color: string)
    requires |a| == |b|
    requires forall j :: 0 <= j < |a| ==> a[j].color == b[j].color
    ensures FindIndex(a, color) == FindIndex(b, color)
  {
  }

  /** Appending an entry does not move the first index of a color already present,
      and makes the appended entry the first of its color otherwise. */
  lemma FindIndexAppend(stats: seq<Stat>, s: Stat, color: string)
    ensures FindIndex(stats + [s], color) ==
      if FindIndex(stats, color).Some? then FindIndex(stats, color)
      else if s.color == color then Some(|stats|)
      else None
  {
    var x := stats + [s];
    FindIndexColorsOnly(x[..|stats|], stats, color);
    assert x[..|stats|] == stats;
    var fx := FindIndex(x, color);
    match FindIndex(stats, color)
    case Some(k) =>
      assert x[k].color == color;
    case None =>
      if s.color == color {
        assert x[|stats|].color == color;
      }
  }

  /** The count of the event's color rises by exactly one; every other color's count is unchanged. */
  lemma IncrementCounts(stats: seq<Stat>, color: string, other: string)
    ensures CountOf(Increment(stats, color), color) == CountOf(stats, color) + 1
    ensures other != color ==> CountOf(Increment(stats, color), other) == CountOf(stats, other)
  {
    var r := Increment(stats, color);
    match FindIndex(stats, color)
    case Some(k) =>
      FindIndexColorsOnly(r, stats, color);
      FindIndexColorsOnly(r, stats, other);
    case None =>
      FindIndexAppend(stats, Stat(color, 1), color);
      FindIndexAppend(stats, Stat(color, 1), other);
      if FindIndex(stats, other).Some? {
        assert r[FindIndex(stats, other).value] == stats[FindIndex(stats, other).value];
      }
  }

  /** Find-or-insert never duplicates a color. */
  lemma IncrementKeepsDistinct(stats: seq<Stat>, color: string)
    requires DistinctColors(stats)
    ensures DistinctColors(Increment(stats, color))
  {
    var r := Increment(stats, color);
    if FindIndex(stats, color).None? {
      forall i, j | 0 <= i < j < |r|
        ensures r[i].color != r[j].color
      {
        if j == |stats| {
          assert r[j].color == color;
          assert stats[i].color != color;
        }
      }
    }
  }

  // ---------------------------------------------------------------------------
  // One step

  /** A classification updates all three views in the same step. */
  lemma StepUpdatesAllViews(s: LiveState, d: Delivery, other: string)
    requires IsNewClassification(d.message)
    ensures var c := Stamp(d.message.value.data, d.now);
      var r := Step(s, d);
      && |r.classifications| == Min(RecentCap, |s.classifications| + 1)
      && r.classifications[0] == c
      && r.classifications[1..] == s.classifications[..|r.classifications| - 1]
      && CountOf(r.statistics, c.color) == CountOf(s.statistics, c.color) + 1
      && (other != c.color ==> CountOf(r.statistics, other) == CountOf(s.statistics, other))
      && Total(r.statistics) == Total(s.statistics) + 1
      && |s.statistics| <= |r.statistics| <= |s.statistics| + 1
      && (DistinctColors(s.statistics) ==> DistinctColors(r.statistics))
      && |r.realtime| == Min(ActivityCap, |s.realtime| + 1)
      && r.realtime[|r.realtime| - 1] == ActivityPoint(d.timeLabel, 1)
  {
    var c := Stamp(d.message.value.data, d.now);
    IncrementCounts(s.statistics, c.color, other);
    IncrementTotal(s.statistics, c.color);
    if DistinctColors(s.statistics) {
      IncrementKeepsDistinct(s.statistics, c.color);
    }
  }

  /** While the window is within its cap, a step evicts at most the oldest point. */
  lemma SlideIsFifo(prev: seq<ActivityPoint>, p: ActivityPoint)
    requires |prev| <= ActivityCap
    ensures Slide(prev, p) == if |prev| < ActivityCap then prev + [p] else prev[1..] + [p]
  {
    var r := Slide(prev, p);
    assert r == r[..|r| - 1] + [r[|r| - 1]];
  }

  /** The table after a classification: the new event, then the first nine rows shown before. */
  lemma TableAfterStep(s: LiveState, d: Delivery)
    requires IsNewClassification(d.message)
    ensures var before := Table(s.classifications);
      Table(Step(s, d).classifications)
        == [Stamp(d.message.value.data, d.now)] + before[..Min(TableRows - 1, |before|)]
  {
    var r := Step(s, d).classifications;
    var before := Table(s.classifications);
    var t := Table(r);
    assert t == [r[0]] + r[1..|t|];
    assert r[1..|t|] == r[1..][..|t| - 1];
  }

  // ---------------------------------------------------------------------------
  // Many steps

  /** Prepending to the newest `RecentCap` of a list keeps the newest `RecentCap` of the longer list. */
  lemma PrependToNewest(c: Classification, all: seq<Classification>)
    ensures PrependRecent(c, all[..Min(RecentCap, |all|)]) == ([c] + all)[..Min(RecentCap, |all| + 1)]
  {
    var prev := all[..Min(RecentCap, |all|)];
    var r := PrependRecent(c, prev);
    var m := |r| - 1;
    assert r == [c] + r[1..];
    assert r[1..] == all[..m];
    assert ([c] + all)[..m + 1] == [c] + all[..m];
  }

  /** The recent list is the newest `RecentCap` of all classifications seen, newest first. */
  lemma {:induction false} RunRecent(s: LiveState, ds: seq<Delivery>)
    requires |s.classifications| <= RecentCap
    ensures var all := Arrivals(ds) + s.classifications;
      Run(s, ds).classifications == all[..Min(RecentCap, |all|)]
    decreases |ds|
  {
    if |ds| == 0 {
      assert Arrivals(ds) + s.classifications == s.classifications;
    } else {
      var init := ds[..|ds| - 1];
      var d := ds[|ds| - 1];
      RunRecent(s, init);
      var all := Arrivals(init) + s.classifications;
      if IsNewClassification(d.message) {
        var c := Stamp(d.message.value.data, d.now);
        PrependToNewest(c, all);
        assert Arrivals(ds) + s.classifications == [c] + all;
      } else {
        assert Arrivals(ds) == Arrivals(init);
      }
    }
  }

  lemma LastNOfLastN<T>(x: seq<T>, p: T, n: nat)
    requires n > 0
    ensures LastN(LastN(x, n) + [p], n) == LastN(x + [p], n)
  {
    var l := LastN(x, n);
    var a := LastN(l + [p], n);
    var b := LastN(x + [p], n);
    assert |a| == |b|;
    forall i | 0 <= i < |a|
      ensures a[i] == b[i]
    {
      if i == |a| - 1 {
      } else {
        assert a[i] == (l + [p])[|l| + 1 - |a| + i];
        assert b[i] == (x + [p])[|x| + 1 - |b| + i];
      }
    }
  }

  /** The activity window is the last `ActivityCap` of all points, oldest first. */
  lemma {:induction false} RunRealtime(s: LiveState, ds: seq<Delivery>)
    requires |s.realtime| <= ActivityCap
    ensures Run(s, ds).realtime == LastN(s.realtime + Points(ds), ActivityCap)
    decreases |ds|
  {
    if |ds| == 0 {
      assert s.realtime + Points(ds) == s.realtime;
    } else {
      var init := ds[..|ds| - 1];
      var d := ds[|ds| - 1];
      RunRealtime(s, init);
      if IsNewClassification(d.message) {
        var p := ActivityPoint(d.timeLabel, 1);
        LastNOfLastN(s.realtime + Points(init), p, ActivityCap);
        assert s.realtime + Points(ds) == (s.realtime + Points(init)) + [p];
      } else {
        assert Points(ds) == Points(init);
      }
    }
  }

  lemma {:induction false} OccurrencesPrepend(c: Classification, cs: seq<Classification>, color: string)
    ensures Occurrences([c] + cs, color) == (if c.color == color then 1 else 0) + Occurrences(cs, color)
  {
    assert ([c] + cs)[1..] == cs;
  }

  /** Every color's count grows by exactly the number of its classifications;
      the sum of counts grows by the number of classifications. */
  lemma {:induction false} RunStatistics(s: LiveState, ds: seq<Delivery>, color: string)
    ensures CountOf(Run(s, ds).statistics, color) == CountOf(s.statistics, color) + Occurrences(Arrivals(ds), color)
    ensures Total(Run(s, ds).statistics) == Total(s.statistics) + |Arrivals(ds)|
    ensures DistinctColors(s.statistics) ==> DistinctColors(Run(s, ds).statistics)
    decreases |ds|
  {
    if |ds| > 0 {
      var init := ds[..|ds| - 1];
      var d := ds[|ds| - 1];
      RunStatistics(s, init, color);
      if IsNewClassification(d.message) {
        var c := Stamp(d.message.value.data, d.now);
        var prev := Run(s, init).statistics;
        IncrementCounts(prev, c.color, color);
        IncrementTotal(prev, c.color);
        OccurrencesPrepend(c, Arrivals(init), color);
        if DistinctColors(prev) {
          IncrementKeepsDistinct(prev, c.color);
        }
      }
    }
  }

  // ---------------------------------------------------------------------------
  // The seeded scenario

  lemma SeededStatisticsAfterRed()
    ensures Increment(SeedStatistics(), "red apple") == [Stat("red apple", 46), Stat("green apple", 38)]
  {
    assert FindIndex(SeedStatistics(), "red apple") == Some(0);
  }

  lemma CountsAfterRed()
    ensures var r := [Stat("red apple", 46), Stat("green apple", 38)];
      CountOf(r, "red apple") == 46 && CountOf(r, "green apple") == 38
  {
    var r := [Stat("red apple", 46), Stat("green apple", 38)];
    assert FindIndex(r, "red apple") == Some(0);
    assert r[0].color != "green apple";
    assert FindIndex(r, "green apple") == Some(1);
  }

  /** The seeded scenario. From the snapshot seed (or any state that has its statistics,
      an empty window and 20 entries with ids 1..20, as `Seeded` does), one red-apple event:
      red goes to 46, green stays at 38, the list keeps 20 entries, led by the new one,
      and loses the seeded entry with id 20. */
  lemma SeededRedApple(s: LiveState, d: Delivery, timestamp: string)
    requires s.statistics == SeedStatistics() && s.realtime == []
    requires |s.classifications| == 20
    requires forall i :: 0 <= i < 20 ==> s.classifications[i].id == i + 1
    requires d.message == Some(Message(NewClassificationType, Payload(None, "red apple", timestamp)))
    ensures var r := Step(s, d);
      && r.statistics == [Stat("red apple", 46), Stat("green apple", 38)]
      && CountOf(r.statistics, "red apple") == 46
      && CountOf(r.statistics, "green apple") == 38
      && |r.classifications| == 20
      && r.classifications[0] == Classification(d.now, "red apple", timestamp)
      && r.classifications[1..] == s.classifications[..19]
      && (forall i :: 1 <= i < 20 ==> r.classifications[i].id == i)
      && r.realtime == [ActivityPoint(d.timeLabel, 1)]
  {
    assert IsNewClassification(d.message);
    var c := Stamp(d.message.value.data, d.now);
    assert c == Classification(d.now, "red apple", timestamp);
    SeededStatisticsAfterRed();
    CountsAfterRed();
    var recent := PrependRecent(c, s.classifications);
    assert recent[1..] == s.classifications[..19];
    forall i | 1 <= i < 20
      ensures recent[i].id == i
    {
      assert recent[i] == recent[1..][i - 1];
    }
    assert Slide([], ActivityPoint(d.timeLabel, 1)) == [ActivityPoint(d.timeLabel, 1)];
  }

  /** The seeded scenario on the snapshot seed itself: the statistics. */
  lemma SeedThenRedAppleStatistics(s: LiveState, stampAt: nat -> string, d: Delivery, timestamp: string)
    requires s == Seeded(stampAt)
    requires d.message == Some(Message(NewClassificationType, Payload(None, "red apple", timestamp)))
    ensures var r := Step(s, d);
      && r.statistics == [Stat("red apple", 46), Stat("green apple", 38)]
      && CountOf(r.statistics, "red apple") == 46
      && CountOf(r.statistics, "green apple") == 38
  {
    assert forall i :: 0 <= i < 20 ==> s.classifications[i].id == i + 1;
    SeededRedApple(s, d, timestamp);
  }

  /** The seeded scenario on the snapshot seed itself: the list and the window. */
  lemma SeedThenRedAppleViews(s: LiveState, stampAt: nat -> string, d: Delivery, timestamp: string)
    requires s == Seeded(stampAt)
    requires d.message == Some(Message(NewClassificationType, Payload(None, "red apple", timestamp)))
    ensures var r := Step(s, d);
      && |r.classifications| == 20
      && r.classifications[0] == Classification(d.now, "red apple", timestamp)
      && (forall i :: 1 <= i < 20 ==> r.classifications[i].id == i)
      && r.realtime == [ActivityPoint(d.timeLabel, 1)]
  {
    assert forall i :: 0 <= i < 20 ==> s.classifications[i].id == i + 1;
    SeededRedApple(s, d, timestamp);
  }
}
