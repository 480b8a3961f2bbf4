/** What a summary's counts, lists and latencies are of, trial by trial. */
module Tallies {
  import opened Outcome
  import opened Order
  import Ranks
  import opened Comparisons
  import opened Summaries
  import WilsonIntervals

  /** The trials with one of the given statuses. */
  ghost function With(bundles: seq<Bundle>, statuses: set<Status>): set<nat> {
    set i: nat | i < |bundles| && bundles[i].status in statuses
  }

  lemma WithAppend(bundles: seq<Bundle>, b: Bundle, statuses: set<Status>)
    ensures With(bundles + [b], statuses) == if b.status in statuses then With(bundles, statuses) + {|bundles|} else With(bundles, statuses)
  {
  }

  /** Scored trials are those that passed, failed or ran out of time. */
  lemma {:induction false} TrialsAreCounted(bundles: seq<Bundle>)
    ensures Count(bundles, Scored) == |With(bundles, {"passed", "failed", "timed_out"})|
    ensures Count(bundles, IsPassed) == |With(bundles, {"passed"})|
  {
    if bundles != [] {
      var n := |bundles| - 1;
      TrialsAreCounted(bundles[..n]);
      assert bundles == bundles[..n] + [bundles[n]];
      WithAppend(bundles[..n], bundles[n], {"passed", "failed", "timed_out"});
      WithAppend(bundles[..n], bundles[n], {"passed"});
    }
  }

  /** The suite is the first one any trial names. */
  lemma {:induction false} SuiteIsFirst(bundles: seq<Bundle>)
    ensures SuiteOf(bundles) == "" ==> forall i :: 0 <= i < |bundles| ==> bundles[i].suite == ""
    ensures SuiteOf(bundles) != "" ==>
              exists i :: 0 <= i < |bundles| && bundles[i].suite == SuiteOf(bundles) && forall j :: 0 <= j < i ==> bundles[j].suite == ""
  {
    if bundles != [] {
      SuiteIsFirst(bundles[1..]);
      if bundles[0].suite == "" && SuiteOf(bundles) != "" {
        var i :| 0 <= i < |bundles[1..]| && bundles[1..][i].suite == SuiteOf(bundles) && forall j :: 0 <= j < i ==> bundles[1..][j].suite == "";
        assert bundles[i + 1].suite == SuiteOf(bundles);
        assert forall j :: 0 < j < i + 1 ==> bundles[j] == bundles[1..][j - 1];
      }
    }
  }

  /** A trial's critical failures are its failed critical graders, in order, each under the
      task and with the trial's failure class. */
  lemma {:induction false} CriticalPicked(b: Bundle, graders: seq<GraderResult>) returns (at: seq<nat>)
    ensures |at| == |CriticalOf(b, graders)| && Ranks.Rising(at, |graders|)
    ensures forall i :: 0 <= i < |graders| ==> (i in at <==> graders[i].critical && graders[i].failed)
    ensures forall k :: 0 <= k < |at| ==> CriticalOf(b, graders)[k] == CriticalFailure(b.taskId, graders[at[k]].name, b.failureClass)
  {
    at := [];
    if graders != [] {
      var n := |graders| - 1;
      at := CriticalPicked(b, graders[..n]);
      Ranks.RisingAppend(at, n);
      if graders[n].critical && graders[n].failed {
        at := at + [n];
      }
    }
  }

  /** The suite's critical failures are its trials', trial after trial: those of trial i
      stand together after those of the trials before it, and there are no others. */
  lemma {:induction false} CriticalTrialByTrial(bundles: seq<Bundle>, i: nat)
    requires i < |bundles|
    ensures var all, from, its := CriticalFailuresOf(bundles), |CriticalFailuresOf(bundles[..i])|, CriticalOf(bundles[i], bundles[i].graders);
            from + |its| <= |all| && all[from..from + |its|] == its && (i == |bundles| - 1 ==> from + |its| == |all|)
  {
    hide CriticalOf;
    var n := |bundles| - 1;
    if i < n {
      CriticalTrialByTrial(bundles[..n], i);
      assert bundles[..n][..i] == bundles[..i];
      var from, its := |CriticalFailuresOf(bundles[..i])|, CriticalOf(bundles[i], bundles[i].graders);
      assert CriticalFailuresOf(bundles)[from..from + |its|] == CriticalFailuresOf(bundles[..n])[from..from + |its|];
    }
  }

  // ---------- latencies ----------

  ghost function Faster(bundles: seq<Bundle>, ms: int): set<nat> {
    set i: nat | i < |bundles| && bundles[i].duration < ms
  }

  ghost function NoSlower(bundles: seq<Bundle>, ms: int): set<nat> {
    set i: nat | i < |bundles| && bundles[i].duration <= ms
  }

  lemma PlaceOfTrials(bundles: seq<Bundle>, p: real)
    requires bundles != []
    ensures var ms := SortedAt(Durations(bundles), p);
            |Faster(bundles, ms)| <= Place(|bundles|, p) < |NoSlower(bundles, ms)|
  {
    hide Place;
    var values := Durations(bundles);
    IntsSort(values);
    Ranks.RankOfPlace(values, IntLess, Place(|values|, p));
    var ms := SortedAt(values, p);
    assert Ranks.Before(values, IntLess, ms) == Faster(bundles, ms);
    assert Ranks.NotAfter(values, IntLess, ms) == NoSlower(bundles, ms);
  }

  lemma ShareOfTrials(bundles: seq<Bundle>, p: real)
    requires bundles != [] && 0.0 <= p < 1.0
    ensures var ms := SortedAt(Durations(bundles), p);
            |Faster(bundles, ms)| as real <= p * |bundles| as real < |NoSlower(bundles, ms)| as real
  {
    hide Place, Faster, NoSlower, SortedAt, Durations;
    var ms := SortedAt(Durations(bundles), p);
    PlaceIsShare(|bundles|, p);
    PlaceOfTrials(bundles, p);
    Ranks.WholeWithin(|Faster(bundles, ms)|, Place(|bundles|, p), |NoSlower(bundles, ms)|, p * |bundles| as real);
  }

  /** At most half of the trials are faster than the median and more than half no slower;
      at most nineteen in twenty are faster than the high percentile, and more no slower. */
  lemma LatenciesHoldTheirShare(bundles: seq<Bundle>)
    requires bundles != []
    ensures var (median, p95, n) := (SortedAt(Durations(bundles), 0.5), SortedAt(Durations(bundles), 0.95), |bundles| as real);
            && |Faster(bundles, median)| as real <= n / 2.0 < |NoSlower(bundles, median)| as real
            && |Faster(bundles, p95)| as real <= 19.0 * n / 20.0 < |NoSlower(bundles, p95)| as real
  {
    hide SortedAt, Durations, Faster, NoSlower;
    ShareOfTrials(bundles, 0.5);
    ShareOfTrials(bundles, 0.95);
    assert 0.5 * |bundles| as real == |bundles| as real / 2.0;
    assert 0.95 * |bundles| as real == 19.0 * |bundles| as real / 20.0;
  }

  // ---------- consistency ----------

  /** A task is consistent exactly if all of its attempts, of which there are some, count
      as passes. */
  lemma ConsistentIsEveryPass(o: Outcomes, id: string)
    ensures id in Consistent(o) <==> id in o && 0 < |o[id]| == Passes(o[id])
    ensures id in Measured(o) <==> id in o && 0 < |o[id]|
  {
    if id in o {
      AllPass(o[id]);
    }
  }

  lemma {:induction false} AllPass(attempts: seq<bool>)
    ensures AllTrue(attempts) <==> Passes(attempts) == |attempts|
  {
    PassesBounded(attempts);
    if attempts != [] {
      var n := |attempts| - 1;
      PassesBounded(attempts[..n]);
      AllPass(attempts[..n]);
      assert attempts == attempts[..n] + [attempts[n]];
    }
  }
}
