/** Comparing a candidate with a baseline over the tasks both ran. Rates are reals; the
    random draws of the bootstrap are an argument. */
module Comparisons {
  import opened Order
  import opened Ranks
  import WilsonIntervals

  type Outcomes = map<string, seq<bool>>

  /** The index drawn from 0..n-1 for place j of resample i. */
  type Draw = (nat, nat, nat) -> nat

  ghost predicate InBounds(draw: Draw) {
    forall n: nat, i: nat, j: nat :: n > 0 ==> draw(n, i, j) < n
  }

  datatype Comparison = Comparison(
    delta: real, low: real, high: real,
    improved: seq<string>, regressed: seq<string>, unscorable: seq<string>,
    paired: nat)

  datatype Group = Improved | Regressed | Unchanged | Unscorable

  // ---------- rates and means ----------

  function Passes(attempts: seq<bool>): nat {
    if attempts == [] then 0 else Passes(attempts[..|attempts| - 1]) + if attempts[|attempts| - 1] then 1 else 0
  }

  function Rate(attempts: seq<bool>): real {
    if attempts == [] then 0.0 else Passes(attempts) as real / |attempts| as real
  }

  method TaskRate(attempts: seq<bool>) returns (rate: real, n: nat)
    ensures n == |attempts| && rate == Rate(attempts)
  {
    if attempts == [] {
      return 0.0, 0;
    }
    var passed := 0;
    for i := 0 to |attempts|
      invariant passed == Passes(attempts[..i])
    {
      assert attempts[..i + 1][..i] == attempts[..i];
      if attempts[i] {
        passed := passed + 1;
      }
    }
    assert attempts[..|attempts|] == attempts;
    return passed as real / |attempts| as real, |attempts|;
  }

  function Sum(xs: seq<real>): real {
    if xs == [] then 0.0 else Sum(xs[..|xs| - 1]) + xs[|xs| - 1]
  }

  function MeanOf(xs: seq<real>): real {
    if xs == [] then 0.0 else Sum(xs) / |xs| as real
  }

  method Mean(xs: seq<real>) returns (mean: real)
    ensures mean == MeanOf(xs)
  {
    if xs == [] {
      return 0.0;
    }
    var total := 0.0;
    for i := 0 to |xs|
      invariant total == Sum(xs[..i])
    {
      assert xs[..i + 1][..i] == xs[..i];
      total := total + xs[i];
    }
    assert xs[..|xs|] == xs;
    mean := total / |xs| as real;
  }

  // ---------- the comparison, as a function of the sorted tasks ----------

  function AttemptsOf(o: Outcomes, id: string): seq<bool> {
    if id in o then o[id] else []
  }

  function Change(b: Outcomes, c: Outcomes, id: string): real {
    Rate(AttemptsOf(c, id)) - Rate(AttemptsOf(b, id))
  }

  function GroupOf(b: Outcomes, c: Outcomes, id: string): Group {
    if AttemptsOf(b, id) == [] || AttemptsOf(c, id) == [] then Unscorable
    else if Change(b, c, id) > 0.0 then Improved
    else if Change(b, c, id) < 0.0 then Regressed
    else Unchanged
  }

  /** The tasks of one group, in order. */
  function InGroup(tasks: seq<string>, b: Outcomes, c: Outcomes, g: Group): seq<string> {
    if tasks == [] then []
    else
      InGroup(tasks[..|tasks| - 1], b, c, g)
      + if GroupOf(b, c, tasks[|tasks| - 1]) == g then [tasks[|tasks| - 1]] else []
  }

  function Deltas(tasks: seq<string>, b: Outcomes, c: Outcomes): seq<real> {
    if tasks == [] then []
    else
      Deltas(tasks[..|tasks| - 1], b, c)
      + if GroupOf(b, c, tasks[|tasks| - 1]).Unscorable? then [] else [Change(b, c, tasks[|tasks| - 1])]
  }

  ghost predicate AreTasks(tasks: seq<string>, b: Outcomes, c: Outcomes) {
    Lists(tasks, b.Keys + c.Keys)
  }

  // ---------- the bootstrap ----------

  predicate RealLess(x: real, y: real) {
    x < y
  }

  function SampleMean(deltas: seq<real>, draw: Draw, i: nat): real
    requires deltas != [] && forall j: nat :: draw(|deltas|, i, j) < |deltas|
  {
    MeanOf(seq(|deltas|, j requires 0 <= j < |deltas| => deltas[draw(|deltas|, i, j)]))
  }

  function Means(deltas: seq<real>, draw: Draw, resamples: nat): seq<real>
    requires deltas != [] && forall i: nat, j: nat :: draw(|deltas|, i, j) < |deltas|
  {
    seq(resamples, i requires 0 <= i < resamples => SampleMean(deltas, draw, i))
  }

  /** Truncation toward zero agrees with the floor here: a negative index is raised to 0. */
  function Percentile(sorted: seq<real>, p: real): real {
    if sorted == [] then 0.0
    else
      sorted[Place(|sorted|, p)]
  }

  function Interval(deltas: seq<real>, draw: Draw, resamples: int): (real, real)
    requires deltas != [] ==> forall i: nat, j: nat :: draw(|deltas|, i, j) < |deltas|
  {
    if deltas == [] then (0.0, 0.0)
    else if |deltas| == 1 || resamples <= 0 then (deltas[0], deltas[0])
    else
      var means := Sort(Means(deltas, draw, resamples), RealLess);
      (Percentile(means, 0.025), Percentile(means, 0.975))
  }

  method BootstrapInterval(deltas: seq<real>, draw: Draw, resamples: int) returns (low: real, high: real)
    requires InBounds(draw)
    ensures (low, high) == Interval(deltas, draw, resamples)
  {
    if deltas == [] {
      return 0.0, 0.0;
    }
    if |deltas| == 1 || resamples <= 0 {
      return deltas[0], deltas[0];
    }
    var means := [];
    for i := 0 to resamples
      invariant means == Means(deltas, draw, i)
    {
      var sample := [];
      for j := 0 to |deltas|
        invariant sample == seq(j, k requires 0 <= k < j => deltas[draw(|deltas|, i, k)])
      {
        sample := sample + [deltas[draw(|deltas|, i, j)]];
      }
      var mean := Mean(sample);
      means := means + [mean];
    }
    means := Sort(means, RealLess);
    return Percentile(means, 0.025), Percentile(means, 0.975);
  }

  // ---------- the whole comparison ----------

  /** cmp is the comparison of c with b under the given draws. */
  ghost predicate IsComparison(b: Outcomes, c: Outcomes, draw: Draw, resamples: int, cmp: Comparison)
    requires InBounds(draw)
  {
    exists tasks :: AreTasks(tasks, b, c) && Compares(tasks, b, c, draw, resamples, cmp)
  }

  ghost predicate Compares(tasks: seq<string>, b: Outcomes, c: Outcomes, draw: Draw, resamples: int, cmp: Comparison)
    requires InBounds(draw)
  {
    var deltas := Deltas(tasks, b, c);
    && cmp.improved == InGroup(tasks, b, c, Improved) && cmp.regressed == InGroup(tasks, b, c, Regressed)
    && cmp.unscorable == InGroup(tasks, b, c, Unscorable) && cmp.paired == |deltas|
    && cmp.delta == MeanOf(deltas) && (cmp.low, cmp.high) == Interval(deltas, draw, resamples)
  }

  method ListTasks(b: Outcomes, c: Outcomes) returns (tasks: seq<string>)
    ensures AreTasks(tasks, b, c)
  {
    tasks := [];
    var left := b.Keys;
    while left != {}
      invariant left <= b.Keys && NoRepeats(tasks)
      invariant forall id :: id in tasks <==> id in b && id !in left
      decreases left
    {
      var id :| id in left;
      NoRepeatsAppend(tasks, id);
      tasks := tasks + [id];
      left := left - {id};
    }
    left := c.Keys;
    while left != {}
      invariant left <= c.Keys && NoRepeats(tasks)
      invariant forall id :: id in tasks <==> id in b || (id in c && id !in left)
      decreases left
    {
      var id :| id in left;
      if id !in b {
        NoRepeatsAppend(tasks, id);
        tasks := tasks + [id];
      }
      left := left - {id};
    }
    LessIsOrder();
    SortSorts(tasks, Less);
    SameElements(tasks, Sort(tasks, Less));
    Rearranged(tasks, Sort(tasks, Less));
    tasks := Sort(tasks, Less);
  }

  method GroupTasks(tasks: seq<string>, b: Outcomes, c: Outcomes)
    returns (improved: seq<string>, regressed: seq<string>, unscorable: seq<string>, deltas: seq<real>)
    ensures improved == InGroup(tasks, b, c, Improved) && regressed == InGroup(tasks, b, c, Regressed)
    ensures unscorable == InGroup(tasks, b, c, Unscorable) && deltas == Deltas(tasks, b, c)
  {
    hide Rate;
    improved, regressed, unscorable, deltas := [], [], [], [];
    for i := 0 to |tasks|
      invariant improved == InGroup(tasks[..i], b, c, Improved)
      invariant regressed == InGroup(tasks[..i], b, c, Regressed)
      invariant unscorable == InGroup(tasks[..i], b, c, Unscorable)
      invariant deltas == Deltas(tasks[..i], b, c)
    {
      var id := tasks[i];
      assert tasks[..i + 1][..i] == tasks[..i];
      var baseRate, baseN := TaskRate(AttemptsOf(b, id));
      var candRate, candN := TaskRate(AttemptsOf(c, id));
      if baseN == 0 || candN == 0 {
        unscorable := unscorable + [id];
      } else {
        var d := candRate - baseRate;
        deltas := deltas + [d];
        if d > 0.0 {
          improved := improved + [id];
        } else if d < 0.0 {
          regressed := regressed + [id];
        }
      }
    }
    assert tasks[..|tasks|] == tasks;
  }

  method ComparePaired(b: Outcomes, c: Outcomes, draw: Draw, resamples: int) returns (cmp: Comparison)
    requires InBounds(draw)
    ensures IsComparison(b, c, draw, resamples, cmp)
  {
    hide AreTasks, InGroup, Deltas;
    var tasks := ListTasks(b, c);
    var improved, regressed, unscorable, deltas := GroupTasks(tasks, b, c);
    cmp := Comparison(0.0, 0.0, 0.0, improved, regressed, unscorable, |deltas|);
    if |deltas| > 0 {
      var delta := Mean(deltas);
      var low, high := BootstrapInterval(deltas, draw, resamples);
      cmp := cmp.(delta := delta, low := low, high := high);
    }
    assert Compares(tasks, b, c, draw, resamples, cmp);
  }

  // ---------- the groups partition the tasks ----------

  lemma {:induction false} GroupHolds(tasks: seq<string>, b: Outcomes, c: Outcomes, g: Group, id: string)
    ensures id in InGroup(tasks, b, c, g) <==> id in tasks && GroupOf(b, c, id) == g
  {
    if tasks != [] {
      GroupHolds(tasks[..|tasks| - 1], b, c, g, id);
      assert tasks == tasks[..|tasks| - 1] + [tasks[|tasks| - 1]];
    }
  }

  lemma {:induction false} GroupsAddUp(tasks: seq<string>, b: Outcomes, c: Outcomes)
    ensures |Deltas(tasks, b, c)| ==
            |InGroup(tasks, b, c, Improved)| + |InGroup(tasks, b, c, Regressed)| + |InGroup(tasks, b, c, Unchanged)|
    ensures |Deltas(tasks, b, c)| + |InGroup(tasks, b, c, Unscorable)| == |tasks|
  {
    if tasks != [] {
      GroupsAddUp(tasks[..|tasks| - 1], b, c);
    }
  }

  lemma {:induction false} CountOnce(s: seq<string>, ids: set<string>)
    requires NoRepeats(s) && forall id :: id in s <==> id in ids
    ensures |s| == |ids|
  {
    if s != [] {
      assert s == [s[0]] + s[1..];
      CountOnce(s[1..], ids - {s[0]});
      assert s[0] in s;
    } else {
      assert ids == {} by { assert forall id :: id in ids ==> id in s; }
    }
  }

  /** Every task of either side is in exactly one group, told by how its rate moved; the
      pairs and the unscorable tasks together are the union. */
  lemma ComparisonPartitions(b: Outcomes, c: Outcomes, draw: Draw, resamples: int, cmp: Comparison, id: string)
    requires InBounds(draw) && IsComparison(b, c, draw, resamples, cmp)
    ensures cmp.paired + |cmp.unscorable| == |b.Keys + c.Keys|
    ensures |cmp.improved| + |cmp.regressed| <= cmp.paired
    ensures id in cmp.unscorable <==> (id in b || id in c) && (AttemptsOf(b, id) == [] || AttemptsOf(c, id) == [])
    ensures id in cmp.improved <==> AttemptsOf(b, id) != [] && AttemptsOf(c, id) != [] && Rate(c[id]) > Rate(b[id])
    ensures id in cmp.regressed <==> AttemptsOf(b, id) != [] && AttemptsOf(c, id) != [] && Rate(c[id]) < Rate(b[id])
  {
    hide AreTasks, Compares;
    var tasks :| AreTasks(tasks, b, c) && Compares(tasks, b, c, draw, resamples, cmp);
    ListedPartition(tasks, b, c, draw, resamples, cmp, id);
  }

  lemma ListedPartition(tasks: seq<string>, b: Outcomes, c: Outcomes, draw: Draw, resamples: int, cmp: Comparison, id: string)
    requires InBounds(draw) && AreTasks(tasks, b, c) && Compares(tasks, b, c, draw, resamples, cmp)
    ensures cmp.paired + |cmp.unscorable| == |b.Keys + c.Keys|
    ensures |cmp.improved| + |cmp.regressed| <= cmp.paired
    ensures id in cmp.unscorable <==> (id in b || id in c) && (AttemptsOf(b, id) == [] || AttemptsOf(c, id) == [])
    ensures id in cmp.improved <==> AttemptsOf(b, id) != [] && AttemptsOf(c, id) != [] && Rate(c[id]) > Rate(b[id])
    ensures id in cmp.regressed <==> AttemptsOf(b, id) != [] && AttemptsOf(c, id) != [] && Rate(c[id]) < Rate(b[id])
  {
    hide InGroup, Deltas, Interval, MeanOf, Rate, Sorted, NoRepeats;
    GroupHolds(tasks, b, c, Improved, id);
    GroupHolds(tasks, b, c, Regressed, id);
    GroupHolds(tasks, b, c, Unscorable, id);
    GroupsAddUp(tasks, b, c);
    CountOnce(tasks, b.Keys + c.Keys);
  }

  // ---------- the interval stays within the deltas ----------

  ghost predicate Between(xs: seq<real>, lo: real, hi: real) {
    forall i :: 0 <= i < |xs| ==> lo <= xs[i] <= hi
  }

  lemma {:induction false} SumBetween(xs: seq<real>, lo: real, hi: real)
    requires Between(xs, lo, hi)
    ensures lo * |xs| as real <= Sum(xs) <= hi * |xs| as real
  {
    if xs != [] {
      var before, last := xs[..|xs| - 1], xs[|xs| - 1];
      SumBetween(before, lo, hi);
      OneMoreBetween(lo, hi, |before| as real, |xs| as real, Sum(before), last);
    }
  }

  lemma OneMoreBetween(lo: real, hi: real, k: real, n: real, sum: real, last: real)
    requires n == k + 1.0 && lo * k <= sum <= hi * k && lo <= last <= hi
    ensures lo * n <= sum + last <= hi * n
  {
    OneMoreAbove(lo, k, n, sum, last);
    NegatedProduct(hi, k);
    OneMoreAbove(-hi, k, n, -sum, -last);
    NegatedProduct(hi, n);
  }

  lemma OneMoreAbove(x: real, k: real, n: real, sum: real, last: real)
    requires n == k + 1.0 && x * k <= sum && x <= last
    ensures x * n <= sum + last
  {
    assert x * n == x * k + x;
  }

  lemma NegatedProduct(q: real, n: real)
    ensures (-q) * n == -(q * n)
  {
  }

  lemma QuotientBetween(total: real, n: real, lo: real, hi: real)
    requires n > 0.0 && lo * n <= total <= hi * n
    ensures lo <= total / n <= hi
  {
    var q := total / n;
    assert q * n == total;
    WilsonIntervals.SignOfProduct(n, lo - q);
    WilsonIntervals.SignOfProduct(n, q - hi);
  }

  lemma MeanBetween(xs: seq<real>, lo: real, hi: real)
    requires Between(xs, lo, hi) && xs != []
    ensures lo <= MeanOf(xs) <= hi
  {
    SumBetween(xs, lo, hi);
    QuotientBetween(Sum(xs), |xs| as real, lo, hi);
  }

  lemma MeansBetween(deltas: seq<real>, draw: Draw, resamples: nat, lo: real, hi: real)
    requires InBounds(draw) && deltas != [] && Between(deltas, lo, hi)
    ensures Between(Means(deltas, draw, resamples), lo, hi)
  {
    forall i | 0 <= i < resamples ensures lo <= Means(deltas, draw, resamples)[i] <= hi {
      MeanBetween(seq(|deltas|, j requires 0 <= j < |deltas| => deltas[draw(|deltas|, i, j)]), lo, hi);
    }
  }

  lemma RealLessIsOrder()
    ensures IsOrder(RealLess)
  {
  }

  lemma SortedBetween(xs: seq<real>, lo: real, hi: real)
    requires Between(xs, lo, hi)
    ensures Between(Sort(xs, RealLess), lo, hi) && |Sort(xs, RealLess)| == |xs|
  {
    RealLessIsOrder();
    SortSorts(xs, RealLess);
    var s := Sort(xs, RealLess);
    SameElements(s, xs);
    forall i | 0 <= i < |s| ensures lo <= s[i] <= hi {
      assert s[i] in s;
      assert s[i] in xs;
    }
  }

  function Place(n: nat, p: real): (k: nat)
    requires n > 0
    ensures k < n
  {
    var idx := (p * n as real).Floor;
    if idx < 0 then 0 else if idx >= n then n - 1 else idx
  }

  lemma PlaceIsMonotone(n: nat, p: real, q: real)
    requires n > 0 && p <= q
    ensures Place(n, p) <= Place(n, q)
  {
    WilsonIntervals.MulNonNegative(q - p, n as real);
    assert q * n as real - p * n as real == (q - p) * n as real;
  }

  lemma PercentilesOrdered(s: seq<real>, p: real, q: real)
    requires Sorted(s, RealLess) && s != [] && p <= q
    ensures Percentile(s, p) in s && Percentile(s, q) in s && Percentile(s, p) <= Percentile(s, q)
  {
    hide Place;
    PlaceIsMonotone(|s|, p, q);
    var k, m := Place(|s|, p), Place(|s|, q);
    if k < m {
      SortedThroughout(s, RealLess, k, m);
    }
  }

  /** Whatever is drawn, the interval is ordered and lies between the smallest and the
      largest per-task difference, and so does the delta. */
  lemma IntervalWithinDeltas(b: Outcomes, c: Outcomes, draw: Draw, resamples: int, cmp: Comparison, lo: real, hi: real)
    requires InBounds(draw) && IsComparison(b, c, draw, resamples, cmp) && cmp.paired > 0
    requires forall id :: id in b && id in c && b[id] != [] && c[id] != [] ==> lo <= Change(b, c, id) <= hi
    ensures lo <= cmp.low <= cmp.high <= hi && lo <= cmp.delta <= hi
  {
    var tasks :| AreTasks(tasks, b, c) && Compares(tasks, b, c, draw, resamples, cmp);
    var deltas := Deltas(tasks, b, c);
    DeltasBetween(tasks, b, c, lo, hi);
    MeanBetween(deltas, lo, hi);
    IntervalBetween(deltas, draw, resamples, lo, hi);
  }

  lemma IntervalBetween(deltas: seq<real>, draw: Draw, resamples: int, lo: real, hi: real)
    requires InBounds(draw) && deltas != [] && Between(deltas, lo, hi)
    ensures var (low, high) := Interval(deltas, draw, resamples); lo <= low <= high <= hi
  {
    if |deltas| > 1 && resamples > 0 {
      var means := Means(deltas, draw, resamples);
      MeansBetween(deltas, draw, resamples, lo, hi);
      SortedBetween(means, lo, hi);
      RealLessIsOrder();
      SortSorts(means, RealLess);
      PercentilesOrdered(Sort(means, RealLess), 0.025, 0.975);
    }
  }

  lemma {:induction false} DeltasBetween(tasks: seq<string>, b: Outcomes, c: Outcomes, lo: real, hi: real)
    requires forall id :: id in b && id in c && b[id] != [] && c[id] != [] ==> lo <= Change(b, c, id) <= hi
    ensures Between(Deltas(tasks, b, c), lo, hi)
  {
    if tasks != [] {
      DeltasBetween(tasks[..|tasks| - 1], b, c, lo, hi);
    }
  }

  // ---------- swapping the arms ----------

  function Opposite(g: Group): Group {
    match g
    case Improved => Regressed
    case Regressed => Improved
    case _ => g
  }

  lemma {:induction false} GroupsSwap(tasks: seq<string>, b: Outcomes, c: Outcomes, g: Group)
    ensures InGroup(tasks, c, b, g) == InGroup(tasks, b, c, Opposite(g))
  {
    if tasks != [] {
      GroupsSwap(tasks[..|tasks| - 1], b, c, g);
    }
  }

  lemma {:induction false} DeltasSwap(tasks: seq<string>, b: Outcomes, c: Outcomes)
    ensures |Deltas(tasks, c, b)| == |Deltas(tasks, b, c)|
    ensures Sum(Deltas(tasks, c, b)) == -Sum(Deltas(tasks, b, c))
  {
    if tasks != [] {
      var last := tasks[|tasks| - 1];
      DeltasSwap(tasks[..|tasks| - 1], b, c);
      if !GroupOf(b, c, last).Unscorable? {
        SumAppend(Deltas(tasks[..|tasks| - 1], b, c), Change(b, c, last));
        SumAppend(Deltas(tasks[..|tasks| - 1], c, b), Change(c, b, last));
      } else {
        assert Deltas(tasks, b, c) == Deltas(tasks[..|tasks| - 1], b, c);
        assert Deltas(tasks, c, b) == Deltas(tasks[..|tasks| - 1], c, b);
      }
    }
  }

  lemma MeanNegates(xs: seq<real>, ys: seq<real>)
    requires |xs| == |ys| && Sum(ys) == -Sum(xs)
    ensures MeanOf(ys) == -MeanOf(xs)
  {
    if xs != [] {
      var n, q := |xs| as real, MeanOf(xs);
      WilsonIntervals.DivTimes(Sum(xs), n);
      NegatedProduct(q, n);
      WilsonIntervals.SameQuotient(-Sum(xs), n, -q);
    }
  }

  lemma SumAppend(xs: seq<real>, x: real)
    ensures Sum(xs + [x]) == Sum(xs) + x
  {
    assert (xs + [x])[..|xs|] == xs;
  }

  /** Measuring the baseline against the candidate negates the delta and swaps improved
      with regressed; what could not be scored is the same. */
  lemma ComparisonSwaps(b: Outcomes, c: Outcomes, draw: Draw, resamples: int, cmp: Comparison, swapped: Comparison)
    requires InBounds(draw) && IsComparison(b, c, draw, resamples, cmp) && IsComparison(c, b, draw, resamples, swapped)
    ensures swapped.delta == -cmp.delta
    ensures swapped.improved == cmp.regressed && swapped.regressed == cmp.improved
    ensures swapped.unscorable == cmp.unscorable && swapped.paired == cmp.paired
  {
    hide AreTasks, Compares;
    var tasks :| AreTasks(tasks, b, c) && Compares(tasks, b, c, draw, resamples, cmp);
    var others :| AreTasks(others, c, b) && Compares(others, c, b, draw, resamples, swapped);
    SameTasks(tasks, others, b, c);
    ComparesSwapped(tasks, b, c, draw, resamples, cmp, swapped);
  }

  lemma SameTasks(s: seq<string>, t: seq<string>, b: Outcomes, c: Outcomes)
    requires AreTasks(s, b, c) && (AreTasks(t, b, c) || AreTasks(t, c, b))
    ensures s == t
  {
    assert b.Keys + c.Keys == c.Keys + b.Keys;
    hide Lists;
    ListIsUnique(s, t, b.Keys + c.Keys);
  }

  lemma ComparesSwapped(tasks: seq<string>, b: Outcomes, c: Outcomes, draw: Draw, resamples: int, cmp: Comparison, swapped: Comparison)
    requires InBounds(draw) && Compares(tasks, b, c, draw, resamples, cmp) && Compares(tasks, c, b, draw, resamples, swapped)
    ensures swapped.delta == -cmp.delta
    ensures swapped.improved == cmp.regressed && swapped.regressed == cmp.improved
    ensures swapped.unscorable == cmp.unscorable && swapped.paired == cmp.paired
  {
    hide InGroup, Deltas, Interval, MeanOf;
    GroupsSwap(tasks, b, c, Improved);
    GroupsSwap(tasks, b, c, Regressed);
    GroupsSwap(tasks, b, c, Unscorable);
    DeltasSwap(tasks, b, c);
    MeanNegates(Deltas(tasks, b, c), Deltas(tasks, c, b));
  }

  /** The same outcomes and draws give one comparison, whatever order maps are visited in. */
  lemma ComparisonIsDetermined(b: Outcomes, c: Outcomes, draw: Draw, resamples: int, cmp: Comparison, other: Comparison)
    requires InBounds(draw) && IsComparison(b, c, draw, resamples, cmp) && IsComparison(b, c, draw, resamples, other)
    ensures cmp == other
  {
    var s :| AreTasks(s, b, c) && Compares(s, b, c, draw, resamples, cmp);
    var t :| AreTasks(t, b, c) && Compares(t, b, c, draw, resamples, other);
    SameTasks(s, t, b, c);
  }

  // ---------- which resampled means bound the interval ----------

  /** The resamples whose mean lies below x, and those whose mean does not exceed it. */
  ghost function Below(deltas: seq<real>, draw: Draw, n: nat, x: real): set<nat>
    requires InBounds(draw) && deltas != []
  {
    set i: nat | i < n && SampleMean(deltas, draw, i) < x
  }

  ghost function UpTo(deltas: seq<real>, draw: Draw, n: nat, x: real): set<nat>
    requires InBounds(draw) && deltas != []
  {
    set i: nat | i < n && SampleMean(deltas, draw, i) <= x
  }

  lemma PlaceIsShare(n: nat, p: real)
    requires n > 0 && 0.0 <= p < 1.0
    ensures Place(n, p) as real <= p * n as real < Place(n, p) as real + 1.0
  {
    WilsonIntervals.MulNonNegative(p, n as real);
    WilsonIntervals.MulPositive(1.0 - p, n as real);
    assert (1.0 - p) * n as real == n as real - p * n as real;
  }

  lemma PlaceOfMeans(deltas: seq<real>, draw: Draw, n: nat, p: real)
    requires InBounds(draw) && deltas != [] && n > 0
    ensures var x := Percentile(Sort(Means(deltas, draw, n), RealLess), p);
            |Below(deltas, draw, n, x)| <= Place(n, p) < |UpTo(deltas, draw, n, x)|
  {
    hide Place, SampleMean;
    var means := Means(deltas, draw, n);
    RealLessIsOrder();
    RankOfPlace(means, RealLess, Place(n, p));
    var x := Percentile(Sort(means, RealLess), p);
    assert Before(means, RealLess, x) == Below(deltas, draw, n, x);
    assert NotAfter(means, RealLess, x) == UpTo(deltas, draw, n, x);
  }

  lemma ShareOfMeans(deltas: seq<real>, draw: Draw, n: nat, p: real)
    requires InBounds(draw) && deltas != [] && n > 0 && 0.0 <= p < 1.0
    ensures var x := Percentile(Sort(Means(deltas, draw, n), RealLess), p);
            |Below(deltas, draw, n, x)| as real <= p * n as real < |UpTo(deltas, draw, n, x)| as real
  {
    hide Place, Below, UpTo, Percentile, Means;
    var x := Percentile(Sort(Means(deltas, draw, n), RealLess), p);
    PlaceIsShare(n, p);
    PlaceOfMeans(deltas, draw, n, p);
    WholeWithin(|Below(deltas, draw, n, x)|, Place(n, p), |UpTo(deltas, draw, n, x)|, p * n as real);
  }

  /** With two or more pairs and some resamples, at most one resample in forty has a mean
      below the low bound and more than one in forty a mean not above it; and at most
      thirty-nine in forty have one below the high bound, and more than that not above. */
  lemma IntervalHoldsItsShare(deltas: seq<real>, draw: Draw, resamples: int)
    requires InBounds(draw) && |deltas| > 1 && resamples > 0
    ensures var ((low, high), n) := (Interval(deltas, draw, resamples), resamples as real);
            && |Below(deltas, draw, resamples, low)| as real <= n / 40.0 < |UpTo(deltas, draw, resamples, low)| as real
            && |Below(deltas, draw, resamples, high)| as real <= 39.0 * n / 40.0 < |UpTo(deltas, draw, resamples, high)| as real
  {
    hide Below, UpTo, Percentile, Means;
    ShareOfMeans(deltas, draw, resamples, 0.025);
    ShareOfMeans(deltas, draw, resamples, 0.975);
    assert 0.025 * resamples as real == resamples as real / 40.0;
    assert 0.975 * resamples as real == 39.0 * resamples as real / 40.0;
  }

  /** One pair supports no spread, and no resamples give none: both bounds are then the
      first difference, which for one pair is the mean. */
  lemma NoSpread(deltas: seq<real>, draw: Draw, resamples: int)
    requires InBounds(draw) && deltas != [] && (|deltas| == 1 || resamples <= 0)
    ensures Interval(deltas, draw, resamples) == (deltas[0], deltas[0])
    ensures |deltas| == 1 ==> MeanOf(deltas) == deltas[0]
  {
    if |deltas| == 1 {
      assert deltas[..0] == [] && Sum(deltas) == deltas[0];
      WilsonIntervals.SameQuotient(Sum(deltas), 1.0, deltas[0]);
    }
  }

  /** A resample's mean is that of as many differences as there are, the j-th being the
      one drawn for its place. */
  lemma SampleMeanTells(deltas: seq<real>, draw: Draw, i: nat, sample: seq<real>)
    requires InBounds(draw) && deltas != [] && |sample| == |deltas|
    requires forall j :: 0 <= j < |sample| ==> sample[j] == deltas[draw(|deltas|, i, j)]
    ensures SampleMean(deltas, draw, i) * |sample| as real == Sum(sample)
  {
    assert sample == seq(|deltas|, j requires 0 <= j < |deltas| => deltas[draw(|deltas|, i, j)]);
    WilsonIntervals.DivTimes(Sum(sample), |sample| as real);
  }

  /** A task's rate is the share of its attempts that passed. */
  lemma RateTells(attempts: seq<bool>)
    ensures Rate(attempts) * |attempts| as real == |Passed(attempts)| as real
  {
    PassesAreCounted(attempts);
    if attempts != [] {
      WilsonIntervals.DivTimes(Passes(attempts) as real, |attempts| as real);
    }
  }

  ghost function Passed(attempts: seq<bool>): set<nat> {
    set k: nat | k < |attempts| && attempts[k]
  }

  lemma {:induction false} PassesAreCounted(attempts: seq<bool>)
    ensures Passes(attempts) == |Passed(attempts)|
  {
    if attempts != [] {
      var n := |attempts| - 1;
      PassesAreCounted(attempts[..n]);
      assert Passed(attempts) == if attempts[n] then Passed(attempts[..n]) + {n} else Passed(attempts[..n]);
    }
  }

  // ---------- what the lists and the delta are of ----------

  /** The tasks both sides attempted, in the order of the listed tasks. */
  function BothAttempted(tasks: seq<string>, b: Outcomes, c: Outcomes): (r: seq<string>)
    ensures forall id :: id in r <==> id in tasks && AttemptsOf(b, id) != [] && AttemptsOf(c, id) != []
  {
    if tasks == [] then []
    else
      var rest, last := BothAttempted(tasks[..|tasks| - 1], b, c), tasks[|tasks| - 1];
      assert tasks == tasks[..|tasks| - 1] + [last];
      if AttemptsOf(b, last) != [] && AttemptsOf(c, last) != [] then rest + [last] else rest
  }

  lemma {:induction false} DeltasOfScored(tasks: seq<string>, b: Outcomes, c: Outcomes)
    ensures |Deltas(tasks, b, c)| == |BothAttempted(tasks, b, c)|
    ensures forall k :: 0 <= k < |BothAttempted(tasks, b, c)| ==>
              var id := BothAttempted(tasks, b, c)[k]; Deltas(tasks, b, c)[k] == Rate(AttemptsOf(c, id)) - Rate(AttemptsOf(b, id))
  {
    if tasks != [] {
      hide Rate;
      DeltasOfScored(tasks[..|tasks| - 1], b, c);
    }
  }

  lemma {:induction false} GroupAscends(tasks: seq<string>, b: Outcomes, c: Outcomes, g: Group)
    requires Ascending(tasks)
    ensures Ascending(InGroup(tasks, b, c, g)) && Ascending(BothAttempted(tasks, b, c))
  {
    if tasks != [] {
      hide GroupOf;
      var n := |tasks| - 1;
      var rest := InGroup(tasks[..n], b, c, g);
      GroupAscends(tasks[..n], b, c, g);
      forall i | 0 <= i < |rest| ensures Less(rest[i], tasks[n]) {
        GroupHolds(tasks[..n], b, c, g, rest[i]);
        assert rest[i] in rest;
      }
      var scored := BothAttempted(tasks[..n], b, c);
      forall i | 0 <= i < |scored| ensures Less(scored[i], tasks[n]) {
        assert scored[i] in scored;
      }
    }
  }

  /** The three lists are in order without repeats; the delta is the mean, and the
      interval that of the bootstrap, of the differences in rate over the tasks both
      sides attempted, in order. */
  lemma ComparisonTells(b: Outcomes, c: Outcomes, draw: Draw, resamples: int, cmp: Comparison)
      returns (scored: seq<string>, deltas: seq<real>)
    requires InBounds(draw) && IsComparison(b, c, draw, resamples, cmp)
    ensures Ascending(cmp.improved) && Ascending(cmp.regressed) && Ascending(cmp.unscorable)
    ensures Ascending(scored) && (forall id :: id in scored <==> AttemptsOf(b, id) != [] && AttemptsOf(c, id) != [])
    ensures |deltas| == |scored| == cmp.paired
    ensures forall k :: 0 <= k < |scored| ==> deltas[k] == Rate(AttemptsOf(c, scored[k])) - Rate(AttemptsOf(b, scored[k]))
    ensures cmp.delta * cmp.paired as real == Sum(deltas)
    ensures (cmp.low, cmp.high) == Interval(deltas, draw, resamples)
  {
    hide AreTasks, Compares;
    var tasks :| AreTasks(tasks, b, c) && Compares(tasks, b, c, draw, resamples, cmp);
    scored, deltas := BothAttempted(tasks, b, c), Deltas(tasks, b, c);
    ListedTells(tasks, b, c, draw, resamples, cmp);
  }

  lemma ListedTells(tasks: seq<string>, b: Outcomes, c: Outcomes, draw: Draw, resamples: int, cmp: Comparison)
    requires InBounds(draw) && AreTasks(tasks, b, c) && Compares(tasks, b, c, draw, resamples, cmp)
    ensures Ascending(cmp.improved) && Ascending(cmp.regressed) && Ascending(cmp.unscorable)
    ensures var scored, deltas := BothAttempted(tasks, b, c), Deltas(tasks, b, c);
            && Ascending(scored) && (forall id :: id in scored <==> AttemptsOf(b, id) != [] && AttemptsOf(c, id) != [])
            && |deltas| == |scored| == cmp.paired
            && (forall k :: 0 <= k < |scored| ==> deltas[k] == Rate(AttemptsOf(c, scored[k])) - Rate(AttemptsOf(b, scored[k])))
            && cmp.delta * cmp.paired as real == Sum(deltas)
            && (cmp.low, cmp.high) == Interval(deltas, draw, resamples)
  {
    hide InGroup, Interval, Rate, Sum, MeanOf, Deltas, BothAttempted, Ascending, Sorted, NoRepeats;
    ListsAscend(tasks, b.Keys + c.Keys);
    GroupAscends(tasks, b, c, Improved);
    GroupAscends(tasks, b, c, Regressed);
    GroupAscends(tasks, b, c, Unscorable);
    DeltasOfScored(tasks, b, c);
    MeanTimes(Deltas(tasks, b, c));
  }

  lemma MeanTimes(xs: seq<real>)
    ensures MeanOf(xs) * |xs| as real == Sum(xs)
  {
    if xs != [] {
      WilsonIntervals.DivTimes(Sum(xs), |xs| as real);
    }
  }
}
