/** A suite's summary: one pass over its trial bundles, and what that pass conserves. */
module Summaries {
  import opened Outcome
  import opened Order
  import opened Comparisons
  import opened WilsonIntervals

  type Status = string

  const PASSED: Status := "passed"
  const FAILED: Status := "failed"
  const TIMED_OUT: Status := "timed_out"

  predicate Scored(s: Status) {
    s == PASSED || s == FAILED || s == TIMED_OUT
  }

  datatype Usage = Usage(
    llmCalls: int, toolCalls: int, promptTokens: int, completionTokens: int,
    cacheReadTokens: int, cacheWriteTokens: int,
    cost: Option<int>, currency: string, costIncomplete: bool)

  const NO_USAGE := Usage(0, 0, 0, 0, 0, 0, None, "", false)

  datatype GraderResult = GraderResult(name: string, critical: bool, failed: bool)

  datatype Bundle = Bundle(
    suite: string, taskId: string, status: Status, failureClass: string, duration: int,
    graders: seq<GraderResult>, usage: Usage)

  datatype CriticalFailure = CriticalFailure(taskId: string, grader: string, detail: string)

  datatype Metrics = Metrics(
    suite: string, subjectId: string, trials: nat, scored: nat, passed: nat, faults: map<Status, nat>,
    criticalFailures: seq<CriticalFailure>, usage: Usage,
    passRate: real, low: real, high: real, consistencyRate: real, medianMs: int, p95Ms: int)

  // ---------- usage ----------

  /** A total after one more trial. */
  function Accumulate(t: Usage, u: Usage): Usage {
    var sum := t.(
      llmCalls := t.llmCalls + u.llmCalls, toolCalls := t.toolCalls + u.toolCalls,
      promptTokens := t.promptTokens + u.promptTokens, completionTokens := t.completionTokens + u.completionTokens,
      cacheReadTokens := t.cacheReadTokens + u.cacheReadTokens, cacheWriteTokens := t.cacheWriteTokens + u.cacheWriteTokens,
      costIncomplete := t.costIncomplete || u.costIncomplete);
    if u.cost.None? then sum.(costIncomplete := sum.costIncomplete || t.cost.Some?)
    else if t.cost.None? then sum.(cost := u.cost, currency := u.currency)
    else if t.currency != u.currency then sum.(costIncomplete := true)
    else sum.(cost := Some(t.cost.value + u.cost.value))
  }

  class UsageTotal {
    var total: Usage

    constructor ()
      ensures total == NO_USAGE
    {
      total := NO_USAGE;
    }

    method Add(trial: Usage)
      modifies this
      ensures total == Accumulate(old(total), trial)
    {
      total := total.(
        llmCalls := total.llmCalls + trial.llmCalls,
        toolCalls := total.toolCalls + trial.toolCalls,
        promptTokens := total.promptTokens + trial.promptTokens,
        completionTokens := total.completionTokens + trial.completionTokens,
        cacheReadTokens := total.cacheReadTokens + trial.cacheReadTokens,
        cacheWriteTokens := total.cacheWriteTokens + trial.cacheWriteTokens);
      if trial.costIncomplete {
        total := total.(costIncomplete := true);
      }
      if trial.cost.None? {
        if total.cost.Some? {
          total := total.(costIncomplete := true);
        }
        return;
      }
      if total.cost.None? {
        total := total.(cost := trial.cost, currency := trial.currency);
        return;
      }
      if total.currency != trial.currency {
        total := total.(costIncomplete := true);
        return;
      }
      total := total.(cost := Some(total.cost.value + trial.cost.value));
    }
  }

  function UsageOf(bundles: seq<Bundle>): Usage {
    if bundles == [] then NO_USAGE
    else Accumulate(UsageOf(bundles[..|bundles| - 1]), bundles[|bundles| - 1].usage)
  }

  /** The place of the first priced trial, or |bundles| if none is priced. */
  function FirstPriced(bundles: seq<Bundle>): (i: nat)
    ensures i <= |bundles| && (i < |bundles| ==> bundles[i].usage.cost.Some?)
    ensures forall j :: 0 <= j < i ==> bundles[j].usage.cost.None?
  {
    if bundles == [] then 0
    else
      var before := bundles[..|bundles| - 1];
      var i := FirstPriced(before);
      assert forall j :: 0 <= j < |before| ==> before[j] == bundles[j];
      if i < |before| || bundles[|bundles| - 1].usage.cost.Some? then i else i + 1
  }

  /** What the trials priced in the given currency cost together. */
  function CostIn(bundles: seq<Bundle>, currency: string): int {
    if bundles == [] then 0
    else
      var last := bundles[|bundles| - 1].usage;
      CostIn(bundles[..|bundles| - 1], currency)
      + if last.cost.Some? && last.currency == currency then last.cost.value else 0
  }

  /** Trial i makes the total incomplete: it says so itself, or it comes after the first
      priced trial and is unpriced or priced in another currency. */
  predicate Spoils(bundles: seq<Bundle>, i: nat)
    requires i < |bundles|
  {
    var u, first := bundles[i].usage, FirstPriced(bundles);
    u.costIncomplete || (first < i && (u.cost.None? || u.currency != bundles[first].usage.currency))
  }

  ghost predicate Spoiled(bundles: seq<Bundle>) {
    exists i :: 0 <= i < |bundles| && Spoils(bundles, i)
  }

  lemma {:induction false} NothingCostsBeforeFirst(bundles: seq<Bundle>, currency: string)
    requires FirstPriced(bundles) == |bundles|
    ensures CostIn(bundles, currency) == 0
  {
    if bundles != [] {
      var before := bundles[..|bundles| - 1];
      assert bundles[|bundles| - 1].usage.cost.None?;
      NothingCostsBeforeFirst(before, currency);
    }
  }

  lemma FirstPricedPrefix(bundles: seq<Bundle>)
    requires bundles != []
    ensures var before := bundles[..|bundles| - 1];
            if FirstPriced(before) < |before| then FirstPriced(bundles) == FirstPriced(before)
            else FirstPriced(bundles) == if bundles[|bundles| - 1].usage.cost.Some? then |before| else |bundles|
  {
  }

  lemma SpoiledPrefix(bundles: seq<Bundle>)
    requires bundles != []
    ensures Spoiled(bundles) <==> Spoiled(bundles[..|bundles| - 1]) || Spoils(bundles, |bundles| - 1)
  {
    var before := bundles[..|bundles| - 1];
    FirstPricedPrefix(bundles);
    forall i | 0 <= i < |before| ensures Spoils(bundles, i) <==> Spoils(before, i) {
      assert before[i] == bundles[i];
    }
    if Spoiled(before) {
      var i :| 0 <= i < |before| && Spoils(before, i);
      assert Spoils(bundles, i);
    }
  }

  /** The total cost is exactly what the trials priced in the first priced currency cost;
      it is absent exactly when no trial is priced, and marked incomplete exactly when
      some trial spoils it. */
  lemma {:induction false} UsageIsExact(bundles: seq<Bundle>)
    ensures var u, first := UsageOf(bundles), FirstPriced(bundles);
            && (u.cost.None? <==> first == |bundles|)
            && (first < |bundles| ==>
                  u.currency == bundles[first].usage.currency && u.cost == Some(CostIn(bundles, u.currency)))
            && (u.costIncomplete <==> Spoiled(bundles))
  {
    if bundles != [] {
      var before, last := bundles[..|bundles| - 1], bundles[|bundles| - 1].usage;
      UsageIsExact(before);
      FirstPricedPrefix(bundles);
      SpoiledPrefix(bundles);
      hide Spoiled, FirstPriced;
      var first := FirstPriced(before);
      if first < |before| {
        assert before[first] == bundles[first];
      } else {
        NothingCostsBeforeFirst(before, last.currency);
      }
    }
  }

  function Tokens(bundles: seq<Bundle>, kind: Usage -> int): int {
    if bundles == [] then 0
    else Tokens(bundles[..|bundles| - 1], kind) + kind(bundles[|bundles| - 1].usage)
  }

  /** Call and token totals are plain sums over the trials. */
  lemma {:induction false} TokensAddUp(bundles: seq<Bundle>)
    ensures UsageOf(bundles).llmCalls == Tokens(bundles, (u: Usage) => u.llmCalls)
    ensures UsageOf(bundles).toolCalls == Tokens(bundles, (u: Usage) => u.toolCalls)
    ensures UsageOf(bundles).promptTokens == Tokens(bundles, (u: Usage) => u.promptTokens)
    ensures UsageOf(bundles).completionTokens == Tokens(bundles, (u: Usage) => u.completionTokens)
    ensures UsageOf(bundles).cacheReadTokens == Tokens(bundles, (u: Usage) => u.cacheReadTokens)
    ensures UsageOf(bundles).cacheWriteTokens == Tokens(bundles, (u: Usage) => u.cacheWriteTokens)
  {
    if bundles != [] {
      TokensAddUp(bundles[..|bundles| - 1]);
    }
  }

  // ---------- sums over a map of outcomes ----------

  function Length(attempts: seq<bool>): nat {
    |attempts|
  }

  /** The sum of the values of a map. */
  ghost function SumOf(m: map<string, nat>): nat
    decreases |m|
  {
    if m == map[] then 0
    else
      var k :| k in m;
      m[k] + SumOf(m - {k})
  }

  /** Any entry may be taken out of the sum first. */
  lemma {:induction false} SumWithout(m: map<string, nat>, k: string)
    requires k in m
    ensures SumOf(m) == m[k] + SumOf(m - {k})
    decreases |m|
  {
    var first :| first in m && SumOf(m) == m[first] + SumOf(m - {first});
    if first != k {
      SumWithout(m - {first}, k);
      SumWithout(m - {k}, first);
      assert m - {first} - {k} == m - {k} - {first};
    }
  }

  /** The sum of f over the tasks' attempts. */
  ghost function Total(o: Outcomes, f: seq<bool> -> nat): nat {
    SumOf(map id | id in o :: f(o[id]))
  }

  lemma TotalWithout(o: Outcomes, f: seq<bool> -> nat, id: string)
    requires id in o
    ensures Total(o, f) == f(o[id]) + Total(o - {id}, f)
  {
    var m: map<string, nat> := map x | x in o :: f(o[x]);
    SumWithout(m, id);
    assert m - {id} == map x | x in o - {id} :: f((o - {id})[x]);
  }

  lemma TotalUpdated(o: Outcomes, f: seq<bool> -> nat, id: string, attempts: seq<bool>)
    requires f([]) == 0
    ensures Total(o[id := attempts], f) + f(AttemptsOf(o, id)) == Total(o, f) + f(attempts)
  {
    TotalWithout(o[id := attempts], f, id);
    assert o[id := attempts] - {id} == o - {id};
    if id in o {
      TotalWithout(o, f, id);
    } else {
      assert o - {id} == o;
    }
  }

  lemma NoTasks(o: Outcomes)
    requires o.Keys == {}
    ensures Total(o, Passes) == 0 && Total(o, Length) == 0
  {
    assert o == map[];
  }

  method PassRate(o: Outcomes) returns (passed: nat, scored: nat, rate: real)
    ensures passed == Total(o, Passes) && scored == Total(o, Length)
    ensures rate == if scored == 0 then 0.0 else passed as real / scored as real
  {
    hide Total;
    passed, scored := 0, 0;
    var left := o.Keys;
    ghost var rest := o;
    while left != {}
      invariant left == rest.Keys && left <= o.Keys && forall id :: id in rest ==> rest[id] == o[id]
      invariant passed + Total(rest, Passes) == Total(o, Passes)
      invariant scored + Total(rest, Length) == Total(o, Length)
      decreases left
    {
      var id :| id in left;
      TotalWithout(rest, Passes, id);
      TotalWithout(rest, Length, id);
      ghost var passedBefore, scoredBefore := passed, scored;
      for i := 0 to |o[id]|
        invariant scored == scoredBefore + i && passed == passedBefore + Passes(o[id][..i])
      {
        assert o[id][..i + 1][..i] == o[id][..i];
        scored := scored + 1;
        if o[id][i] {
          passed := passed + 1;
        }
      }
      assert o[id][..|o[id]|] == o[id];
      left := left - {id};
      rest := rest - {id};
    }
    NoTasks(rest);
    if scored == 0 {
      NoneOfNone(o);
      return 0, 0, 0.0;
    }
    rate := passed as real / scored as real;
  }

  lemma {:induction false} PassesBounded(attempts: seq<bool>)
    ensures Passes(attempts) <= |attempts|
  {
    if attempts != [] {
      PassesBounded(attempts[..|attempts| - 1]);
    }
  }

  lemma {:induction false} NoneOfNone(o: Outcomes)
    ensures Total(o, Passes) <= Total(o, Length)
    decreases |o|
  {
    if o != map[] {
      var id :| id in o;
      TotalWithout(o, Passes, id);
      TotalWithout(o, Length, id);
      PassesBounded(o[id]);
      NoneOfNone(o - {id});
    }
  }

  ghost function Measured(o: Outcomes): set<string> {
    set id | id in o && o[id] != []
  }

  ghost function Consistent(o: Outcomes): set<string> {
    set id | id in o && o[id] != [] && AllTrue(o[id])
  }

  predicate AllTrue(attempts: seq<bool>) {
    forall i :: 0 <= i < |attempts| ==> attempts[i]
  }

  method PassedAll(attempts: seq<bool>) returns (all: bool)
    ensures all <==> AllTrue(attempts)
  {
    all := true;
    for i := 0 to |attempts|
      invariant all && forall k :: 0 <= k < i ==> attempts[k]
    {
      if !attempts[i] {
        all := false;
        break;
      }
    }
  }

  /** m and c hold the measured and the consistent tasks already visited. */
  ghost predicate Visited(o: Outcomes, left: set<string>, m: set<string>, c: set<string>) {
    && (forall id :: id in m <==> id in o && id !in left && o[id] != [])
    && (forall id :: id in c <==> id in o && id !in left && o[id] != [] && AllTrue(o[id]))
  }

  lemma VisitTask(o: Outcomes, left: set<string>, m: set<string>, c: set<string>, id: string)
    requires Visited(o, left, m, c) && id in left && id in o
    ensures id !in m && id !in c
    ensures Visited(o, left - {id}, if o[id] != [] then m + {id} else m, if o[id] != [] && AllTrue(o[id]) then c + {id} else c)
  {
  }

  lemma VisitedNone(o: Outcomes)
    ensures Visited(o, o.Keys, {}, {})
  {
  }

  lemma VisitedAll(o: Outcomes, m: set<string>, c: set<string>)
    requires Visited(o, {}, m, c)
    ensures m == Measured(o) && c == Consistent(o)
  {
  }

  /** The share of measured tasks that passed every attempt. */
  method ConsistencyRate(o: Outcomes) returns (rate: real)
    ensures rate == if Measured(o) == {} then 0.0 else |Consistent(o)| as real / |Measured(o)| as real
  {
    hide AllTrue, Visited, Measured, Consistent;
    var measured, consistent := 0, 0;
    var left := o.Keys;
    ghost var m: set<string>, c: set<string> := {}, {};
    VisitedNone(o);
    while left != {}
      invariant left <= o.Keys && measured == |m| && consistent == |c| && Visited(o, left, m, c)
      decreases left
    {
      var id :| id in left;
      VisitTask(o, left, m, c, id);
      if o[id] != [] {
        measured := measured + 1;
        var all := PassedAll(o[id]);
        if all {
          consistent := consistent + 1;
          c := c + {id};
        }
        m := m + {id};
      }
      left := left - {id};
    }
    VisitedAll(o, m, c);
    if measured == 0 {
      return 0.0;
    }
    rate := consistent as real / measured as real;
  }

  // ---------- durations ----------

  predicate IntLess(a: int, b: int) {
    a < b
  }

  method PercentileOf(values: seq<int>, p: real) returns (value: int)
    requires 0.0 <= p
    ensures value == if values == [] then 0 else SortedAt(values, p)
  {
    if values == [] {
      return 0;
    }
    IntsSort(values);
    var sorted := Sort(values, IntLess);
    var idx := (p * |sorted| as real).Floor;
    AtLeastZero(p, |sorted|);
    if idx >= |sorted| {
      idx := |sorted| - 1;
    }
    value := sorted[idx];
  }

  lemma AtLeastZero(p: real, n: nat)
    requires p >= 0.0
    ensures (p * n as real).Floor >= 0
  {
    MulNonNegative(p, n as real);
  }

  lemma IntsSort(values: seq<int>)
    ensures IsOrder(IntLess) && Sorted(Sort(values, IntLess), IntLess) && |Sort(values, IntLess)| == |values|
    ensures forall x :: x in Sort(values, IntLess) <==> x in values
  {
    SortSorts(values, IntLess);
    SameElements(values, Sort(values, IntLess));
  }

  function SortedAt(values: seq<int>, p: real): int
    requires values != []
  {
    IntsSort(values);
    Sort(values, IntLess)[Place(|values|, p)]
  }

  /** A percentile does not depend on the order of the values. */
  lemma PercentileIgnoresOrder(values: seq<int>, other: seq<int>, p: real)
    requires values != [] && other != [] && multiset(values) == multiset(other)
    ensures SortedAt(values, p) == SortedAt(other, p)
  {
    IntsSort(values);
    SortIsCanonical(values, other, IntLess);
    SameElements(values, other);
  }

  /** A percentile is one of the values, and grows with p. */
  lemma PercentileIsOrdered(values: seq<int>, p: real, q: real)
    requires values != [] && p <= q
    ensures SortedAt(values, p) in values && SortedAt(values, p) <= SortedAt(values, q)
  {
    IntsSort(values);
    hide IsOrder, Place, Sort;
    PlaceIsMonotone(|values|, p, q);
    var i, j := Place(|values|, p), Place(|values|, q);
    assert Sort(values, IntLess)[i] in Sort(values, IntLess);
    if i < j {
      SortedThroughout(Sort(values, IntLess), IntLess, i, j);
    }
  }

  // ---------- the summary ----------

  function OutcomesOf(bundles: seq<Bundle>): Outcomes {
    if bundles == [] then map[]
    else
      var before, last := OutcomesOf(bundles[..|bundles| - 1]), bundles[|bundles| - 1];
      if Scored(last.status) then before[last.taskId := AttemptsOf(before, last.taskId) + [last.status == PASSED]]
      else before
  }

  /** How many bundles have a status that satisfies p. */
  function Count(bundles: seq<Bundle>, p: Status -> bool): nat {
    if bundles == [] then 0
    else Count(bundles[..|bundles| - 1], p) + if p(bundles[|bundles| - 1].status) then 1 else 0
  }

  function FaultsOf(bundles: seq<Bundle>): map<Status, nat> {
    if bundles == [] then map[]
    else
      var before, s := FaultsOf(bundles[..|bundles| - 1]), bundles[|bundles| - 1].status;
      if Scored(s) then before else before[s := (if s in before then before[s] else 0) + 1]
  }

  function CriticalOf(b: Bundle, graders: seq<GraderResult>): seq<CriticalFailure> {
    if graders == [] then []
    else
      var g := graders[|graders| - 1];
      CriticalOf(b, graders[..|graders| - 1])
      + if g.critical && g.failed then [CriticalFailure(b.taskId, g.name, b.failureClass)] else []
  }

  function CriticalFailuresOf(bundles: seq<Bundle>): seq<CriticalFailure> {
    if bundles == [] then []
    else
      var last := bundles[|bundles| - 1];
      CriticalFailuresOf(bundles[..|bundles| - 1]) + CriticalOf(last, last.graders)
  }

  function SuiteOf(bundles: seq<Bundle>): string {
    if bundles == [] then "" else if bundles[0].suite != "" then bundles[0].suite else SuiteOf(bundles[1..])
  }

  function Durations(bundles: seq<Bundle>): (r: seq<int>)
    ensures |r| == |bundles|
  {
    seq(|bundles|, i requires 0 <= i < |bundles| => bundles[i].duration)
  }

  predicate IsPassed(s: Status) {
    s == PASSED
  }

  lemma {:induction false} SuiteOfExtends(bundles: seq<Bundle>, b: Bundle)
    ensures SuiteOf(bundles + [b]) == if SuiteOf(bundles) == "" then b.suite else SuiteOf(bundles)
  {
    if bundles == [] {
      assert bundles + [b] == [b];
    } else {
      SuiteOfExtends(bundles[1..], b);
      assert (bundles + [b])[1..] == bundles[1..] + [b];
    }
  }

  lemma NoBundles(bundles: seq<Bundle>)
    requires bundles == []
    ensures OutcomesOf(bundles) == map[] && FaultsOf(bundles) == map[] && SuiteOf(bundles) == ""
    ensures Count(bundles, Scored) == Count(bundles, IsPassed) == 0
    ensures CriticalFailuresOf(bundles) == [] && UsageOf(bundles) == NO_USAGE && Durations(bundles) == []
  {
  }

  /** What one more bundle adds to each part of the summary. */
  lemma OneMoreBundle(bundles: seq<Bundle>, b: Bundle)
    ensures SuiteOf(bundles + [b]) == if SuiteOf(bundles) == "" then b.suite else SuiteOf(bundles)
    ensures Count(bundles + [b], Scored) == Count(bundles, Scored) + if Scored(b.status) then 1 else 0
    ensures Count(bundles + [b], IsPassed) == Count(bundles, IsPassed) + if Scored(b.status) && b.status == PASSED then 1 else 0
    ensures OutcomesOf(bundles + [b]) ==
            if Scored(b.status) then OutcomesOf(bundles)[b.taskId := AttemptsOf(OutcomesOf(bundles), b.taskId) + [b.status == PASSED]]
            else OutcomesOf(bundles)
    ensures FaultsOf(bundles + [b]) ==
            if Scored(b.status) then FaultsOf(bundles)
            else FaultsOf(bundles)[b.status := (if b.status in FaultsOf(bundles) then FaultsOf(bundles)[b.status] else 0) + 1]
    ensures CriticalFailuresOf(bundles + [b]) == CriticalFailuresOf(bundles) + CriticalOf(b, b.graders)
    ensures UsageOf(bundles + [b]) == Accumulate(UsageOf(bundles), b.usage)
    ensures Durations(bundles + [b]) == Durations(bundles) + [b.duration]
  {
    SuiteOfExtends(bundles, b);
    hide SuiteOf, Accumulate, CriticalOf;
    assert (bundles + [b])[..|bundles|] == bundles;
  }

  method CriticalFailuresIn(b: Bundle) returns (failures: seq<CriticalFailure>)
    ensures failures == CriticalOf(b, b.graders)
  {
    failures := [];
    for k := 0 to |b.graders|
      invariant failures == CriticalOf(b, b.graders[..k])
    {
      assert b.graders[..k + 1][..k] == b.graders[..k];
      if b.graders[k].critical && b.graders[k].failed {
        failures := failures + [CriticalFailure(b.taskId, b.graders[k].name, b.failureClass)];
      }
    }
    assert b.graders[..|b.graders|] == b.graders;
  }

  /** sqrt stands for the square root. */
  method Summarize(subjectId: string, bundles: seq<Bundle>, sqrt: real -> real) returns (outcomes: Outcomes, m: Metrics)
    ensures outcomes == OutcomesOf(bundles)
    ensures m.subjectId == subjectId && m.suite == SuiteOf(bundles) && m.trials == |bundles|
    ensures m.scored == Count(bundles, Scored) && m.passed == Count(bundles, IsPassed) && m.faults == FaultsOf(bundles)
    ensures m.criticalFailures == CriticalFailuresOf(bundles) && m.usage == UsageOf(bundles)
    ensures m.passRate == if m.scored == 0 then 0.0 else m.passed as real / m.scored as real
    ensures (m.low, m.high) == Wilson(m.passed, m.scored, Z95, if m.scored > 0 then sqrt(Radicand(m.passed, m.scored, Z95)) else 0.0)
    ensures m.consistencyRate == if Measured(outcomes) == {} then 0.0 else |Consistent(outcomes)| as real / |Measured(outcomes)| as real
    ensures if bundles == [] then m.medianMs == m.p95Ms == 0
            else m.medianMs == SortedAt(Durations(bundles), 0.5) && m.p95Ms == SortedAt(Durations(bundles), 0.95)
  {
    hide Scored, CriticalOf, Accumulate, Wilson, Radicand, SortedAt, Total, Measured, Consistent;
    hide Count, FaultsOf, OutcomesOf, CriticalFailuresOf, UsageOf, Durations, SuiteOf;
    NoBundles(bundles[..0]);
    outcomes := map[];
    var suite, trials, scored, passed := "", 0, 0, 0;
    var faults: map<Status, nat> := map[];
    var criticals, durations := [], [];
    var usage := new UsageTotal();
    for i := 0 to |bundles|
      invariant outcomes == OutcomesOf(bundles[..i]) && suite == SuiteOf(bundles[..i]) && trials == i
      invariant scored == Count(bundles[..i], Scored) && passed == Count(bundles[..i], IsPassed)
      invariant faults == FaultsOf(bundles[..i]) && criticals == CriticalFailuresOf(bundles[..i])
      invariant usage.total == UsageOf(bundles[..i]) && durations == Durations(bundles[..i])
    {
      var b := bundles[i];
      assert bundles[..i + 1] == bundles[..i] + [b];
      OneMoreBundle(bundles[..i], b);
      if suite == "" {
        suite := b.suite;
      }
      durations := durations + [b.duration];
      trials := trials + 1;
      if Scored(b.status) {
        scored := scored + 1;
        var ok := b.status == PASSED;
        outcomes := outcomes[b.taskId := AttemptsOf(outcomes, b.taskId) + [ok]];
        if ok {
          passed := passed + 1;
        }
      } else {
        faults := faults[b.status := (if b.status in faults then faults[b.status] else 0) + 1];
      }
      var failures := CriticalFailuresIn(b);
      criticals := criticals + failures;
      usage.Add(b.usage);
    }
    assert bundles[..|bundles|] == bundles;
    OutcomesConserve(bundles);
    m := Measure(outcomes, durations, passed, scored, sqrt);
    m := m.(suite := suite, subjectId := subjectId, trials := trials, faults := faults, criticalFailures := criticals, usage := usage.total);
  }

  /** The rates and latencies that follow from what was counted. */
  method Measure(outcomes: Outcomes, durations: seq<int>, passed: nat, scored: nat, sqrt: real -> real) returns (m: Metrics)
    requires passed == Total(outcomes, Passes) && scored == Total(outcomes, Length)
    ensures m.scored == scored && m.passed == passed
    ensures m.passRate == if scored == 0 then 0.0 else passed as real / scored as real
    ensures (m.low, m.high) == Wilson(passed, scored, Z95, if scored > 0 then sqrt(Radicand(passed, scored, Z95)) else 0.0)
    ensures m.consistencyRate == if Measured(outcomes) == {} then 0.0 else |Consistent(outcomes)| as real / |Measured(outcomes)| as real
    ensures if durations == [] then m.medianMs == m.p95Ms == 0
            else m.medianMs == SortedAt(durations, 0.5) && m.p95Ms == SortedAt(durations, 0.95)
  {
    hide Wilson, Radicand, SortedAt, Total, Measured, Consistent;
    var _, _, rate := PassRate(outcomes);
    var (low, high) := Wilson(passed, scored, Z95, if scored > 0 then sqrt(Radicand(passed, scored, Z95)) else 0.0);
    var consistency := ConsistencyRate(outcomes);
    var median := PercentileOf(durations, 0.5);
    var p95 := PercentileOf(durations, 0.95);
    m := Metrics("", "", 0, scored, passed, map[], [], NO_USAGE, rate, low, high, consistency, median, p95);
  }

  /** Recounting the outcomes, in whatever order the tasks come, finds every scored and
      every passed trial. */
  lemma {:induction false} OutcomesConserve(bundles: seq<Bundle>)
    ensures Total(OutcomesOf(bundles), Length) == Count(bundles, Scored)
    ensures Total(OutcomesOf(bundles), Passes) == Count(bundles, IsPassed)
  {
    if bundles != [] {
      var before, last := OutcomesOf(bundles[..|bundles| - 1]), bundles[|bundles| - 1];
      OutcomesConserve(bundles[..|bundles| - 1]);
      if Scored(last.status) {
        var was := AttemptsOf(before, last.taskId);
        var now := was + [last.status == PASSED];
        assert now[..|now| - 1] == was;
        TotalUpdated(before, Length, last.taskId, now);
        TotalUpdated(before, Passes, last.taskId, now);
      }
    }
  }

  /** The scored attempts at one task, in the order of the bundles. */
  function ScoredAttempts(bundles: seq<Bundle>, task: string): seq<bool> {
    if bundles == [] then []
    else
      (if bundles[0].taskId == task && Scored(bundles[0].status) then [bundles[0].status == PASSED] else [])
      + ScoredAttempts(bundles[1..], task)
  }

  lemma {:induction false} ScoredAttemptsExtend(bundles: seq<Bundle>, b: Bundle, task: string)
    ensures ScoredAttempts(bundles + [b], task) ==
            ScoredAttempts(bundles, task) + if b.taskId == task && Scored(b.status) then [b.status == PASSED] else []
  {
    if bundles == [] {
      assert bundles + [b] == [b];
    } else {
      hide Scored;
      ScoredAttemptsExtend(bundles[1..], b, task);
      assert (bundles + [b])[0] == bundles[0] && (bundles + [b])[1..] == bundles[1..] + [b];
    }
  }

  /** Each task's outcomes are its scored bundles in order, and a task is listed exactly
      if it has one. */
  lemma {:induction false} OutcomesAreInOrder(bundles: seq<Bundle>, task: string)
    ensures AttemptsOf(OutcomesOf(bundles), task) == ScoredAttempts(bundles, task)
    ensures task in OutcomesOf(bundles) <==> ScoredAttempts(bundles, task) != []
  {
    if bundles != [] {
      var before, last := bundles[..|bundles| - 1], bundles[|bundles| - 1];
      OutcomesAreInOrder(before, task);
      ScoredAttemptsExtend(before, last, task);
      assert bundles == before + [last];
    }
  }

  /** Every trial is either scored or counted under one fault. */
  lemma {:induction false} TrialsAreConserved(bundles: seq<Bundle>)
    ensures |bundles| == Count(bundles, Scored) + SumOf(FaultsOf(bundles))
    ensures Count(bundles, IsPassed) <= Count(bundles, Scored)
  {
    if bundles != [] {
      hide SumOf;
      var before, s := FaultsOf(bundles[..|bundles| - 1]), bundles[|bundles| - 1].status;
      TrialsAreConserved(bundles[..|bundles| - 1]);
      if !Scored(s) {
        SumWithout(FaultsOf(bundles), s);
        assert FaultsOf(bundles) - {s} == before - {s};
        if s in before {
          SumWithout(before, s);
        } else {
          assert before - {s} == before;
        }
      }
    }
  }

  /** Each status that does not score a trial is counted once per trial that has it. */
  lemma {:induction false} FaultsCountTheirTrials(bundles: seq<Bundle>, s: Status)
    ensures (if s in FaultsOf(bundles) then FaultsOf(bundles)[s] else 0) == if Scored(s) then 0 else Occurrences(bundles, s)
  {
    if bundles != [] {
      hide Scored;
      FaultsCountTheirTrials(bundles[..|bundles| - 1], s);
    }
  }

  function Occurrences(bundles: seq<Bundle>, s: Status): nat {
    if bundles == [] then 0
    else Occurrences(bundles[..|bundles| - 1], s) + if bundles[|bundles| - 1].status == s then 1 else 0
  }
}
