/** Importing a Harbor job: attempts numbered per task, and filed so that none
    overwrites another. */
module Harbor {
  import opened Outcome
  import opened Order
  import Ranks

  /** A trial as Harbor recorded it; times count from the zero time. */
  datatype Trial = Trial(taskName: string, started: Option<int>, trialName: string, source: Option<string>, problem: Option<string>)

  datatype Bundle = Bundle(taskId: string, index: nat, trial: Trial)

  // ---------- the order of attempts ----------

  function StartTime(t: Trial): int {
    match t.started
    case Some(at) => at
    case None => 0
  }

  predicate TrialLess(a: Trial, b: Trial) {
    if a.taskName != b.taskName then Less(a.taskName, b.taskName)
    else if StartTime(a) != StartTime(b) then StartTime(a) < StartTime(b)
    else Less(a.trialName, b.trialName)
  }

  lemma TrialLessIsOrder()
    ensures IsOrder(TrialLess)
  {
    LessIsOrder();
    forall a, b: Trial | TrialLess(a, b) ensures !TrialLess(b, a) {
      LessIsTotal(a.taskName, b.taskName);
      LessIsTotal(a.trialName, b.trialName);
    }
    forall a, b, c: Trial | !TrialLess(a, b) && !TrialLess(b, c) ensures !TrialLess(a, c) {
      TrialsBetween(a, b, c);
    }
  }

  lemma TrialsBetween(a: Trial, b: Trial, c: Trial)
    requires !TrialLess(a, b) && !TrialLess(b, c)
    ensures !TrialLess(a, c)
  {
    LessIsOrder();
    LessIsTotal(a.taskName, b.taskName);
    LessIsTotal(b.taskName, c.taskName);
    LessIsTotal(a.taskName, c.taskName);
  }

  /** Stable, as the source's sort is. */
  method SortTrials(trials: seq<Trial>) returns (sorted: seq<Trial>)
    ensures sorted == Sort(trials, TrialLess) && multiset(sorted) == multiset(trials) && Sorted(sorted, TrialLess)
  {
    TrialLessIsOrder();
    SortSorts(trials, TrialLess);
    sorted := Sort(trials, TrialLess);
  }

  /** However the job's directory lists them, trials with names of their own are taken in
      one order. */
  lemma SortedTrialsAreUnique(trials: seq<Trial>, other: seq<Trial>)
    requires multiset(trials) == multiset(other)
    requires forall a, b :: a in trials && b in trials && a.trialName == b.trialName ==> a == b
    ensures Sort(trials, TrialLess) == Sort(other, TrialLess)
  {
    TrialLessIsOrder();
    forall a, b | a in trials && b in trials && a != b ensures TrialLess(a, b) || TrialLess(b, a) {
      LessIsTotal(a.taskName, b.taskName);
      LessIsTotal(a.trialName, b.trialName);
    }
    SortIsCanonical(trials, other, TrialLess);
  }

  /** A sorted job goes by task name, then by start, a trial that never started counting
      from the zero time, then by its own name. */
  lemma SortedTrialsTell(trials: seq<Trial>, i: nat, j: nat)
    requires i < j < |trials|
    ensures |Sort(trials, TrialLess)| == |trials|
    ensures var a, b := Sort(trials, TrialLess)[i], Sort(trials, TrialLess)[j];
            var since, until := if a.started.Some? then a.started.value else 0, if b.started.Some? then b.started.value else 0;
            || Less(a.taskName, b.taskName)
            || (a.taskName == b.taskName && since < until)
            || (a.taskName == b.taskName && since == until && (a.trialName == b.trialName || Less(a.trialName, b.trialName)))
  {
    TrialLessIsOrder();
    SortSorts(trials, TrialLess);
    SameElements(trials, Sort(trials, TrialLess));
    SortedThroughout(Sort(trials, TrialLess), TrialLess, i, j);
    var a, b := Sort(trials, TrialLess)[i], Sort(trials, TrialLess)[j];
    LessIsTotal(a.taskName, b.taskName);
    LessIsTotal(a.trialName, b.trialName);
  }

  // ---------- numbering ----------

  /** The task name as one path element: what follows its last slash. */
  function TaskId(name: string): string {
    if name == [] then []
    else if name[|name| - 1] == '/' then []
    else TaskId(name[..|name| - 1]) + [name[|name| - 1]]
  }

  /** The name is the id behind an organization that is empty or ends in a slash. */
  lemma {:induction false} TaskIdIsLastElement(name: string) returns (org: string)
    ensures name == org + TaskId(name) && '/' !in TaskId(name)
    ensures org != "" ==> org[|org| - 1] == '/'
  {
    if name == [] || name[|name| - 1] == '/' {
      org := name;
    } else {
      var before, last := name[..|name| - 1], name[|name| - 1];
      org := TaskIdIsLastElement(before);
      assert name == org + TaskId(before) + [last];
    }
  }

  /** How many trials belong to the task. */
  function Count(trials: seq<Trial>, id: string): nat {
    if trials == [] then 0
    else Count(trials[..|trials| - 1], id) + if TaskId(trials[|trials| - 1].taskName) == id then 1 else 0
  }

  function Number(trials: seq<Trial>): (r: seq<Bundle>)
    ensures |r| == |trials|
  {
    if trials == [] then []
    else
      var before, last := trials[..|trials| - 1], trials[|trials| - 1];
      Number(before) + [Bundle(TaskId(last.taskName), Count(before, TaskId(last.taskName)), last)]
  }

  /** What stands before the first at sign. */
  function BeforeAt(s: string): string {
    if s == [] || s[0] == '@' then [] else [s[0]] + BeforeAt(s[1..])
  }

  /** A dataset's name is what stands before its version, set off by the first at sign. */
  lemma {:induction false} BeforeAtTells(s: string) returns (rest: string)
    ensures s == BeforeAt(s) + rest && '@' !in BeforeAt(s) && (rest != "" ==> rest[0] == '@')
  {
    if s == [] || s[0] == '@' {
      rest := s;
    } else {
      rest := BeforeAtTells(s[1..]);
      assert BeforeAt(s) == [s[0]] + BeforeAt(s[1..]);
      assert s == [s[0]] + s[1..] == [s[0]] + (BeforeAt(s[1..]) + rest) == BeforeAt(s) + rest;
    }
  }

  predicate WrongDataset(t: Trial, dataset: string) {
    t.source.Some? && t.source.value != "" && BeforeAt(t.source.value) != dataset
  }

  /** subjectProblem and a trial's problem stand for what reading their evidence refused. */
  method Convert(trials: seq<Trial>, dataset: string, subjectProblem: Option<string>) returns (r: Result<seq<Bundle>, string>)
    ensures r.Err? <==> || trials == [] || subjectProblem.Some?
                        || exists t :: t in trials && (t.problem.Some? ||
                             (t.source.Some? && t.source.value != "" && BeforeAt(t.source.value) != dataset))
    ensures r.Ok? ==> r.value == Number(trials)
  {
    if trials == [] {
      return Err("no trials to convert");
    }
    for i := 0 to |trials|
      invariant forall k :: 0 <= k < i ==> !WrongDataset(trials[k], dataset)
    {
      if WrongDataset(trials[i], dataset) {
        return Err("another dataset");
      }
    }
    if subjectProblem.Some? {
      return Err(subjectProblem.value);
    }
    var indices: map<string, nat> := map[];
    var bundles := [];
    for i := 0 to |trials|
      invariant forall k :: 0 <= k < i ==> trials[k].problem.None?
      invariant bundles == Number(trials[..i])
      invariant forall id :: (if id in indices then indices[id] else 0) == Count(trials[..i], id)
    {
      var t := trials[i];
      ghost var next := trials[..i + 1];
      assert next[..i] == trials[..i];
      var id := TaskId(t.taskName);
      var index := if id in indices then indices[id] else 0;
      ghost var was := indices;
      indices := indices[id := index + 1];
      forall x ensures (if x in indices then indices[x] else 0) == Count(next, x) {
        assert (if x in was then was[x] else 0) == Count(trials[..i], x);
      }
      if t.problem.Some? {
        return Err(t.problem.value);
      }
      bundles := bundles + [Bundle(id, index, t)];
    }
    assert trials[..|trials|] == trials;
    r := Ok(bundles);
  }

  lemma {:induction false} NumberAt(trials: seq<Trial>, i: nat)
    requires i < |trials|
    ensures Number(trials)[i] == Bundle(TaskId(trials[i].taskName), Count(trials[..i], TaskId(trials[i].taskName)), trials[i])
  {
    if i < |trials| - 1 {
      NumberAt(trials[..|trials| - 1], i);
      assert trials[..|trials| - 1][..i] == trials[..i];
    }
  }

  lemma {:induction false} CountGrows(trials: seq<Trial>, id: string, i: nat, j: nat)
    requires i <= j <= |trials|
    ensures Count(trials[..i], id) <= Count(trials[..j], id)
    ensures i < j && TaskId(trials[i].taskName) == id ==> Count(trials[..i], id) < Count(trials[..j], id)
    decreases j
  {
    if i < j {
      CountGrows(trials, id, i, j - 1);
      assert trials[..j][..j - 1] == trials[..j - 1];
    }
  }

  /** A task's attempts are numbered in the order of the trials, from zero, without a gap:
      index m is given out exactly when m is below the task's number of trials. */
  lemma {:induction false} IndicesAreExact(trials: seq<Trial>, id: string, m: nat)
    ensures (exists b :: b in Number(trials) && b.taskId == id && b.index == m) <==> m < Count(trials, id)
  {
    if trials != [] {
      var before, last := trials[..|trials| - 1], Number(trials)[|trials| - 1];
      IndicesAreExact(before, id, m);
      assert forall b :: b in Number(trials) <==> b in Number(before) || b == last;
    }
  }

  /** Later trials of a task get larger numbers, so no two bundles share task and index. */
  lemma NumbersIncrease(trials: seq<Trial>, i: nat, j: nat)
    requires i < j < |trials| && Number(trials)[i].taskId == Number(trials)[j].taskId
    ensures Number(trials)[i].index < Number(trials)[j].index
  {
    NumberAt(trials, i);
    NumberAt(trials, j);
    CountGrows(trials, TaskId(trials[i].taskName), i, j);
  }

  // ---------- where a bundle is filed ----------

  predicate ValidChar(c: char) {
    'a' <= c <= 'z' || 'A' <= c <= 'Z' || '0' <= c <= '9' || c == '-' || c == '_' || c == '.'
  }

  predicate ValidId(s: string) {
    s != "" && s != "." && s != ".." && forall i :: 0 <= i < |s| ==> ValidChar(s[i])
  }

  function Decimal(n: nat): (s: string)
    ensures s != []
  {
    if n < 10 then [('0' as int + n) as char] else Decimal(n / 10) + [('0' as int + n % 10) as char]
  }

  function FromDecimal(s: string): int {
    if s == [] then 0 else 10 * FromDecimal(s[..|s| - 1]) + (s[|s| - 1] as int - '0' as int)
  }

  lemma {:induction false} DecimalUndone(n: nat)
    ensures FromDecimal(Decimal(n)) == n
  {
    if n >= 10 {
      DecimalUndone(n / 10);
      assert Decimal(n)[..|Decimal(n)| - 1] == Decimal(n / 10);
    } else {
      assert Decimal(n)[..0] == [];
    }
  }

  function DirOf(root: string, id: string, index: nat): string {
    root + "/trials/" + id + "/" + Decimal(index)
  }

  function TrialDir(root: string, id: string, index: int): Result<string, string> {
    if !ValidId(id) then Err("task id")
    else if index < 0 then Err("trial index")
    else Ok(DirOf(root, id, index))
  }

  lemma {:induction false} SlashSplits(a: string, x: string, b: string, y: string)
    requires '/' !in a && '/' !in b && a + "/" + x == b + "/" + y
    ensures a == b && x == y
  {
    var s, t := a + "/" + x, b + "/" + y;
    assert s[0] == t[0];
    assert a == [] ==> s[0] == '/' && s[1..] == x;
    assert b == [] ==> t[0] == '/' && t[1..] == y;
    assert a != [] ==> s[0] == a[0] != '/';
    assert b != [] ==> t[0] == b[0] != '/';
    if a != [] && b != [] {
      assert s[1..] == a[1..] + "/" + x && t[1..] == b[1..] + "/" + y;
      SlashSplits(a[1..], x, b[1..], y);
      assert a == [a[0]] + a[1..] && b == [b[0]] + b[1..];
    }
  }

  /** For example, attempt twelve of a task. */
  lemma DirForm()
    ensures TrialDir("out", "task-1", 12) == Ok("out/trials/task-1/12")
    ensures TrialDir("out", "a/b", 0).Err? && TrialDir("out", "..", 0).Err? && TrialDir("out", "task-1", -1).Err?
  {
    assert Decimal(12) == Decimal(1) + ['2'] == "12";
    assert "out" + "/trials/" + "task-1" + "/" + "12" == "out/trials/task-1/12";
    assert !ValidChar("a/b"[1]);
  }

  /** Different attempts are filed in different directories. */
  lemma DirsDiffer(root: string, id: string, index: int, id2: string, index2: int)
    requires TrialDir(root, id, index).Ok? && TrialDir(root, id2, index2).Ok?
    ensures TrialDir(root, id, index) == TrialDir(root, id2, index2) ==> id == id2 && index == index2
  {
    if TrialDir(root, id, index) == TrialDir(root, id2, index2) {
      var prefix := root + "/trials/";
      var d, e := DirOf(root, id, index), DirOf(root, id2, index2);
      assert d[|prefix|..] == id + "/" + Decimal(index) && e[|prefix|..] == id2 + "/" + Decimal(index2);
      SlashSplits(id, Decimal(index), id2, Decimal(index2));
      DecimalUndone(index);
      DecimalUndone(index2);
    }
  }

  predicate BundleLess(a: Bundle, b: Bundle) {
    if a.taskId != b.taskId then Less(a.taskId, b.taskId) else a.index < b.index
  }

  function Filed(dirs: seq<string>, bundles: map<string, Bundle>): seq<Bundle>
    requires forall d :: d in dirs ==> d in bundles
  {
    seq(|dirs|, i requires 0 <= i < |dirs| => assert dirs[i] in dirs; bundles[dirs[i]])
  }

  /** A bundle tree: one bundle to a directory, the last one written. */
  class BundleTree {
    var bundles: map<string, Bundle>

    constructor ()
      ensures bundles == map[]
    {
      bundles := map[];
    }

    /** Files one bundle; diskOk is whether the directory and the file could be written. */
    method WriteBundle(root: string, b: Bundle, diskOk: bool) returns (r: Result<string, string>)
      modifies this
      ensures r.Ok? <==> diskOk && TrialDir(root, b.taskId, b.index).Ok?
      ensures r.Ok? ==> r == TrialDir(root, b.taskId, b.index)
      ensures bundles == if r.Ok? then old(bundles)[r.value := b] else old(bundles)
    {
      r := TrialDir(root, b.taskId, b.index);
      if r.Ok? {
        if !diskOk {
          return Err("write");
        }
        bundles := bundles[r.value := b];
      }
    }

    /** Writes every bundle in turn, stopping at the first that cannot be written; what was
        written before it stays. */
    method WriteAll(root: string, bs: seq<Bundle>, diskOk: nat -> bool) returns (r: Result<nat, string>, written: nat)
      modifies this
      ensures written <= |bs| && bundles == AllFiled(root, bs[..written], old(bundles))
      ensures forall k :: 0 <= k < written ==> ValidId(bs[k].taskId) && diskOk(k)
      ensures r.Ok? <==> written == |bs|
      ensures r.Err? ==> !ValidId(bs[written].taskId) || !diskOk(written)
    {
      hide ValidId, DirOf;
      written := 0;
      while written < |bs|
        invariant written <= |bs| && bundles == AllFiled(root, bs[..written], old(bundles))
        invariant forall k :: 0 <= k < written ==> ValidId(bs[k].taskId) && diskOk(k)
      {
        assert bs[..written + 1][..written] == bs[..written];
        var dir := WriteBundle(root, bs[written], diskOk(written));
        if dir.Err? {
          return Err(dir.error), written;
        }
        written := written + 1;
      }
      r := Ok(written);
    }

    /** Every bundle filed, ordered by task, then index; readable says which manifests can be
        read and are of this contract's version. */
    method ReadBundles(readable: string -> bool) returns (r: Result<seq<Bundle>, string>)
      ensures r.Ok? <==> forall d :: d in bundles ==> readable(d)
      ensures r.Ok? ==> exists dirs :: Lists(dirs, bundles.Keys) && r.value == Sort(Filed(dirs, bundles), BundleLess)
    {
      var dirs := SortedList(bundles.Keys);
      var s := [];
      for i := 0 to |dirs|
        invariant |s| == i && forall k :: 0 <= k < i ==> s[k] == Filed(dirs, bundles)[k] && readable(dirs[k])
      {
        assert dirs[i] in dirs;
        if !readable(dirs[i]) {
          return Err("unreadable");
        }
        s := s + [bundles[dirs[i]]];
      }
      assert s == Filed(dirs, bundles);
      r := Ok(Sort(s, BundleLess));
    }
  }

  function AllFiled(root: string, bs: seq<Bundle>, bundles: map<string, Bundle>): map<string, Bundle> {
    if bs == [] then bundles
    else
      var last := bs[|bs| - 1];
      AllFiled(root, bs[..|bs| - 1], bundles)[DirOf(root, last.taskId, last.index) := last]
  }

  // ---------- what an import leaves ----------

  /** No two bundles have the same task and index. */
  ghost predicate OwnPlaces(bs: seq<Bundle>) {
    forall i, j :: 0 <= i < j < |bs| ==> bs[i].taskId != bs[j].taskId || bs[i].index != bs[j].index
  }

  lemma NumberedHaveOwnPlaces(trials: seq<Trial>)
    ensures OwnPlaces(Number(trials))
  {
    forall i, j | 0 <= i < j < |trials|
      ensures Number(trials)[i].taskId != Number(trials)[j].taskId || Number(trials)[i].index != Number(trials)[j].index
    {
      if Number(trials)[i].taskId == Number(trials)[j].taskId {
        NumbersIncrease(trials, i, j);
      }
    }
  }

  /** Writing bundles with places of their own into an empty tree overwrites none. */
  lemma {:induction false} NothingOverwritten(root: string, bs: seq<Bundle>)
    requires OwnPlaces(bs) && forall b :: b in bs ==> ValidId(b.taskId)
    ensures forall b :: b in bs ==>
              DirOf(root, b.taskId, b.index) in AllFiled(root, bs, map[]) && AllFiled(root, bs, map[])[DirOf(root, b.taskId, b.index)] == b
    ensures forall d :: d in AllFiled(root, bs, map[]) ==>
              var b := AllFiled(root, bs, map[])[d]; b in bs && d == DirOf(root, b.taskId, b.index)
  {
    hide ValidId, DirOf;
    if bs != [] {
      var before, last := bs[..|bs| - 1], bs[|bs| - 1];
      assert forall b :: b in bs <==> b in before || b == last;
      NothingOverwritten(root, before);
      forall b | b in before ensures DirOf(root, b.taskId, b.index) != DirOf(root, last.taskId, last.index) {
        var i :| 0 <= i < |before| && before[i] == b;
        assert bs[i] == b && i < |bs| - 1;
        DirsDiffer(root, b.taskId, b.index, last.taskId, last.index);
      }
    }
  }

  lemma BundleLessIsOrder()
    ensures IsOrder(BundleLess)
  {
    LessIsOrder();
    forall a, b: Bundle | BundleLess(a, b) ensures !BundleLess(b, a) {
      LessIsTotal(a.taskId, b.taskId);
    }
    forall a, b, c: Bundle | !BundleLess(a, b) && !BundleLess(b, c) ensures !BundleLess(a, c) {
      LessIsTotal(a.taskId, b.taskId);
      LessIsTotal(b.taskId, c.taskId);
      LessIsTotal(a.taskId, c.taskId);
    }
  }

  lemma {:induction false} OwnPlacesDoNotRepeat(bs: seq<Bundle>)
    requires OwnPlaces(bs)
    ensures NoRepeats(bs)
  {
    if bs != [] {
      assert forall i :: 0 <= i < |bs[1..]| ==> bs[1..][i] == bs[i + 1];
      OwnPlacesDoNotRepeat(bs[1..]);
    }
  }

  lemma {:induction false} FiledDoNotRepeat(dirs: seq<string>, bundles: map<string, Bundle>)
    requires NoRepeats(dirs) && forall d :: d in dirs ==> d in bundles
    requires forall d, e :: d in bundles && e in bundles && bundles[d] == bundles[e] ==> d == e
    ensures NoRepeats(Filed(dirs, bundles))
  {
    if dirs != [] {
      FiledDoNotRepeat(dirs[1..], bundles);
      assert Filed(dirs, bundles)[1..] == Filed(dirs[1..], bundles);
    }
  }

  /** Importing into an empty tree and reading it back gives every attempt once, by task
      and index, whatever the directories are called. */
  lemma ImportReadsBack(root: string, trials: seq<Trial>, dirs: seq<string>)
    requires forall b :: b in Number(trials) ==> ValidId(b.taskId)
    requires Lists(dirs, AllFiled(root, Number(trials), map[]).Keys)
    ensures Sort(Filed(dirs, AllFiled(root, Number(trials), map[])), BundleLess) == Sort(Number(trials), BundleLess)
    ensures Sorted(Sort(Number(trials), BundleLess), BundleLess)
    ensures multiset(Sort(Number(trials), BundleLess)) == multiset(Number(trials))
  {
    var bs, tree := Number(trials), AllFiled(root, Number(trials), map[]);
    NumberedHaveOwnPlaces(trials);
    NothingOverwritten(root, bs);
    OwnPlacesDoNotRepeat(bs);
    hide DirOf, ValidId, AllFiled, Number, Sorted;
    FiledDoNotRepeat(dirs, tree);
    FiledAreAll(root, bs, tree, dirs);
    SameSetSameMultiset(Filed(dirs, tree), bs);
    BundleLessIsOrder();
    SortSorts(bs, BundleLess);
    PlacesDecide(bs);
    SameElements(bs, Filed(dirs, tree));
    SortIsCanonical(bs, Filed(dirs, tree), BundleLess);
  }

  lemma FiledAreAll(root: string, bs: seq<Bundle>, tree: map<string, Bundle>, dirs: seq<string>)
    requires forall b :: b in bs ==> DirOf(root, b.taskId, b.index) in tree && tree[DirOf(root, b.taskId, b.index)] == b
    requires forall d :: d in tree ==> tree[d] in bs
    requires forall d :: d in dirs <==> d in tree
    ensures forall b :: b in Filed(dirs, tree) <==> b in bs
  {
    hide DirOf;
    forall b | b in bs ensures b in Filed(dirs, tree) {
      var d := DirOf(root, b.taskId, b.index);
      assert d in dirs;
      var i :| 0 <= i < |dirs| && dirs[i] == d;
      assert Filed(dirs, tree)[i] == b;
    }
    forall b | b in Filed(dirs, tree) ensures b in bs {
      var i :| 0 <= i < |dirs| && Filed(dirs, tree)[i] == b;
      assert dirs[i] in dirs;
    }
  }

  lemma PlacesDecide(bs: seq<Bundle>)
    requires OwnPlaces(bs)
    ensures Decides(BundleLess, bs)
  {
    forall a, b | a in bs && b in bs && a != b ensures BundleLess(a, b) || BundleLess(b, a) {
      var i :| 0 <= i < |bs| && bs[i] == a;
      var j :| 0 <= j < |bs| && bs[j] == b;
      LessIsTotal(a.taskId, b.taskId);
      assert i < j || j < i;
    }
  }

  /** What is read back goes by task, then by index. */
  lemma ReadBackTells(bs: seq<Bundle>, i: nat, j: nat)
    requires OwnPlaces(bs) && i < j < |bs|
    ensures |Sort(bs, BundleLess)| == |bs|
    ensures var a, b := Sort(bs, BundleLess)[i], Sort(bs, BundleLess)[j];
            Less(a.taskId, b.taskId) || (a.taskId == b.taskId && a.index < b.index)
  {
    var sorted := Sort(bs, BundleLess);
    BundleLessIsOrder();
    SortSorts(bs, BundleLess);
    SameElements(bs, sorted);
    SortedThroughout(sorted, BundleLess, i, j);
    OwnPlacesDoNotRepeat(bs);
    Rearranged(bs, sorted);
    Ranks.Apart(sorted, i, j);
    PlacesDecide(bs);
    assert sorted[i] in bs && sorted[j] in bs;
    LessIsTotal(sorted[i].taskId, sorted[j].taskId);
  }

  // ---------- what the experiment records ----------

  function CountOf(bs: seq<Bundle>, id: string): nat {
    if bs == [] then 0 else CountOf(bs[..|bs| - 1], id) + if bs[|bs| - 1].taskId == id then 1 else 0
  }

  /** The largest number of attempts any task reached. */
  method Attempts(bs: seq<Bundle>) returns (most: nat)
    ensures forall id :: CountOf(bs, id) <= most
    ensures bs != [] ==> exists b :: b in bs && CountOf(bs, b.taskId) == most
    ensures bs == [] ==> most == 0
  {
    var counts: map<string, nat> := map[];
    most := 0;
    ghost var at := 0;
    for i := 0 to |bs|
      invariant forall id :: (if id in counts then counts[id] else 0) == CountOf(bs[..i], id)
      invariant forall id :: CountOf(bs[..i], id) <= most
      invariant if i == 0 then most == 0 else 0 <= at < i && CountOf(bs[..i], bs[at].taskId) == most
    {
      ghost var before, next := bs[..i], bs[..i + 1];
      assert next[..i] == before;
      var id := bs[i].taskId;
      assert (if id in counts then counts[id] else 0) == CountOf(before, id);
      ghost var was := counts;
      counts := counts[id := (if id in counts then counts[id] else 0) + 1];
      forall x ensures (if x in counts then counts[x] else 0) == CountOf(next, x) {
        assert (if x in was then was[x] else 0) == CountOf(before, x);
      }
      assert counts[id] == CountOf(next, id);
      if counts[id] > most {
        most := counts[id];
        at := i;
      } else if i == 0 {
        at := 0;
      }
      forall x ensures CountOf(next, x) <= most {
        assert CountOf(before, x) <= most;
      }
    }
    assert bs[..|bs|] == bs;
    assert bs != [] ==> bs[at] in bs;
  }

  lemma {:induction false} CountsAgree(trials: seq<Trial>, id: string)
    ensures CountOf(Number(trials), id) == Count(trials, id)
  {
    if trials != [] {
      CountsAgree(trials[..|trials| - 1], id);
    }
  }

  /** The task ids, in order and without repeats. */
  method Tasks(bs: seq<Bundle>) returns (tasks: seq<string>)
    ensures NoRepeats(tasks) && forall id :: id in tasks <==> CountOf(bs, id) > 0
    ensures tasks == FirstSeen(bs)
  {
    var seen: set<string> := {};
    tasks := [];
    for i := 0 to |bs|
      invariant tasks == FirstSeen(bs[..i]) && NoRepeats(tasks)
      invariant forall id :: id in seen <==> id in tasks
      invariant forall id :: id in tasks <==> CountOf(bs[..i], id) > 0
    {
      assert bs[..i + 1][..i] == bs[..i];
      var id := bs[i].taskId;
      if id !in seen {
        NoRepeatsAppend(tasks, id);
        seen := seen + {id};
        tasks := tasks + [id];
      }
    }
    assert bs[..|bs|] == bs;
  }

  /** Each id where it first occurs. */
  function FirstSeen(bs: seq<Bundle>): seq<string> {
    if bs == [] then []
    else
      var before, id := bs[..|bs| - 1], bs[|bs| - 1].taskId;
      FirstSeen(before) + if CountOf(before, id) == 0 then [id] else []
  }

  /** Bundle k is the first of its task. */
  ghost predicate FirstOf(bs: seq<Bundle>, k: int, id: string) {
    0 <= k < |bs| && bs[k].taskId == id && forall j :: 0 <= j < k ==> bs[j].taskId != id
  }

  lemma {:induction false} CountIsPresence(bs: seq<Bundle>, id: string)
    ensures CountOf(bs, id) == 0 <==> forall k :: 0 <= k < |bs| ==> bs[k].taskId != id
  {
    if bs != [] {
      CountIsPresence(bs[..|bs| - 1], id);
    }
  }

  lemma FirstsStay(bs: seq<Bundle>, at: seq<nat>, ids: seq<string>)
    requires bs != [] && AreFirsts(bs[..|bs| - 1], at, ids)
    ensures AreFirsts(bs, at, ids)
    ensures CountOf(bs[..|bs| - 1], bs[|bs| - 1].taskId) == 0 ==> AreFirsts(bs, at + [|bs| - 1], ids + [bs[|bs| - 1].taskId])
  {
    var n := |bs| - 1;
    CountIsPresence(bs[..n], bs[n].taskId);
    Ranks.RisingAppend(at, n);
    forall k | 0 <= k < |at| ensures FirstOf(bs, at[k], ids[k]) {
      assert FirstOf(bs[..n], at[k], ids[k]);
    }
  }

  /** The ids' first bundles stand at these places, in this order. */
  ghost predicate AreFirsts(bs: seq<Bundle>, at: seq<nat>, ids: seq<string>) {
    |at| == |ids| && Ranks.Rising(at, |bs|) && forall k :: 0 <= k < |at| ==> FirstOf(bs, at[k], ids[k])
  }

  /** The tasks stand in the order of their first bundles. */
  lemma {:induction false} TasksInOrder(bs: seq<Bundle>) returns (at: seq<nat>)
    ensures AreFirsts(bs, at, FirstSeen(bs))
  {
    at := [];
    if bs != [] {
      hide AreFirsts, CountOf;
      var n := |bs| - 1;
      at := TasksInOrder(bs[..n]);
      FirstsStay(bs, at, FirstSeen(bs[..n]));
      if CountOf(bs[..n], bs[n].taskId) == 0 {
        at := at + [n];
      } else {
        assert FirstSeen(bs) == FirstSeen(bs[..n]);
      }
    }
  }

  /** Attempts numbered by an import: the largest count is that of some task's trials,
      and every one of its indices below it was given out. */
  lemma MostAttemptsAreNumbered(trials: seq<Trial>, id: string, most: nat, m: nat)
    requires CountOf(Number(trials), id) == most && m < most
    ensures exists b :: b in Number(trials) && b.taskId == id && b.index == m
  {
    CountsAgree(trials, id);
    IndicesAreExact(trials, id, m);
  }
}
