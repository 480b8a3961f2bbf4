/** Opening a session an interruption left mid-turn: which calls are uncertain, the
    records that answer them, and what a second open then finds. */
module Recoveries {
  import opened Outcome
  import opened Journal
  import opened Reducer
  import opened Branching
  import opened SessionContexts
  import opened Readings
  import Ranks

  /** The last turn on a branch, as the forward walk leaves it. */
  datatype TurnScan = TurnScan(
    turnID: string,
    open: bool,
    requested: seq<ToolCall>,
    entered: map<Id, string>,
    answered: set<Id>)

  const NO_TURN := TurnScan("", false, [], map[], {})

  function ScanItem(t: TurnScan, p: Payload): TurnScan {
    match p
    case TurnStarted(run) => TurnScan(run, true, [], map[], {})
    case TurnFinished(_, _) => TurnScan(t.turnID, false, [], map[], {})
    case MessageItem(m) => t.(requested := t.requested + m.toolCalls)
    case ToolExecutionStarted(call, name) => t.(entered := t.entered[call := name])
    case ToolResult(call, _, _, _) => t.(answered := t.answered + {call})
    case _ => t
  }

  function Scan(b: seq<Item>): TurnScan {
    if b == [] then NO_TURN else ScanItem(Scan(Init(b)), Last(b).payload)
  }

  datatype CallOutcome = CallOutcome(callID: Id, toolName: string)

  datatype Recovery = Recovery(turnID: string, uncertain: seq<CallOutcome>, notStarted: seq<CallOutcome>)

  const NOTHING_TO_REPAIR := Recovery("", [], [])

  /** The name an uncertain call is reported under: the one recorded on entry, if any. */
  function ReportedName(call: ToolCall, entered: map<Id, string>): string {
    if call.id in entered && entered[call.id] != "" then entered[call.id] else call.name
  }

  function UncertainAmong(calls: seq<ToolCall>, t: TurnScan): seq<CallOutcome> {
    if calls == [] then []
    else
      var rest, call := UncertainAmong(calls[..|calls| - 1], t), calls[|calls| - 1];
      if call.id !in t.answered && call.id in t.entered
      then rest + [CallOutcome(call.id, ReportedName(call, t.entered))] else rest
  }

  function NotStartedAmong(calls: seq<ToolCall>, t: TurnScan): seq<CallOutcome> {
    if calls == [] then []
    else
      var rest, call := NotStartedAmong(calls[..|calls| - 1], t), calls[|calls| - 1];
      if call.id !in t.answered && call.id !in t.entered then rest + [CallOutcome(call.id, call.name)] else rest
  }

  predicate Names(calls: seq<CallOutcome>, id: Id) {
    exists k :: 0 <= k < |calls| && calls[k].callID == id
  }

  /** Calls entered with no message on record having asked for them: each once, in the
      arbitrary order a map is walked. */
  ghost predicate IsUnrequested(extra: seq<CallOutcome>, t: TurnScan) {
    && (forall j, k :: 0 <= j < k < |extra| ==> extra[j].callID != extra[k].callID)
    && (forall k :: 0 <= k < |extra| ==> extra[k].callID in t.entered && extra[k].toolName == t.entered[extra[k].callID])
    && (forall id :: Names(extra, id) <==>
          id in t.entered && id !in t.answered
          && !Names(UncertainAmong(t.requested, t), id) && !Names(NotStartedAmong(t.requested, t), id))
  }

  /** What analysing a branch may report. */
  ghost predicate IsAnalysis(b: seq<Item>, rec: Recovery) {
    var t := Scan(b);
    if !t.open then rec == NOTHING_TO_REPAIR
    else
      && rec.turnID == t.turnID
      && rec.notStarted == NotStartedAmong(t.requested, t)
      && |UncertainAmong(t.requested, t)| <= |rec.uncertain|
      && rec.uncertain[..|UncertainAmong(t.requested, t)|] == UncertainAmong(t.requested, t)
      && IsUnrequested(rec.uncertain[|UncertainAmong(t.requested, t)|..], t)
  }

  method Analyze(items: seq<Item>, head: Id) returns (r: Result<Recovery, Error>)
    ensures match Branch(items, head)
            case Ok(b) => r.Ok? && IsAnalysis(b, r.value)
            case Err(e) => r == Err(e)
  {
    var walked := BranchWalk(items, head);
    if walked.Err? {
      return Err(walked.error);
    }
    var branch := walked.value;
    var t := NO_TURN;
    var i := 0;
    while i < |branch|
      invariant 0 <= i <= |branch| && t == Scan(branch[..i])
    {
      assert Init(branch[..i + 1]) == branch[..i];
      t := ScanItem(t, branch[i].payload);
      i := i + 1;
    }
    assert branch[..i] == branch;
    if !t.open {
      return Ok(NOTHING_TO_REPAIR);
    }
    var rec := Classify(t);
    r := Ok(rec);
  }

  method Classify(t: TurnScan) returns (rec: Recovery)
    ensures rec.turnID == t.turnID && rec.notStarted == NotStartedAmong(t.requested, t)
    ensures |UncertainAmong(t.requested, t)| <= |rec.uncertain|
    ensures rec.uncertain[..|UncertainAmong(t.requested, t)|] == UncertainAmong(t.requested, t)
    ensures IsUnrequested(rec.uncertain[|UncertainAmong(t.requested, t)|..], t)
  {
    var uncertain: seq<CallOutcome>, notStarted: seq<CallOutcome> := [], [];
    var i := 0;
    while i < |t.requested|
      invariant 0 <= i <= |t.requested|
      invariant uncertain == UncertainAmong(t.requested[..i], t)
      invariant notStarted == NotStartedAmong(t.requested[..i], t)
    {
      var call := t.requested[i];
      assert t.requested[..i + 1][..i] == t.requested[..i];
      if call.id !in t.answered {
        if call.id in t.entered {
          uncertain := uncertain + [CallOutcome(call.id, ReportedName(call, t.entered))];
        } else {
          notStarted := notStarted + [CallOutcome(call.id, call.name)];
        }
      }
      i := i + 1;
    }
    assert t.requested[..i] == t.requested;
    var extra := Unrequested(t, uncertain, notStarted);
    assert (uncertain + extra)[|uncertain|..] == extra;
    rec := Recovery(t.turnID, uncertain + extra, notStarted);
  }

  method Unrequested(t: TurnScan, uncertain: seq<CallOutcome>, notStarted: seq<CallOutcome>)
      returns (extra: seq<CallOutcome>)
    requires uncertain == UncertainAmong(t.requested, t) && notStarted == NotStartedAmong(t.requested, t)
    ensures IsUnrequested(extra, t)
  {
    extra := [];
    var left := t.entered.Keys;
    while left != {}
      invariant left <= t.entered.Keys
      invariant forall j, k :: 0 <= j < k < |extra| ==> extra[j].callID != extra[k].callID
      invariant forall k :: 0 <= k < |extra| ==>
                  && extra[k].callID in t.entered && extra[k].callID !in left
                  && extra[k].toolName == t.entered[extra[k].callID]
      invariant forall id :: Names(extra, id) <==>
                  id in t.entered.Keys - left && id !in t.answered && !Names(uncertain, id) && !Names(notStarted, id)
      decreases left
    {
      var id :| id in left;
      left := left - {id};
      if id !in t.answered && !Names(uncertain, id) && !Names(notStarted, id) {
        NamesAppend(extra, CallOutcome(id, t.entered[id]));
        extra := extra + [CallOutcome(id, t.entered[id])];
      }
    }
  }

  lemma NamesAppend(calls: seq<CallOutcome>, c: CallOutcome)
    ensures forall id :: Names(calls + [c], id) <==> Names(calls, id) || id == c.callID
  {
    forall id ensures Names(calls + [c], id) <==> Names(calls, id) || id == c.callID {
      var grown := calls + [c];
      if Names(calls, id) {
        var k :| 0 <= k < |calls| && calls[k].callID == id;
        assert grown[k].callID == id;
      }
      assert grown[|calls|] == c;
    }
  }

  // ---------- the repair ----------

  const STATUS_UNKNOWN := "unknown"

  function CallIDs(calls: seq<CallOutcome>): seq<Id> {
    seq(|calls|, i requires 0 <= i < |calls| => calls[i].callID)
  }

  function UnknownResult(call: Id): Payload {
    ToolResult(call, STATUS_UNKNOWN, "", [])
  }

  /** The payloads a repair writes: the recovery record, then an unknown result per
      uncertain call. */
  function RepairPayloads(rec: Recovery): seq<Payload> {
    [TurnRecovered(rec.turnID, CallIDs(rec.uncertain))] +
    seq(|rec.uncertain|, i requires 0 <= i < |rec.uncertain| => UnknownResult(rec.uncertain[i].callID))
  }

  function RepairEdits(rec: Recovery, ids: seq<Id>): seq<Edit>
    requires |ids| == |rec.uncertain| + 1
  {
    Continues(rec.turnID, RepairPayloads(rec), ids)
  }

  method BuildRecoveryItems(items: seq<Item>, rec: Recovery, ids: seq<Id>) returns (repair: seq<Item>)
    requires WellFormed(items) && |ids| == |rec.uncertain| + 1 && FreshIds(items, ids)
    ensures items + repair == Run(items, RepairEdits(rec, ids))
    ensures AllAllowed(items, RepairEdits(rec, ids)) && WellFormed(items + repair)
  {
    var parent, seqNo;
    repair, parent, seqNo := BuildBatch(items, HeadOf(items), LastSeq(items), rec.turnID, RepairPayloads(rec), ids);
  }

  ghost predicate DistinctCalls(calls: seq<CallOutcome>) {
    forall j, k :: 0 <= j < k < |calls| ==> calls[j].callID != calls[k].callID
  }

  /** Commits only lengthen the live branch, by exactly the records they write. */
  lemma {:induction false} ContinuesOnly(items: seq<Item>, edits: seq<Edit>)
    requires WellFormed(items) && AllAllowed(items, edits)
    requires forall e :: e in edits ==> e.Continue?
    ensures |Run(items, edits)| == |items| + |edits|
    ensures Live(Run(items, edits)) == Live(items) + Run(items, edits)[|items|..]
  {
    if edits == [] {
      assert Live(items) + items[|items|..] == Live(items);
    } else {
      hide Live, WellFormed, AllAllowed, Run, Allowed;
      var n := |edits| - 1;
      assert edits[..n + 1] == edits;
      RunOneMore(items, edits, n);
      ContinuesOnly(items, edits[..n]);
      RunKeepsJournal(items, edits[..n]);
      EditKeepsJournal(Run(items, edits[..n]), edits[n]);
      TailGrows(Live(items), Run(items, edits[..n]), NewRecord(Run(items, edits[..n]), edits[n]), |items|);
    }
  }

  lemma TailGrows(front: seq<Item>, s: seq<Item>, it: Item, k: nat)
    requires k <= |s|
    ensures (front + s[k..]) + [it] == front + (s + [it])[k..]
  {
  }

  /** Records answering the given calls with an unknown result, one each. */
  ghost predicate AreUnknownResults(recs: seq<Item>, calls: seq<CallOutcome>) {
    |recs| == |calls| && forall k :: 0 <= k < |recs| ==> recs[k].payload == ToolResult(calls[k].callID, "unknown", "", [])
  }

  ghost predicate NoneAnswered(b: seq<Item>, calls: seq<CallOutcome>) {
    forall k :: 0 <= k < |calls| ==> !Answered(b, calls[k].callID)
  }

  function UnknownMessages(calls: seq<CallOutcome>): seq<Message> {
    if calls == [] then []
    else UnknownMessages(calls[..|calls| - 1]) + [Projection(UnknownResult(calls[|calls| - 1].callID))]
  }

  lemma ResultsAnswer(b: seq<Item>, recs: seq<Item>, calls: seq<CallOutcome>)
    requires AreUnknownResults(recs, calls)
    ensures forall c :: Answered(b + recs, c) <==> Answered(b, c) || Names(calls, c)
    ensures Summary(b + recs) == Summary(b).(messages := Summary(b).messages + UnknownMessages(calls))
  {
    ResultsAnswerCalls(b, recs, calls);
    ResultsRead(b, recs, calls);
  }

  lemma {:induction false} ResultsAnswerCalls(b: seq<Item>, recs: seq<Item>, calls: seq<CallOutcome>)
    requires AreUnknownResults(recs, calls)
    ensures forall c :: Answered(b + recs, c) <==> Answered(b, c) || Names(calls, c)
  {
    if recs == [] {
      assert b + recs == b;
    } else {
      hide Answered, Summary;
      var r, rest, c := Last(recs), Init(recs), calls[..|calls| - 1];
      ResultsAnswerCalls(b, rest, c);
      assert b + recs == (b + rest) + [r] && calls == c + [calls[|calls| - 1]];
      SummaryAppend(b + rest, r);
      NamesAppend(c, calls[|calls| - 1]);
    }
  }

  lemma UnknownResultReads(b: seq<Item>, r: Item, call: Id)
    requires r.payload == UnknownResult(call)
    ensures Summary(b + [r]) == Summary(b).(messages := Summary(b).messages + [Projection(UnknownResult(call))])
    ensures Scan(b + [r]) == Scan(b).(answered := Scan(b).answered + {call})
  {
    hide Answered, AnsweredOnce, LooksBack, Boundary;
    InitLast(b, r);
    SummaryAppend(b, r);
  }

  lemma {:induction false} ResultsRead(b: seq<Item>, recs: seq<Item>, calls: seq<CallOutcome>)
    requires AreUnknownResults(recs, calls)
    ensures Summary(b + recs) == Summary(b).(messages := Summary(b).messages + UnknownMessages(calls))
  {
    hide Answered, Summary, ApplyItem, Scan, Projection;
    if recs == [] {
      assert b + recs == b;
    } else {
      var n := |calls| - 1;
      ResultsRead(b, Init(recs), calls[..n]);
      assert b + recs == (b + Init(recs)) + [Last(recs)];
      UnknownResultReads(b + Init(recs), Last(recs), calls[n].callID);
    }
  }

  lemma {:induction false} ResultsScan(b: seq<Item>, recs: seq<Item>, calls: seq<CallOutcome>)
    requires AreUnknownResults(recs, calls)
    ensures forall c :: c in Scan(b + recs).answered <==> c in Scan(b).answered || Names(calls, c)
    ensures Scan(b + recs) == Scan(b).(answered := Scan(b + recs).answered)
  {
    hide Scan, Summary, UnknownMessages;
    if recs == [] {
      assert b + recs == b;
    } else {
      var n := |calls| - 1;
      ResultsScan(b, Init(recs), calls[..n]);
      assert b + recs == (b + Init(recs)) + [Last(recs)] && calls == calls[..n] + [calls[n]];
      UnknownResultReads(b + Init(recs), Last(recs), calls[n].callID);
      NamesAppend(calls[..n], calls[n]);
    }
  }

  lemma {:induction false} ResultsAnswerOnce(b: seq<Item>, recs: seq<Item>, calls: seq<CallOutcome>)
    requires AreUnknownResults(recs, calls)
    ensures AnsweredOnce(b + recs) <==> AnsweredOnce(b) && DistinctCalls(calls) && NoneAnswered(b, calls)
  {
    hide Answered, Summary, Scan;
    if recs == [] {
      assert b + recs == b;
    } else {
      var r, rest, c := Last(recs), Init(recs), calls[..|calls| - 1];
      ResultsAnswerOnce(b, rest, c);
      ResultsAnswer(b, rest, c);
      assert b + recs == (b + rest) + [r] && calls == c + [calls[|calls| - 1]];
      SummaryAppend(b + rest, r);
      DistinctAppend(c, calls[|calls| - 1]);
    }
  }

  lemma DistinctAppend(calls: seq<CallOutcome>, c: CallOutcome)
    ensures DistinctCalls(calls + [c]) <==> DistinctCalls(calls) && !Names(calls, c.callID)
  {
    var grown := calls + [c];
    if DistinctCalls(grown) {
      forall j, k | 0 <= j < k < |calls| ensures calls[j].callID != calls[k].callID {
        assert grown[j].callID != grown[k].callID;
      }
      forall k | 0 <= k < |calls| ensures calls[k].callID != c.callID {
        assert grown[k].callID != grown[|calls|].callID;
      }
    }
  }

  /** The live branch a repair leaves behind: the old one, the recovery record, and
      one unknown result per uncertain call. */
  lemma RepairedBranch(items: seq<Item>, rec: Recovery, ids: seq<Id>) returns (mark: Item, recs: seq<Item>)
    requires WellFormed(items) && |ids| == |rec.uncertain| + 1 && AllAllowed(items, RepairEdits(rec, ids))
    ensures WellFormed(Run(items, RepairEdits(rec, ids)))
    ensures Live(Run(items, RepairEdits(rec, ids))) == (Live(items) + [mark]) + recs
    ensures mark.payload == TurnRecovered(rec.turnID, CallIDs(rec.uncertain)) && AreUnknownResults(recs, rec.uncertain)
  {
    hide Live, WellFormed, AllAllowed, Run;
    var edits := RepairEdits(rec, ids);
    ContinuesOnly(items, edits);
    RunKeepsJournal(items, edits);
    var written := Run(items, edits)[|items|..];
    forall k | 0 <= k < |edits| ensures written[k].payload == RepairPayloads(rec)[k] {
      RunWrites(items, edits, k);
      assert edits[k] == Continue(rec.turnID, RepairPayloads(rec)[k], ids[k]);
    }
    mark, recs := written[0], written[1..];
    assert written == [mark] + recs;
    assert Live(items) + written == (Live(items) + [mark]) + recs;
  }

  /** The interrupted turn's uncertain calls all gain a result: the repaired branch
      shows one unknown tool message for each, and nothing else changes. It reopens
      exactly when those calls are pairwise distinct and none was answered earlier on
      the branch; otherwise the records are already written and every later open of
      this session is refused. */
  lemma RepairReopensIff(items: seq<Item>, rec: Recovery, ids: seq<Id>)
    requires WellFormed(items) && |ids| == |rec.uncertain| + 1 && AllAllowed(items, RepairEdits(rec, ids))
    requires Reduce(items, HeadOf(items)).Ok?
    ensures var repaired := Run(items, RepairEdits(rec, ids));
            && (Reduce(repaired, HeadOf(repaired)).Ok? <==>
                DistinctCalls(rec.uncertain) && NoneAnswered(Live(items), rec.uncertain))
            && Summary(Live(repaired)) ==
               Summary(Live(items)).(messages := Summary(Live(items)).messages + UnknownMessages(rec.uncertain))
  {
    hide Live, WellFormed, AllAllowed, Run, Summary, AnsweredOnce, Answered, Reduce, UnknownMessages, RepairEdits;
    var mark, recs := RepairedBranch(items, rec, ids);
    var b := Live(items);
    LiveReplay(items);
    LiveReplay(Run(items, RepairEdits(rec, ids)));
    SummaryAppend(b, mark);
    ResultsAnswer(b + [mark], recs, rec.uncertain);
    ResultsAnswerOnce(b + [mark], recs, rec.uncertain);
  }

  lemma {:induction false} NoneUncertain(calls: seq<ToolCall>, t: TurnScan, wider: TurnScan)
    requires wider == t.(answered := wider.answered) && t.answered <= wider.answered
    requires forall c :: Names(UncertainAmong(calls, t), c) ==> c in wider.answered
    requires forall c :: c in wider.answered - t.answered ==> c in t.entered
    ensures UncertainAmong(calls, wider) == []
    ensures NotStartedAmong(calls, wider) == NotStartedAmong(calls, t)
  {
    if calls != [] {
      var init, call := calls[..|calls| - 1], calls[|calls| - 1];
      forall c | Names(UncertainAmong(init, t), c) ensures c in wider.answered {
        var k :| 0 <= k < |UncertainAmong(init, t)| && UncertainAmong(init, t)[k].callID == c;
        assert UncertainAmong(calls, t)[k].callID == c;
      }
      NoneUncertain(init, t, wider);
      if call.id !in t.answered && call.id in t.entered {
        assert UncertainAmong(calls, t)[|UncertainAmong(init, t)|].callID == call.id;
      }
    }
  }

  lemma {:induction false} UncertainWereEntered(calls: seq<ToolCall>, t: TurnScan, id: Id)
    requires Names(UncertainAmong(calls, t), id)
    ensures id in t.entered && id !in t.answered
  {
    var init, call := calls[..|calls| - 1], calls[|calls| - 1];
    var k :| 0 <= k < |UncertainAmong(calls, t)| && UncertainAmong(calls, t)[k].callID == id;
    if k < |UncertainAmong(init, t)| {
      assert UncertainAmong(init, t)[k].callID == id;
      UncertainWereEntered(init, t, id);
    }
  }

  /** Each unknown message is an empty tool result naming its call. */
  lemma {:induction false} UnknownMessagesTell(calls: seq<CallOutcome>)
    ensures |UnknownMessages(calls)| == |calls|
    ensures forall k :: 0 <= k < |calls| ==> UnknownMessages(calls)[k] == Message("tool", "", "", calls[k].callID, [], [])
  {
    if calls != [] {
      UnknownMessagesTell(calls[..|calls| - 1]);
    }
  }

  /** Every call an analysis calls uncertain was entered and not answered, and every
      call entered and not answered is either uncertain or was never started. */
  lemma AnalysisCovers(b: seq<Item>, rec: Recovery)
    requires IsAnalysis(b, rec) && Scan(b).open
    ensures forall id :: Names(rec.uncertain, id) <==> id in Scan(b).entered && id !in Scan(b).answered
  {
    var t := Scan(b);
    var asked := UncertainAmong(t.requested, t);
    var extra := rec.uncertain[|asked|..];
    assert rec.uncertain == asked + extra;
    forall id ensures Names(rec.uncertain, id) <==> id in t.entered && id !in t.answered {
      NamesConcat(asked, extra, id);
      if Names(asked, id) {
        UncertainWereEntered(t.requested, t, id);
      }
      if Names(NotStartedAmong(t.requested, t), id) {
        NotStartedWereNot(t.requested, t, id);
      }
    }
  }

  lemma {:induction false} NotStartedWereNot(calls: seq<ToolCall>, t: TurnScan, id: Id)
    requires Names(NotStartedAmong(calls, t), id)
    ensures id !in t.entered
  {
    var init := calls[..|calls| - 1];
    var k :| 0 <= k < |NotStartedAmong(calls, t)| && NotStartedAmong(calls, t)[k].callID == id;
    if k < |NotStartedAmong(init, t)| {
      assert NotStartedAmong(init, t)[k].callID == id;
      NotStartedWereNot(init, t, id);
    }
  }

  // ---------- the analysis, by position ----------

  /** What a record may say of a call. */
  datatype Deed = Enter(id: Id) | Answer(id: Id) | Ask(call: ToolCall)

  predicate Does(it: Item, d: Deed) {
    match d
    case Enter(id) => Enters(it, id)
    case Answer(id) => it.payload.ToolResult? && it.payload.answers == id
    case Ask(call) => it.payload.MessageItem? && call in it.payload.message.toolCalls
  }

  /** Some record from position n on says it. */
  ghost predicate Since(b: seq<Item>, n: nat, d: Deed) {
    exists k :: n <= k < |b| && Does(b[k], d)
  }

  lemma SinceGrows(b: seq<Item>, n: nat, d: Deed)
    requires b != [] && n < |b|
    ensures Since(b, n, d) <==> Since(Init(b), n, d) || Does(b[|b| - 1], d)
  {
    var init := Init(b);
    if Since(init, n, d) {
      var k :| n <= k < |init| && Does(init[k], d);
      assert Does(b[k], d);
    }
    if Since(b, n, d) && !Does(b[|b| - 1], d) {
      var k :| n <= k < |b| && Does(b[k], d);
      assert Does(init[k], d);
    }
  }

  /** The walk knows of every such record since the last turn boundary and of no other. */
  ghost predicate Knows(t: TurnScan, d: Deed) {
    match d
    case Enter(id) => id in t.entered
    case Answer(id) => id in t.answered
    case Ask(call) => call in t.requested
  }

  lemma {:induction false} ScanKnows(b: seq<Item>, d: Deed)
    ensures Knows(Scan(b), d) <==> Since(b, Latest(b, Turn), d)
  {
    if b != [] {
      hide Scan, Latest, Since;
      ScanKnows(Init(b), d);
      LatestStep(b, Turn);
      ScanStep(b);
      if Is(b[|b| - 1].payload, Turn) {
        NoneSince(b, |b|, d);
      } else {
        SinceGrows(b, Latest(b, Turn), d);
      }
    } else {
      NoneSince(b, 0, d);
    }
  }

  lemma NoneSince(b: seq<Item>, n: nat, d: Deed)
    requires n == |b|
    ensures !Since(b, n, d)
  {
  }

  lemma ScanStep(b: seq<Item>)
    requires b != []
    ensures Scan(b) == ScanItem(Scan(Init(b)), b[|b| - 1].payload)
  {
  }

  /** The turn it holds is the one the last turn record opened, if that one opened any. */
  lemma {:induction false} ScanTurn(b: seq<Item>)
    ensures var n, t := Latest(b, Turn), Scan(b);
            && (t.open <==> n > 0 && b[n - 1].payload.TurnStarted?)
            && (t.open ==> t.turnID == b[n - 1].payload.runID)
  {
    if b != [] {
      hide Scan, Latest;
      ScanTurn(Init(b));
      LatestStep(b, Turn);
      ScanStep(b);
    }
  }

  /** The name kept for an entered call is the one recorded last. */
  lemma {:induction false} ScanNames(b: seq<Item>, call: Id) returns (k: nat)
    requires call in Scan(b).entered
    ensures Latest(b, Turn) <= k && LastEntry(b, k, call) && Scan(b).entered[call] == b[k].payload.toolName
  {
    LatestStep(b, Turn);
    if Enters(Last(b), call) {
      k := |b| - 1;
    } else {
      k := ScanNames(Init(b), call);
    }
  }

  lemma RequestedGrows(b: seq<Item>)
    requires b != [] && !Is(b[|b| - 1].payload, Turn)
    ensures var p := b[|b| - 1].payload;
            Scan(b).requested == Scan(Init(b)).requested + if p.MessageItem? then p.message.toolCalls else []
  {
  }

  /** The calls a message asks for stand together among those requested, in its order,
      after those asked for before it in the turn. */
  lemma {:induction false} RequestedInOrder(b: seq<Item>, k: nat)
    requires Latest(b, Turn) <= k < |b| && b[k].payload.MessageItem?
    ensures var asked, from := Scan(b).requested, |Scan(b[..k]).requested|;
            var calls := b[k].payload.message.toolCalls;
            from + |calls| <= |asked| && asked[from..from + |calls|] == calls
  {
    hide Latest, Scan;
    LatestStep(b, Turn);
    RequestedGrows(b);
    var before, calls := Scan(Init(b)).requested, b[k].payload.message.toolCalls;
    if k < |b| - 1 {
      RequestedInOrder(Init(b), k);
      assert Init(b)[..k] == b[..k];
      var from := |Scan(b[..k]).requested|;
      assert Scan(b).requested[from..from + |calls|] == before[from..from + |calls|];
    } else {
      assert b[..k] == Init(b);
    }
  }

  /** The requests an analysis sorts: those entered and not answered first, under the name
      recorded on entry unless that is empty; in order, and each as often as asked for. */
  lemma {:induction false} UncertainPicked(calls: seq<ToolCall>, t: TurnScan) returns (at: seq<nat>)
    ensures |at| == |UncertainAmong(calls, t)| && Ranks.Rising(at, |calls|)
    ensures forall i :: 0 <= i < |calls| && calls[i].id in t.entered && calls[i].id !in t.answered ==> i in at
    ensures forall k :: 0 <= k < |at| ==>
              var u, c := UncertainAmong(calls, t)[k], calls[at[k]];
              && c.id in t.entered && c.id !in t.answered
              && u == CallOutcome(c.id, if t.entered[c.id] == "" then c.name else t.entered[c.id])
  {
    at := [];
    if calls != [] {
      var n := |calls| - 1;
      at := UncertainPicked(calls[..n], t);
      Ranks.RisingAppend(at, n);
      if calls[n].id in t.entered && calls[n].id !in t.answered {
        at := at + [n];
      }
    }
  }

  lemma {:induction false} NotStartedPicked(calls: seq<ToolCall>, t: TurnScan) returns (at: seq<nat>)
    ensures |at| == |NotStartedAmong(calls, t)| && Ranks.Rising(at, |calls|)
    ensures forall i :: 0 <= i < |calls| && calls[i].id !in t.entered && calls[i].id !in t.answered ==> i in at
    ensures forall k :: 0 <= k < |at| ==>
              var u, c := NotStartedAmong(calls, t)[k], calls[at[k]];
              && c.id !in t.entered && c.id !in t.answered && u == CallOutcome(c.id, c.name)
  {
    at := [];
    if calls != [] {
      var n := |calls| - 1;
      at := NotStartedPicked(calls[..n], t);
      Ranks.RisingAppend(at, n);
      if calls[n].id !in t.entered && calls[n].id !in t.answered {
        at := at + [n];
      }
    }
  }

  /** A call is reported uncertain exactly if the open turn's records enter it and do not
      answer it, and as not started exactly if they ask for it and do neither. A turn
      that was closed, or never opened, has nothing to repair. */
  lemma AnalysisTells(b: seq<Item>, rec: Recovery, id: Id)
    requires IsAnalysis(b, rec)
    ensures var n := Latest(b, Turn);
            if n == 0 || !b[n - 1].payload.TurnStarted? then rec == Recovery("", [], [])
            else
              && rec.turnID == b[n - 1].payload.runID
              && (Names(rec.uncertain, id) <==> Since(b, n, Enter(id)) && !Since(b, n, Answer(id)))
              && (Names(rec.notStarted, id) <==> AskedSince(b, n, id) && !Since(b, n, Enter(id)) && !Since(b, n, Answer(id)))
  {
    hide Scan, Since, AskedSince, Latest, UncertainAmong, NotStartedAmong;
    ScanTurn(b);
    ScanKnows(b, Enter(id));
    ScanKnows(b, Answer(id));
    if Scan(b).open {
      AnalysisCovers(b, rec);
      AskedFor(b, id);
      NotStartedExactly(Scan(b), id);
    }
  }

  /** An uncertain call goes by the name its last entry recorded, if that is not empty. */
  lemma UncertainNamed(b: seq<Item>, rec: Recovery, i: nat) returns (k: nat)
    requires IsAnalysis(b, rec) && i < |rec.uncertain|
    ensures Latest(b, Turn) <= k && LastEntry(b, k, rec.uncertain[i].callID)
    ensures b[k].payload.toolName != "" ==> rec.uncertain[i].toolName == b[k].payload.toolName
  {
    hide Scan, Latest, UncertainAmong, NotStartedAmong, LastEntry;
    var t := Scan(b);
    AnalysisCovers(b, rec);
    assert Names(rec.uncertain, rec.uncertain[i].callID);
    k := ScanNames(b, rec.uncertain[i].callID);
    var asked := UncertainAmong(t.requested, t);
    if i < |asked| {
      var at := UncertainPicked(t.requested, t);
      assert rec.uncertain[i] == asked[i];
    } else {
      assert rec.uncertain[i] == rec.uncertain[|asked|..][i - |asked|];
    }
  }

  ghost predicate AskedSince(b: seq<Item>, n: nat, id: Id) {
    exists name :: Since(b, n, Ask(ToolCall(id, name)))
  }

  lemma AskedFor(b: seq<Item>, id: Id)
    ensures AskedSince(b, Latest(b, Turn), id) <==> exists name :: ToolCall(id, name) in Scan(b).requested
  {
    hide Scan, Since, Latest;
    forall name ensures ToolCall(id, name) in Scan(b).requested <==> Since(b, Latest(b, Turn), Ask(ToolCall(id, name))) {
      ScanKnows(b, Ask(ToolCall(id, name)));
    }
  }

  lemma NotStartedExactly(t: TurnScan, id: Id)
    ensures Names(NotStartedAmong(t.requested, t), id) <==>
            (exists name :: ToolCall(id, name) in t.requested) && id !in t.entered && id !in t.answered
  {
    var at := NotStartedPicked(t.requested, t);
    var found := NotStartedAmong(t.requested, t);
    if Names(found, id) {
      var k :| 0 <= k < |found| && found[k].callID == id;
      assert t.requested[at[k]] == ToolCall(id, t.requested[at[k]].name);
    }
    if name :| ToolCall(id, name) in t.requested && id !in t.entered && id !in t.answered {
      var i :| 0 <= i < |t.requested| && t.requested[i] == ToolCall(id, name);
      var k :| 0 <= k < |at| && at[k] == i;
      assert found[k].callID == id;
    }
  }

  lemma NamesConcat(a: seq<CallOutcome>, b: seq<CallOutcome>, id: Id)
    ensures Names(a + b, id) <==> Names(a, id) || Names(b, id)
  {
    if Names(a, id) {
      var k :| 0 <= k < |a| && a[k].callID == id;
      assert (a + b)[k].callID == id;
    }
    if Names(b, id) {
      var k :| 0 <= k < |b| && b[k].callID == id;
      assert (a + b)[|a| + k].callID == id;
    }
  }

  /** A second open finds the same turn and the same calls never started, and nothing
      left uncertain: the repair is written once. */
  lemma RepairIsIdempotent(items: seq<Item>, rec: Recovery, ids: seq<Id>, again: Recovery)
    requires WellFormed(items) && |ids| == |rec.uncertain| + 1 && AllAllowed(items, RepairEdits(rec, ids))
    requires Scan(Live(items)).open && IsAnalysis(Live(items), rec)
    requires IsAnalysis(Live(Run(items, RepairEdits(rec, ids))), again)
    ensures again == Recovery(rec.turnID, [], rec.notStarted)
  {
    hide Live, WellFormed, AllAllowed, Run, Summary, Answered, RepairEdits;
    var mark, recs := RepairedBranch(items, rec, ids);
    var b, now := Live(items), Live(Run(items, RepairEdits(rec, ids)));
    var t, wider := Scan(b), Scan(now);
    InitLast(b, mark);
    assert Scan(b + [mark]) == t;
    ResultsScan(b + [mark], recs, rec.uncertain);
    AnalysisCovers(b, rec);
    forall id | Names(UncertainAmong(t.requested, t), id) ensures id in wider.answered {
      UncertainWereEntered(t.requested, t, id);
    }
    NoneUncertain(t.requested, t, wider);
    AnalysisCovers(now, again);
    NamesFirst(again.uncertain);
  }

  lemma NamesFirst(calls: seq<CallOutcome>)
    ensures calls == [] || Names(calls, calls[0].callID)
  {
  }

  /** A supply of ids that are non-empty, distinct and new to a journal. */
  ghost predicate FreshSupply(items: seq<Item>, mint: nat -> Id) {
    && (forall i: nat :: mint(i) != NO_ID && !Has(items, mint(i)))
    && (forall i: nat, j: nat :: i != j ==> mint(i) != mint(j))
  }

  function Minted(mint: nat -> Id, n: nat): seq<Id> {
    seq(n, i requires 0 <= i < n => mint(i))
  }

  /** Opening a session for writing: replay, analyse, repair only what is uncertain, and
      replay the journal as it then stands. A branch that already answers a call twice is
      refused before anything is written. */
  method OpenBranch(items: seq<Item>, mint: nat -> Id, diskOk: bool)
      returns (r: Result<seq<Item>, Error>, found: Recovery)
    requires WellFormed(items) && FreshSupply(items, mint)
    ensures !AnsweredOnce(Live(items)) ==> r == Err(HistoryCorrupt) && found == NOTHING_TO_REPAIR
    ensures AnsweredOnce(Live(items)) ==>
              && IsAnalysis(Live(items), found)
              && (found.uncertain == [] ==> r == Ok(items))
              && (found.uncertain != [] && !diskOk ==> r == Err(WriteFailed))
              && (found.uncertain != [] && diskOk ==>
                    var ids := Minted(mint, |found.uncertain| + 1);
                    && AllAllowed(items, RepairEdits(found, ids))
                    && r == if DistinctCalls(found.uncertain) && NoneAnswered(Live(items), found.uncertain)
                            then Ok(Run(items, RepairEdits(found, ids))) else Err(HistoryCorrupt))
  {
    hide Live, WellFormed, AllAllowed, Run, AnsweredOnce, Answered, Reduce, IsAnalysis, RepairEdits, DistinctCalls, NoneAnswered;
    LiveReplay(items);
    var derived := ReduceLoop(items, HeadOf(items));
    if derived.Err? {
      return Err(derived.error), NOTHING_TO_REPAIR;
    }
    var analysed := Analyze(items, HeadOf(items));
    found := analysed.value;
    if found.uncertain == [] {
      return Ok(items), found;
    }
    if !diskOk {
      return Err(WriteFailed), found;
    }
    var ids := Minted(mint, |found.uncertain| + 1);
    var repair := BuildRecoveryItems(items, found, ids);
    RepairReopensIff(items, found, ids);
    LiveReplay(items + repair);
    var reduced := ReduceLoop(items + repair, HeadOf(items + repair));
    r := if reduced.Ok? then Ok(items + repair) else Err(HistoryCorrupt);
  }
}
