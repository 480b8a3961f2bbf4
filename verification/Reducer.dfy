/** What a branch reduces to: the replay a fresh open performs, and the
    record-by-record summary the live session maintains. */
module Reducer {
  import opened Outcome
  import opened Journal

  datatype State = State(
    messages: seq<Message>,
    compactionIdx: nat,
    compactionSummary: string,
    notes: seq<Note>,
    todos: seq<Todo>,
    additionalPrompt: string,
    lastTurn: string,
    open: bool)

  const EMPTY_STATE := State([], 0, "", [], [], "", "", false)

  function Init(b: seq<Item>): seq<Item>
    requires b != []
  {
    b[..|b| - 1]
  }

  function Last(b: seq<Item>): Item
    requires b != []
  {
    b[|b| - 1]
  }

  lemma InitLast(b: seq<Item>, it: Item)
    ensures Init(b + [it]) == b && Last(b + [it]) == it
  {
  }

  // ---------- counts and projections along a branch ----------

  function CountMessages(b: seq<Item>): nat {
    if b == [] then 0 else CountMessages(Init(b)) + if Last(b).payload.IsMessage() then 1 else 0
  }

  /** The message a record projects to: a tool result becomes the tool-role message. */
  function Projection(p: Payload): Message
    requires p.IsMessage()
  {
    match p
    case MessageItem(m) => m
    case ToolResult(id, _, content, parts) => Message("tool", content, "", id, [], parts)
  }

  function MessageIDs(b: seq<Item>): seq<Id> {
    if b == [] then []
    else if Last(b).payload.IsMessage() then MessageIDs(Init(b)) + [Last(b).id]
    else MessageIDs(Init(b))
  }

  predicate Answered(b: seq<Item>, call: Id) {
    b != [] && (Answered(Init(b), call) || (Last(b).payload.ToolResult? && Last(b).payload.answers == call))
  }

  /** No tool call on the branch has two results. */
  predicate AnsweredOnce(b: seq<Item>) {
    b == [] ||
    (AnsweredOnce(Init(b)) && (Last(b).payload.ToolResult? ==> !Answered(Init(b), Last(b).payload.answers)))
  }

  /** How many messages a summary naming covered stands for, counted on b. */
  function Boundary(b: seq<Item>, covered: Id): Option<nat> {
    if covered == NO_ID || b == [] then None
    else if Boundary(Init(b), covered).Some? then Boundary(Init(b), covered)
    else if Last(b).id == covered then Some(CountMessages(b))
    else None
  }

  /** Every compaction on the branch names a record before it. */
  predicate LooksBack(b: seq<Item>) {
    b == [] ||
    (LooksBack(Init(b)) && (Last(b).payload.Compaction? ==> Boundary(Init(b), Last(b).payload.covered).Some?))
  }

  // ---------- the replay ----------

  function ReplayItem(whole: seq<Item>, before: seq<Item>, st: State, p: Payload): Result<State, Error> {
    match p
    case TurnStarted(run) => Ok(st.(lastTurn := run, open := true))
    case TurnFinished(_, _) => Ok(st.(open := false))
    case MessageItem(m) => Ok(st.(messages := st.messages + [m]))
    case ToolResult(call, _, _, _) =>
      if Answered(before, call) then Err(HistoryCorrupt)
      else Ok(st.(messages := st.messages + [Projection(p)]))
    case Compaction(covered, summary) =>
      (match Boundary(whole, covered)
       case Some(n) => Ok(st.(compactionIdx := n, compactionSummary := summary))
       case None => Err(HistoryCorrupt))
    case NotesReplaced(notes) => Ok(st.(notes := notes))
    case TodosReplaced(todos) => Ok(st.(todos := todos))
    case AdditionalPromptSet(text) => Ok(st.(additionalPrompt := text))
    case ToolExecutionStarted(_, _) => Ok(st)
    case HeadSelected(_) => Ok(st)
    case TurnRecovered(_, _) => Ok(st)
    case UnknownPayload(_) => Ok(st)
  }

  /** The first k records of whole, replayed. */
  function Replay(whole: seq<Item>, k: nat): Result<State, Error>
    requires k <= |whole|
  {
    if k == 0 then Ok(EMPTY_STATE)
    else
      match Replay(whole, k - 1)
      case Ok(st) => ReplayItem(whole, whole[..k - 1], st, whole[k - 1].payload)
      case Err(e) => Err(e)
  }

  function Reduce(items: seq<Item>, head: Id): Result<State, Error> {
    match Branch(items, head)
    case Ok(b) => Replay(b, |b|)
    case Err(e) => Err(e)
  }

  // ---------- the incremental reading ----------

  /** What one committed record does to the read model of the branch before it. */
  function ApplyItem(st: State, before: seq<Item>, p: Payload): State {
    match p
    case TurnStarted(run) => st.(lastTurn := run, open := true)
    case TurnFinished(_, _) => st.(open := false)
    case MessageItem(m) => st.(messages := st.messages + [m])
    case ToolResult(_, _, _, _) => st.(messages := st.messages + [Projection(p)])
    case Compaction(covered, summary) =>
      (match Boundary(before, covered)
       case Some(n) => st.(compactionIdx := n, compactionSummary := summary)
       case None => st)
    case NotesReplaced(notes) => st.(notes := notes)
    case TodosReplaced(todos) => st.(todos := todos)
    case AdditionalPromptSet(text) => st.(additionalPrompt := text)
    case _ => st
  }

  function Summary(b: seq<Item>): State {
    if b == [] then EMPTY_STATE else ApplyItem(Summary(Init(b)), Init(b), Last(b).payload)
  }

  lemma SummaryAppend(b: seq<Item>, it: Item)
    ensures Summary(b + [it]) == ApplyItem(Summary(b), b, it.payload)
    ensures MessageIDs(b + [it]) == if it.payload.IsMessage() then MessageIDs(b) + [it.id] else MessageIDs(b)
    ensures CountMessages(b + [it]) == CountMessages(b) + if it.payload.IsMessage() then 1 else 0
    ensures LooksBack(b + [it]) <==> LooksBack(b) && (it.payload.Compaction? ==> Boundary(b, it.payload.covered).Some?)
    ensures AnsweredOnce(b + [it]) <==> AnsweredOnce(b) && (it.payload.ToolResult? ==> !Answered(b, it.payload.answers))
    ensures forall call :: Answered(b + [it], call) <==>
                           Answered(b, call) || (it.payload.ToolResult? && it.payload.answers == call)
  {
    InitLast(b, it);
  }

  lemma {:induction false} BoundaryPrefix(b: seq<Item>, k: nat, covered: Id)
    requires k <= |b| && Boundary(b[..k], covered).Some?
    ensures Boundary(b, covered) == Boundary(b[..k], covered)
  {
    if k < |b| {
      assert Init(b)[..k] == b[..k];
      BoundaryPrefix(Init(b), k, covered);
    } else {
      assert b[..k] == b;
    }
  }

  lemma {:induction false} LooksBackPrefix(b: seq<Item>, k: nat)
    requires k <= |b|
    ensures LooksBack(b) ==> LooksBack(b[..k])
    ensures AnsweredOnce(b) ==> AnsweredOnce(b[..k])
  {
    if k < |b| {
      assert Init(b)[..k] == b[..k];
      LooksBackPrefix(Init(b), k);
    } else {
      assert b[..k] == b;
    }
  }

  lemma {:induction false} ReplayPrefixIsSummary(whole: seq<Item>, k: nat)
    requires k <= |whole| && LooksBack(whole)
    ensures Replay(whole, k) ==
            if AnsweredOnce(whole[..k]) then Ok(Summary(whole[..k])) else Err(HistoryCorrupt)
  {
    if k > 0 {
      ReplayPrefixIsSummary(whole, k - 1);
      assert whole[..k] == whole[..k - 1] + [whole[k - 1]];
      SummaryAppend(whole[..k - 1], whole[k - 1]);
      LooksBackPrefix(whole, k);
      if whole[k - 1].payload.Compaction? {
        BoundaryPrefix(whole, k - 1, whole[k - 1].payload.covered);
      }
    }
  }

  /** Replaying a branch whose compactions look back gives the incremental summary,
      and fails exactly when some call on it was answered twice. */
  lemma ReplayIsSummary(b: seq<Item>)
    requires LooksBack(b)
    ensures Replay(b, |b|) == if AnsweredOnce(b) then Ok(Summary(b)) else Err(HistoryCorrupt)
  {
    ReplayPrefixIsSummary(b, |b|);
    assert b[..|b|] == b;
  }

  // ---------- alignment of messages, ids and the compaction boundary ----------

  lemma {:induction false} SummaryAligned(b: seq<Item>)
    ensures |MessageIDs(b)| == |Summary(b).messages| == CountMessages(b)
    ensures Summary(b).compactionIdx <= CountMessages(b)
  {
    if b != [] {
      SummaryAligned(Init(b));
      if Last(b).payload.Compaction? && Boundary(Init(b), Last(b).payload.covered).Some? {
        BoundaryWithin(Init(b), Last(b).payload.covered);
      }
    }
  }

  lemma {:induction false} BoundaryWithin(b: seq<Item>, covered: Id)
    requires Boundary(b, covered).Some?
    ensures Boundary(b, covered).value <= CountMessages(b)
  {
    if Boundary(Init(b), covered).Some? {
      BoundaryWithin(Init(b), covered);
    }
  }

  lemma {:induction false} BoundaryMissesOthers(b: seq<Item>, covered: Id)
    requires forall k :: 0 <= k < |b| ==> b[k].id != covered
    ensures Boundary(b, covered).None?
  {
    if b != [] {
      BoundaryMissesOthers(Init(b), covered);
    }
  }

  /** A compaction naming the i-th message's record is read back as covering i messages. */
  lemma {:induction false} BoundaryOfMessage(b: seq<Item>, i: nat)
    requires DistinctIds(b) && 0 < i <= |MessageIDs(b)|
    requires forall k :: 0 <= k < |b| ==> b[k].id != NO_ID
    ensures Boundary(b, MessageIDs(b)[i - 1]) == Some(i)
  {
    SummaryAligned(Init(b));
    var id := MessageIDs(b)[i - 1];
    if i <= |MessageIDs(Init(b))| {
      BoundaryOfMessage(Init(b), i);
    } else {
      BoundaryMissesOthers(Init(b), id);
    }
  }

  lemma {:induction false} MessagesPrefix(b: seq<Item>, k: nat)
    requires k <= |b|
    ensures CountMessages(b[..k]) <= CountMessages(b)
    ensures |Summary(b).messages| == |MessageIDs(b)| == CountMessages(b)
    ensures Summary(b[..k]).messages == Summary(b).messages[..CountMessages(b[..k])]
    ensures MessageIDs(b[..k]) == MessageIDs(b)[..CountMessages(b[..k])]
  {
    SummaryAligned(b);
    if k < |b| {
      assert Init(b)[..k] == b[..k];
      MessagesPrefix(Init(b), k);
    } else {
      assert b[..k] == b;
    }
  }

  /** Where the i-th message sits on the branch. */
  lemma {:induction false} MessageRecord(b: seq<Item>, i: nat) returns (k: nat)
    requires i < CountMessages(b)
    ensures k < |b| && b[k].payload.IsMessage() && CountMessages(b[..k]) == i
    ensures |MessageIDs(b)| == |Summary(b).messages| == CountMessages(b)
    ensures MessageIDs(b)[i] == b[k].id && Summary(b).messages[i] == Projection(b[k].payload)
  {
    SummaryAligned(Init(b));
    SummaryAligned(b);
    if i < CountMessages(Init(b)) {
      k := MessageRecord(Init(b), i);
      assert Init(b)[..k] == b[..k];
    } else {
      k := |b| - 1;
    }
  }

  // ---------- the source's loops ----------

  method CompactionBoundary(branch: seq<Item>, covered: Id) returns (r: Result<nat, Error>)
    ensures r == match Boundary(branch, covered) case Some(n) => Ok(n) case None => Err(HistoryCorrupt)
  {
    if covered == NO_ID {
      return Err(HistoryCorrupt);
    }
    var messages, i := 0, 0;
    while i < |branch|
      invariant 0 <= i <= |branch|
      invariant messages == CountMessages(branch[..i])
      invariant Boundary(branch[..i], covered).None?
    {
      assert Init(branch[..i + 1]) == branch[..i];
      if branch[i].payload.IsMessage() {
        messages := messages + 1;
      }
      if branch[i].id == covered {
        BoundaryPrefix(branch, i + 1, covered);
        return Ok(messages);
      }
      i := i + 1;
    }
    assert branch[..i] == branch;
    r := Err(HistoryCorrupt);
  }

  ghost predicate TracksAnswers(answered: set<Id>, b: seq<Item>) {
    forall call :: call in answered <==> Answered(b, call)
  }

  /** One arm of the reducer's switch. */
  method ReduceItem(branch: seq<Item>, ghost before: seq<Item>, st: State, answered: set<Id>, it: Item)
      returns (r: Result<State, Error>, answered': set<Id>)
    requires TracksAnswers(answered, before)
    ensures r == ReplayItem(branch, before, st, it.payload)
    ensures r.Ok? ==> TracksAnswers(answered', before + [it])
  {
    SummaryAppend(before, it);
    answered' := answered;
    r := Ok(st);
    match it.payload {
      case TurnStarted(run) => r := Ok(st.(lastTurn := run, open := true));
      case TurnFinished(_, _) => r := Ok(st.(open := false));
      case MessageItem(m) => r := Ok(st.(messages := st.messages + [m]));
      case ToolResult(call, _, _, _) =>
        if call in answered {
          return Err(HistoryCorrupt), answered;
        }
        answered' := answered + {call};
        r := Ok(st.(messages := st.messages + [Projection(it.payload)]));
      case Compaction(covered, summary) =>
        var idx := CompactionBoundary(branch, covered);
        if idx.Err? {
          return Err(idx.error), answered;
        }
        r := Ok(st.(compactionIdx := idx.value, compactionSummary := summary));
      case NotesReplaced(notes) => r := Ok(st.(notes := notes));
      case TodosReplaced(todos) => r := Ok(st.(todos := todos));
      case AdditionalPromptSet(text) => r := Ok(st.(additionalPrompt := text));
      case _ =>
    }
  }

  method ReduceLoop(items: seq<Item>, head: Id) returns (r: Result<State, Error>)
    ensures r == Reduce(items, head)
  {
    var walked := BranchWalk(items, head);
    if walked.Err? {
      return Err(walked.error);
    }
    var branch := walked.value;
    var answered: set<Id> := {};
    r := Ok(EMPTY_STATE);
    var i := 0;
    while i < |branch|
      invariant 0 <= i <= |branch|
      invariant r.Ok? && Replay(branch, i) == r
      invariant TracksAnswers(answered, branch[..i])
    {
      assert branch[..i + 1] == branch[..i] + [branch[i]];
      r, answered := ReduceItem(branch, branch[..i], r.value, answered, branch[i]);
      if r.Err? {
        ReplayFailsOn(branch, i + 1);
        return;
      }
      i := i + 1;
    }
  }

  lemma {:induction false} ReplayFailsOn(b: seq<Item>, k: nat)
    requires k <= |b| && Replay(b, k).Err?
    ensures Replay(b, |b|) == Replay(b, k)
    decreases |b| - k
  {
    if k < |b| {
      assert Replay(b, k + 1) == Replay(b, k);
      ReplayFailsOn(b, k + 1);
    }
  }

  method MessageIDsOnBranch(items: seq<Item>, head: Id) returns (ids: seq<Id>)
    ensures ids == match Branch(items, head) case Ok(b) => MessageIDs(b) case Err(_) => []
  {
    var walked := BranchWalk(items, head);
    ids := [];
    if walked.Err? {
      return;
    }
    var branch := walked.value;
    var i := 0;
    while i < |branch|
      invariant 0 <= i <= |branch|
      invariant ids == MessageIDs(branch[..i])
    {
      assert Init(branch[..i + 1]) == branch[..i];
      if branch[i].payload.IsMessage() {
        ids := ids + [branch[i].id];
      }
      i := i + 1;
    }
    assert branch[..i] == branch;
  }
}
