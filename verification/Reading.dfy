/** What a branch's state says, by position: which record each field comes from, where a
    message stands, and which records leave no trace. */
module Readings {
  import opened Outcome
  import opened Journal
  import opened Reducer
  import opened Branching

  datatype Kind = Notes | Todos | Prompt | Opening | Boundaries | Turn

  predicate Is(p: Payload, kind: Kind) {
    match kind
    case Notes => p.NotesReplaced?
    case Todos => p.TodosReplaced?
    case Prompt => p.AdditionalPromptSet?
    case Opening => p.TurnStarted?
    case Boundaries => p.Compaction?
    case Turn => p.TurnStarted? || p.TurnFinished?
  }

  /** One past the last record of a kind; zero if there is none. */
  function Latest(b: seq<Item>, kind: Kind): (n: nat)
    ensures n <= |b| && (n > 0 ==> Is(b[n - 1].payload, kind))
    ensures forall k :: n <= k < |b| ==> !Is(b[k].payload, kind)
  {
    if b == [] then 0 else if Is(Last(b).payload, kind) then |b| else Latest(Init(b), kind)
  }

  lemma {:induction false} NotesIsLatest(b: seq<Item>)
    ensures var n := Latest(b, Notes); Summary(b).notes == if n == 0 then [] else b[n - 1].payload.notes
  {
    if b != [] {
      hide Summary, Latest, ApplyItem;
      NotesIsLatest(Init(b));
      LatestStep(b, Notes);
      SummaryStep(b);
    }
  }

  lemma {:induction false} TodosIsLatest(b: seq<Item>)
    ensures var n := Latest(b, Todos); Summary(b).todos == if n == 0 then [] else b[n - 1].payload.todos
  {
    if b != [] {
      hide Summary, Latest, ApplyItem;
      TodosIsLatest(Init(b));
      LatestStep(b, Todos);
      SummaryStep(b);
    }
  }

  lemma {:induction false} PromptIsLatest(b: seq<Item>)
    ensures var n := Latest(b, Prompt); Summary(b).additionalPrompt == if n == 0 then "" else b[n - 1].payload.text
  {
    if b != [] {
      hide Summary, Latest, ApplyItem;
      PromptIsLatest(Init(b));
      LatestStep(b, Prompt);
      SummaryStep(b);
    }
  }

  lemma {:induction false} LastTurnIsLatest(b: seq<Item>)
    ensures var n := Latest(b, Opening); Summary(b).lastTurn == if n == 0 then "" else b[n - 1].payload.runID
  {
    if b != [] {
      hide Summary, Latest, ApplyItem;
      LastTurnIsLatest(Init(b));
      LatestStep(b, Opening);
      SummaryStep(b);
    }
  }

  lemma {:induction false} OpenIsLatest(b: seq<Item>)
    ensures var n := Latest(b, Turn); Summary(b).open <==> n > 0 && b[n - 1].payload.TurnStarted?
  {
    if b != [] {
      hide Summary, Latest, ApplyItem;
      OpenIsLatest(Init(b));
      LatestStep(b, Turn);
      SummaryStep(b);
    }
  }

  /** Notes, todos, prompt and turn are what the last record of their kind says, wherever
      on the branch it stands. */
  lemma StateIsLatest(b: seq<Item>)
    ensures var n := Latest(b, Notes); Summary(b).notes == if n == 0 then [] else b[n - 1].payload.notes
    ensures var n := Latest(b, Todos); Summary(b).todos == if n == 0 then [] else b[n - 1].payload.todos
    ensures var n := Latest(b, Prompt); Summary(b).additionalPrompt == if n == 0 then "" else b[n - 1].payload.text
    ensures var n := Latest(b, Opening); Summary(b).lastTurn == if n == 0 then "" else b[n - 1].payload.runID
    ensures var n := Latest(b, Turn); Summary(b).open <==> n > 0 && b[n - 1].payload.TurnStarted?
  {
    hide Summary, Latest;
    NotesIsLatest(b);
    TodosIsLatest(b);
    PromptIsLatest(b);
    LastTurnIsLatest(b);
    OpenIsLatest(b);
  }

  lemma LatestStep(b: seq<Item>, kind: Kind)
    requires b != []
    ensures Latest(b, kind) == if Is(b[|b| - 1].payload, kind) then |b| else Latest(Init(b), kind)
  {
  }

  lemma SummaryStep(b: seq<Item>)
    requires b != []
    ensures var st, before, p := Summary(b), Summary(Init(b)), b[|b| - 1].payload;
            && st.notes == (if p.NotesReplaced? then p.notes else before.notes)
            && st.todos == (if p.TodosReplaced? then p.todos else before.todos)
            && st.additionalPrompt == (if p.AdditionalPromptSet? then p.text else before.additionalPrompt)
            && st.lastTurn == (if p.TurnStarted? then p.runID else before.lastTurn)
            && st.open == (p.TurnStarted? || (before.open && !p.TurnFinished?))
            && |st.messages| == |before.messages| + (if p.MessageItem? || p.ToolResult? then 1 else 0)
            && (!p.Compaction? ==> st.compactionIdx == before.compactionIdx && st.compactionSummary == before.compactionSummary)
            && (p.Compaction? && Boundary(Init(b), p.covered).Some? ==>
                  st.compactionIdx == Boundary(Init(b), p.covered).value && st.compactionSummary == p.summary)
  {
    hide Boundary;
  }

  /** Record k is the first that the compaction at position at names. */
  ghost predicate CoversFrom(b: seq<Item>, k: nat, at: nat) {
    && k < at < |b| && b[at].payload.Compaction? && b[k].id == b[at].payload.covered
    && forall j :: 0 <= j < k ==> b[j].id != b[k].id
  }

  /** The summary in force is the last compaction's, and it stands for the messages
      through record k, the first that compaction names. */
  ghost predicate InForce(b: seq<Item>, k: nat) {
    var n, st := Latest(b, Boundaries), Summary(b);
    if n == 0 then st.compactionIdx == 0 && st.compactionSummary == ""
    else CoversFrom(b, k, n - 1) && st.compactionIdx == CountMessages(b[..k + 1]) && st.compactionSummary == b[n - 1].payload.summary
  }

  lemma {:induction false} CompactionIsLatest(b: seq<Item>) returns (k: nat)
    requires LooksBack(b)
    ensures InForce(b, k)
  {
    k := 0;
    if b != [] {
      hide Summary, Latest, LooksBack, Boundary, InForce, CountMessages;
      LooksBackStep(b);
      if b[|b| - 1].payload.Compaction? {
        k := CoveredAt(Init(b), b[|b| - 1].payload.covered);
        NewInForce(b, k);
      } else {
        k := CompactionIsLatest(Init(b));
        StillInForce(b, k);
      }
    } else {
      assert InForce(b, k);
    }
  }

  lemma NewInForce(b: seq<Item>, k: nat)
    requires b != [] && k < |b| - 1 && CoversFrom(b, k, |b| - 1)
    requires Boundary(Init(b), b[|b| - 1].payload.covered) == Some(CountMessages(Init(b)[..k + 1]))
    ensures InForce(b, k)
  {
    hide Summary, Latest, CountMessages, Boundary;
    LatestStep(b, Boundaries);
    SummaryStep(b);
    assert Init(b)[..k + 1] == b[..k + 1];
  }

  lemma StillInForce(b: seq<Item>, k: nat)
    requires b != [] && InForce(Init(b), k) && !b[|b| - 1].payload.Compaction?
    ensures InForce(b, k)
  {
    hide Summary, Latest, CountMessages;
    LatestStep(b, Boundaries);
    SummaryStep(b);
    if Latest(b, Boundaries) > 0 {
      assert Init(b)[..k + 1] == b[..k + 1];
    }
  }

  lemma LooksBackStep(b: seq<Item>)
    requires b != [] && LooksBack(b)
    ensures LooksBack(Init(b)) && (b[|b| - 1].payload.Compaction? ==> Boundary(Init(b), b[|b| - 1].payload.covered).Some?)
  {
  }

  lemma {:induction false} CoveredAt(b: seq<Item>, covered: Id) returns (k: nat)
    requires Boundary(b, covered).Some?
    ensures k < |b| && b[k].id == covered && Boundary(b, covered) == Some(CountMessages(b[..k + 1]))
    ensures forall j :: 0 <= j < k ==> b[j].id != covered
  {
    if Boundary(Init(b), covered).Some? {
      k := CoveredAt(Init(b), covered);
      assert Init(b)[..k + 1] == b[..k + 1];
    } else {
      k := |b| - 1;
      assert b[..k + 1] == b;
      BoundaryMisses(Init(b), covered);
    }
  }

  lemma {:induction false} BoundaryMisses(b: seq<Item>, covered: Id)
    requires Boundary(b, covered).None? && covered != NO_ID
    ensures forall j :: 0 <= j < |b| ==> b[j].id != covered
  {
    if b != [] {
      BoundaryMisses(Init(b), covered);
    }
  }

  /** The k-th record, when it carries a message, is the message after those before it: an
      entry as it was written, a tool result as the answer to its call. */
  lemma {:induction false} MessageTells(b: seq<Item>, k: nat)
    requires k < |b|
    ensures var i, p := CountMessages(b[..k]), b[k].payload;
            && (p.MessageItem? || p.ToolResult? ==> i < |Summary(b).messages| == |MessageIDs(b)| && MessageIDs(b)[i] == b[k].id)
            && (p.MessageItem? ==> Summary(b).messages[i] == p.message)
            && (p.ToolResult? ==> Summary(b).messages[i] == Message("tool", p.content, "", p.answers, [], p.parts))
  {
    SummaryAligned(b);
    if k < |b| - 1 {
      SummaryAligned(Init(b));
      MessageTells(Init(b), k);
      assert Init(b)[..k] == b[..k];
    } else {
      SummaryAligned(Init(b));
      assert b[..k] == Init(b);
    }
  }

  /** The positions of the records carrying a message. */
  ghost function Carriers(b: seq<Item>): set<nat> {
    set k: nat | k < |b| && (b[k].payload.MessageItem? || b[k].payload.ToolResult?)
  }

  /** There are as many messages as records carrying one. */
  lemma {:induction false} MessagesAreCounted(b: seq<Item>)
    ensures |Summary(b).messages| == |Carriers(b)|
  {
    if b != [] {
      hide Summary, Boundary;
      SummaryStep(b);
      MessagesAreCounted(Init(b));
      var n := |b| - 1;
      assert Carriers(b) == if b[n].payload.MessageItem? || b[n].payload.ToolResult? then Carriers(Init(b)) + {n} else Carriers(Init(b));
    }
  }

  /** A call is answered by a result anywhere on the branch, and no call is answered twice
      exactly if no two results name the same one. */
  lemma {:induction false} AnswersByPosition(b: seq<Item>)
    ensures forall call :: Answered(b, call) <==>
              exists k :: 0 <= k < |b| && b[k].payload.ToolResult? && b[k].payload.answers == call
    ensures AnsweredOnce(b) <==>
            forall j, k :: 0 <= j < k < |b| && b[j].payload.ToolResult? && b[k].payload.ToolResult? ==>
              b[j].payload.answers != b[k].payload.answers
  {
    if b != [] {
      var init := Init(b);
      AnswersByPosition(init);
      forall call ensures Answered(b, call) <==>
        exists k :: 0 <= k < |b| && b[k].payload.ToolResult? && b[k].payload.answers == call
      {
        if Answered(init, call) {
          var k :| 0 <= k < |init| && init[k].payload.ToolResult? && init[k].payload.answers == call;
          assert b[k] == init[k];
        }
      }
    }
  }

  // ---------- records that leave no trace ----------

  /** Kinds recorded for recovery, ordering and provenance. */
  predicate Silent(p: Payload) {
    p.ToolExecutionStarted? || p.HeadSelected? || p.TurnRecovered? || p.UnknownPayload?
  }

  ghost predicate NoneCovers(b: seq<Item>, id: Id) {
    forall k :: 0 <= k < |b| && b[k].payload.Compaction? ==> b[k].payload.covered != id
  }

  lemma {:induction false} SilentTail(b: seq<Item>, it: Item, k: nat)
    requires Silent(it.payload) && k <= |b| && NoneCovers(b, it.id)
    ensures Replay(b + [it], k) == Replay(b, k)
  {
    if k > 0 {
      SilentTail(b, it, k - 1);
      assert (b + [it])[..k - 1] == b[..k - 1];
      if b[k - 1].payload.Compaction? {
        InitLast(b, it);
      }
    }
  }

  /** A record of such a kind at the end of any branch of any accepted journal leaves the
      replay as it was, result or refusal, unless a compaction there names it. */
  lemma SilentRecordsLeaveReplay(items: seq<Item>, it: Item)
    requires ValidGraph(items) && Accepts(items, it) && Silent(it.payload)
    requires NoneCovers(Chain(items, it.parent), it.id)
    ensures Reduce(items + [it], it.id) == Reduce(items, it.parent)
  {
    hide Accepts, ValidGraph, Chain, Branch, Walk;
    var b := Chain(items, it.parent);
    ValidAppend(items, it);
    BranchIsChain(items, it.parent);
    BranchIsChain(items + [it], it.id);
    ChainAppend(items, it, it.id);
    HasAppend(items, [it], it.id);
    assert it.parent == NO_ID || Has(items, it.parent) by { AcceptedParent(items, it); }
    SilentTail(b, it, |b|);
    assert (b + [it])[..|b|] == b;
  }

  lemma AcceptedParent(items: seq<Item>, it: Item)
    requires Accepts(items, it)
    ensures it.parent == NO_ID || Has(items, it.parent)
  {
  }

  /** Applying p to some state changes more than the turn markers. */
  ghost predicate Shows(p: Payload) {
    exists st, b :: ShowsOn(st, b, p)
  }

  ghost predicate ShowsOn(st: State, b: seq<Item>, p: Payload) {
    ApplyItem(st, b, p).(lastTurn := st.lastTurn, open := st.open) != st
  }

  /** A record is written as required exactly if applying it may show; head selections,
      which move the branch instead, are required too. */
  lemma RequiredIfItShows(p: Payload)
    requires !p.UnknownPayload? && (p.Compaction? ==> p.covered != NO_ID)
    ensures p.ModelVisible() <==> p.HeadSelected? || Shows(p)
  {
    match p {
      case MessageItem(_) => assert ShowsOn(EMPTY_STATE, [], p);
      case ToolResult(_, _, _, _) => assert ShowsOn(EMPTY_STATE, [], p);
      case NotesReplaced(notes) => assert ShowsOn(EMPTY_STATE.(notes := notes + [Note("", 0)]), [], p);
      case TodosReplaced(todos) => assert ShowsOn(EMPTY_STATE.(todos := todos + [Todo("", "", "", 0)]), [], p);
      case AdditionalPromptSet(text) => assert ShowsOn(EMPTY_STATE.(additionalPrompt := text + "x"), [], p);
      case Compaction(covered, summary) =>
        var b := [Item(1, covered, NO_ID, true, "", TurnStarted(""))];
        assert Init(b) == [] && CountMessages(b) == 0 && Boundary([], covered).None?;
        assert Boundary(b, covered) == Some(0);
        assert ShowsOn(EMPTY_STATE.(compactionSummary := summary + "x"), b, p);
      case _ =>
    }
  }

  // ---------- what a rewind reports ----------

  predicate Enters(it: Item, call: Id) {
    it.payload.ToolExecutionStarted? && it.payload.callID == call
  }

  /** Record k is the first, or the last, of the span to enter the call. */
  ghost predicate FirstEntry(span: seq<Item>, k: int, call: Id) {
    0 <= k < |span| && Enters(span[k], call) && forall j :: 0 <= j < k ==> !Enters(span[j], call)
  }

  ghost predicate LastEntry(span: seq<Item>, k: int, call: Id) {
    0 <= k < |span| && Enters(span[k], call) && forall j :: k < j < |span| ==> !Enters(span[j], call)
  }

  /** The span enters a before it first enters c. */
  ghost predicate EntersFirst(span: seq<Item>, a: Id, c: Id) {
    exists m :: FirstEntry(span, m, a) && forall k :: 0 <= k <= m ==> !Enters(span[k], c)
  }

  ghost predicate Returns(span: seq<Item>, call: Id) {
    exists k :: 0 <= k < |span| && span[k].payload.ToolResult? && span[k].payload.answers == call
  }

  /** The report of a span lists exactly the calls it entered, each once, in the order of
      their first entry, under the name last recorded, and as returned exactly if a result
      for the call stands somewhere in the span. */
  ghost predicate Reports(span: seq<Item>, effects: seq<Effect>) {
    && (forall k, call :: 0 <= k < |span| && Enters(span[k], call) ==> exists i :: 0 <= i < |effects| && effects[i].callID == call)
    && (forall i :: 0 <= i < |effects| ==> Told(span, effects[i]))
    && (forall i, j :: 0 <= i < j < |effects| ==> EntersFirst(span, effects[i].callID, effects[j].callID))
  }

  ghost predicate Told(span: seq<Item>, e: Effect) {
    && (e.returned <==> Returns(span, e.callID))
    && (exists k :: LastEntry(span, k, e.callID) && e.toolName == span[k].payload.toolName)
  }

  lemma {:induction false} NameIsLast(span: seq<Item>, call: Id) returns (k: nat)
    requires call in Entered(span)
    ensures LastEntry(span, k, call) && EnteredName(span, call) == span[k].payload.toolName
  {
    if Enters(Last(span), call) {
      k := |span| - 1;
    } else {
      k := NameIsLast(Init(span), call);
    }
  }

  lemma {:induction false} EnteredSomewhere(span: seq<Item>, call: Id) returns (k: nat)
    requires call in Entered(span)
    ensures FirstEntry(span, k, call)
  {
    if call in Entered(Init(span)) {
      k := EnteredSomewhere(Init(span), call);
    } else {
      k := |span| - 1;
      EnteredOnce(Init(span));
    }
  }

  lemma {:induction false} EnteredInOrder(span: seq<Item>, i: nat, j: nat)
    requires i < j < |Entered(span)|
    ensures EntersFirst(span, Entered(span)[i], Entered(span)[j])
  {
    var before := Entered(Init(span));
    var a, c := Entered(span)[i], Entered(span)[j];
    if j < |before| {
      EnteredInOrder(Init(span), i, j);
      var m :| FirstEntry(Init(span), m, a) && forall k :: 0 <= k <= m ==> !Enters(Init(span)[k], c);
      assert FirstEntry(span, m, a);
    } else {
      assert a in before && c !in before;
      var m := EnteredSomewhere(Init(span), a);
      EnteredOnce(Init(span));
      assert FirstEntry(span, m, a);
    }
  }

  lemma EffectsReport(span: seq<Item>)
    ensures Reports(span, Effects(span))
  {
    hide Entered, EnteredName, Answered, FirstEntry, LastEntry, EntersFirst;
    var calls, effects := Entered(span), Effects(span);
    EnteredOnce(span);
    AnswersByPosition(span);
    forall i | 0 <= i < |effects| ensures Told(span, effects[i]) {
      assert calls[i] in calls;
      var k := NameIsLast(span, calls[i]);
    }
    forall i, j | 0 <= i < j < |effects| ensures EntersFirst(span, effects[i].callID, effects[j].callID) {
      EnteredInOrder(span, i, j);
    }
    forall k, call | 0 <= k < |span| && Enters(span[k], call) ensures exists i :: 0 <= i < |effects| && effects[i].callID == call {
      assert call in calls;
      var i :| 0 <= i < |calls| && calls[i] == call;
      assert effects[i].callID == call;
    }
  }

  /** What a rewind to target reports is the number of messages after it on the branch and
      that account of the calls entered after it. */
  lemma AbandonedTells(b: seq<Item>, target: Id, work: AbandonedWork) returns (cut: nat)
    requires AbandonedOn(b, target) == Ok(work)
    ensures cut < |b| - 1 && b[cut].id == target && forall j :: 0 <= j < cut ==> b[j].id != target
    ensures work.messages == |Carriers(b[cut + 1..])| && Reports(b[cut + 1..], work.effects)
  {
    hide Effects, CountMessages;
    IndexOfFirst(b, target);
    cut := IndexOf(b, target).value;
    MessagesAreCounted(b[cut + 1..]);
    SummaryAligned(b[cut + 1..]);
    EffectsReport(b[cut + 1..]);
  }

  // ---------- what a journal and a run of edits hold ----------

  /** Record k has an id of its own, a kind this build may read, and the root's place or a
      parent written before it. */
  ghost predicate Placed(items: seq<Item>, k: int)
    requires 0 <= k < |items|
  {
    && items[k].id != NO_ID && (forall j :: 0 <= j < k ==> items[j].id != items[k].id)
    && (items[k].payload.UnknownPayload? ==> !items[k].required)
    && (items[k].parent == NO_ID <==> k == 0)
    && (k > 0 ==> exists j :: 0 <= j < k && items[j].id == items[k].parent)
  }

  /** A journal is accepted exactly if every record is so placed. */
  lemma {:induction false} ValidExactly(items: seq<Item>)
    ensures ValidGraph(items) <==> forall k :: 0 <= k < |items| ==> Placed(items, k)
  {
    if items != [] {
      hide Placed, Accepts;
      var init, n := Init(items), |items| - 1;
      ValidExactly(init);
      forall k | 0 <= k < n ensures Placed(items, k) <==> Placed(init, k) {
        PlacedAlike(items, k);
      }
      if ValidGraph(init) {
        PlacedIsAccepted(items);
      }
    }
  }

  lemma PlacedIsAccepted(items: seq<Item>)
    requires items != [] && ValidGraph(Init(items))
    ensures Placed(items, |items| - 1) <==> Accepts(Init(items), items[|items| - 1])
  {
    hide ValidGraph, Find;
    var init, it := Init(items), items[|items| - 1];
    NoEmptyId(init);
    FindIsMembership(init, it.id);
    FindIsMembership(init, it.parent);
    if Has(init, it.parent) {
      var k :| 0 <= k < |init| && init[k].id == it.parent;
      assert items[k].id == it.parent;
    }
  }

  lemma PlacedAlike(items: seq<Item>, k: nat)
    requires k < |items| - 1
    ensures Placed(items, k) <==> Placed(Init(items), k)
  {
  }

  /** The record the k-th edit of a run leaves: numbered and chained on from the record
      before it, or to its landing, under the edit's own id, turn and payload. */
  lemma {:induction false} RunWrites(items: seq<Item>, edits: seq<Edit>, k: nat)
    requires k < |edits|
    ensures |Run(items, edits)| == |items| + |edits| && Run(items, edits)[..|items|] == items
    ensures var e, now := edits[k], Run(items, edits);
            var it, n := now[|items| + k], |items| + k;
            && it.id == e.id && it.turnID == e.turnID
            && it.seqNo == LastSeq(items) + k + 1
            && it.required == it.payload.ModelVisible()
            && (e.Continue? ==> it.payload == e.payload && it.parent == if n == 0 then NO_ID else now[n - 1].id)
            && (e.Redirect? ==> it.payload == HeadSelected(e.reason) && it.parent == e.landing)
  {
    hide NewRecord, LastSeq;
    var before, n := edits[..|edits| - 1], |edits| - 1;
    var mid := Run(items, before);
    if n > 0 {
      RunWrites(items, before, if k < n then k else n - 1);
    }
    NewRecordTells(mid, edits[n]);
    LastSeqIs(mid);
    assert Run(items, edits) == mid + [NewRecord(mid, edits[n])];
    assert mid[..|items|] == items;
  }

  lemma NewRecordTells(items: seq<Item>, e: Edit)
    ensures var it := NewRecord(items, e);
            && it.id == e.id && it.turnID == e.turnID && it.seqNo == LastSeq(items) + 1 && it.required == it.payload.ModelVisible()
            && (e.Continue? ==> it.payload == e.payload && it.parent == if items == [] then NO_ID else items[|items| - 1].id)
            && (e.Redirect? ==> it.payload == HeadSelected(e.reason) && it.parent == e.landing)
  {
  }

  lemma LastSeqIs(items: seq<Item>)
    ensures LastSeq(items) == if items == [] then 0 else items[|items| - 1].seqNo
  {
  }

  /** A copy for a fork holds the branch's records in order, each as it was but for its
      number. */
  lemma CopyTells(b: seq<Item>)
    ensures |Renumber(b)| == |b|
    ensures forall k :: 0 <= k < |b| ==> Renumber(b)[k].seqNo == k + 1 && Renumber(b)[k].(seqNo := b[k].seqNo) == b[k]
  {
  }

  /** A rewind lands on the nearest record before the first one of that id that opens no
      turn; it is refused for an id the branch does not hold, and where nothing else stands
      before that record. */
  lemma LandingTells(b: seq<Item>, messageID: Id)
    ensures var r := LandingOn(b, messageID);
            && (r == Err(HeadNotFound) <==> forall k :: 0 <= k < |b| ==> b[k].id != messageID)
            && (r.Err? ==> r.error in {HeadNotFound, NoLanding})
            && forall cut :: FirstNamed(b, cut, messageID) ==>
                 && (r.Err? <==> forall k :: 0 <= k < cut ==> b[k].payload.TurnStarted?)
                 && (r.Ok? ==> exists k :: LandsBefore(b, k, cut) && r.value == b[k].id)
  {
    hide LandingBefore;
    IndexOfFirst(b, messageID);
    if IndexOf(b, messageID).Some? {
      var cut := IndexOf(b, messageID).value;
      LandingOfPrefix(b, cut);
      if LandingBefore(b[..cut]).Some? {
        assert LandsBefore(b, LandingBefore(b[..cut]).value, cut);
      }
    }
  }

  ghost predicate FirstNamed(b: seq<Item>, cut: int, id: Id) {
    0 <= cut < |b| && b[cut].id == id && forall k :: 0 <= k < cut ==> b[k].id != id
  }

  ghost predicate LandsBefore(b: seq<Item>, k: int, cut: int) {
    && 0 <= k < cut <= |b| && !b[k].payload.TurnStarted?
    && forall j :: k < j < cut ==> b[j].payload.TurnStarted?
  }

  /** A report is refused for a target the branch does not hold, and for its head. */
  lemma ReportRefusals(b: seq<Item>, target: Id)
    ensures AbandonedOn(b, target) == Err(HeadNotFound) <==> forall k :: 0 <= k < |b| ==> b[k].id != target
    ensures AbandonedOn(b, target) == Err(AlreadyHead) <==> FirstNamed(b, |b| - 1, target)
    ensures AbandonedOn(b, target).Err? ==> AbandonedOn(b, target).error in {HeadNotFound, AlreadyHead}
  {
    IndexOfFirst(b, target);
  }
}
