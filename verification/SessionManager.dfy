/** Forking a session, and the points its pickers offer. */
module SessionManagers {
  import opened Outcome
  import opened Journal
  import opened Reducer
  import opened Branching
  import opened SessionContexts

  /** Creates an independent session holding the parent's branch through a record.
      storeOk is whether the store made and opened the new session. */
  method Fork(parent: SessionContext, throughID: Id, storeOk: bool, diskOk: bool)
      returns (r: Result<SessionContext, Error>)
    requires parent.Paired()
    ensures parent.writer == null ==> r == Err(NotPersisted)
    ensures parent.writer != null && throughID == NO_ID ==> r == Err(SelectsNothing)
    ensures parent.writer != null && throughID != NO_ID && !Has(parent.items, throughID) ==> r == Err(HeadNotFound)
    ensures r.Ok? <==>
            && parent.writer != null && throughID != NO_ID && Has(parent.items, throughID)
            && storeOk && diskOk && AnsweredOnce(Chain(parent.items, throughID))
    ensures r.Ok? ==>
            && fresh(r.value) && r.value.writer != null && fresh(r.value.writer)
            && r.value.Valid() && r.value.InStep()
            && r.value.items == Renumber(Chain(parent.items, throughID))
            && r.value.state == Summary(Chain(parent.items, throughID))
            && r.value.messageIDs == MessageIDs(Chain(parent.items, throughID))
  {
    if parent.writer == null {
      return Err(NotPersisted);
    }
    hide WellFormed, Live, Summary, MessageIDs, AnsweredOnce, Chain, Renumber, ForkPrefix, Reduce, LastSeq, Has, SameButTurn;
    ForkFacts(parent.items, throughID);
    var prefix := ForkPrefixLoop(parent.items, throughID);
    if prefix.Err? {
      return Err(prefix.error);
    }
    if prefix.value == [] {
      return Err(SelectsNothing);
    }
    if !storeOk {
      return Err(WriteFailed);
    }
    r := Spawn(prefix.value, diskOk);
  }

  /** A new session that adopts a copied prefix, or is discarded. */
  method Spawn(prefix: seq<Item>, diskOk: bool) returns (r: Result<SessionContext, Error>)
    requires prefix != [] && WellFormed(prefix) && Live(prefix) == prefix
    requires forall k :: 0 <= k < |prefix| ==> prefix[k].seqNo == k + 1
    ensures r.Ok? <==> diskOk && AnsweredOnce(prefix)
    ensures r.Ok? ==>
            && fresh(r.value) && r.value.writer != null && fresh(r.value.writer)
            && r.value.Valid() && r.value.InStep()
            && r.value.items == prefix && r.value.state == Summary(prefix) && r.value.messageIDs == MessageIDs(prefix)
    ensures r.Err? ==> r.error in {WriteFailed, HistoryCorrupt}
  {
    hide WellFormed, Live, Summary, MessageIDs, AnsweredOnce, Reduce, LastSeq;
    EmptyJournal();
    var w := new FileWriter([]);
    var child := new SessionContext.FromWriter(w, EMPTY_STATE);
    PrefixContinues(prefix);
    var error := child.AdoptPrefix(prefix, diskOk);
    return if error.Some? then Err(error.value) else Ok(child);
  }

  lemma EmptyJournal()
    ensures WellFormed([]) && HeadOf([]) == NO_ID && LastSeq([]) == 0 && Reduce([], NO_ID) == Ok(EMPTY_STATE)
  {
    LiveReplay([]);
  }

  /** What forking copies: nothing for no id, a refusal for an unknown one, and
      otherwise a self-contained journal that reads as the branch does. */
  lemma ForkFacts(items: seq<Item>, throughID: Id)
    requires WellFormed(items)
    ensures !Has(items, NO_ID)
    ensures throughID != NO_ID && !Has(items, throughID) ==> ForkPrefix(items, throughID) == Err(HeadNotFound)
    ensures throughID == NO_ID ==> ForkPrefix(items, throughID) == Ok([])
    ensures Has(items, throughID) ==>
              var b := Chain(items, throughID);
              && ForkPrefix(items, throughID) == Ok(Renumber(b)) && Renumber(b) != []
              && WellFormed(Renumber(b)) && Live(Renumber(b)) == Renumber(b)
              && (forall k :: 0 <= k < |Renumber(b)| ==> Renumber(b)[k].seqNo == k + 1)
              && (AnsweredOnce(Renumber(b)) <==> AnsweredOnce(b))
              && Summary(Renumber(b)) == Summary(b) && MessageIDs(Renumber(b)) == MessageIDs(b)
  {
    hide WellFormed, Live, Summary, MessageIDs, AnsweredOnce, Chain;
    WellFormedIsValid(items);
    BranchIsChain(items, throughID);
    NoEmptyId(items);
    ChainAbsent(items, throughID);
    ForkIsSelfContained(items, throughID);
    RenumberReadsAlike(Chain(items, throughID));
  }

  // ---------- the points a picker offers ----------

  datatype HistoryPoint = HistoryPoint(itemID: Id, role: string, content: string, source: string)

  datatype Picker = ForFork | ForRewind

  predicate Offers(picker: Picker, i: nat, m: Message) {
    match picker
    case ForFork => (m.role == "user" || m.role == "assistant") && (m.role != "assistant" || m.toolCalls == [])
    case ForRewind => i > 0 && m.role == "user" && m.source == ""
  }

  function PointOf(id: Id, m: Message): HistoryPoint {
    HistoryPoint(id, m.role, m.content, m.source)
  }

  /** The positions a picker keeps, in branch order. */
  function Kept(picker: Picker, msgs: seq<Message>): (r: seq<nat>)
    ensures forall k :: 0 <= k < |r| ==> r[k] < |msgs| && Offers(picker, r[k], msgs[r[k]])
    ensures forall j, k :: 0 <= j < k < |r| ==> r[j] < r[k]
    ensures forall i :: 0 <= i < |msgs| && Offers(picker, i, msgs[i]) ==> i in r
  {
    if msgs == [] then []
    else
      var rest, n := Kept(picker, msgs[..|msgs| - 1]), |msgs| - 1;
      if Offers(picker, n, msgs[n]) then rest + [n] else rest
  }

  function PointsAt(ids: seq<Id>, msgs: seq<Message>, at: seq<nat>): seq<HistoryPoint>
    requires |ids| == |msgs| && forall k :: 0 <= k < |at| ==> at[k] < |msgs|
  {
    seq(|at|, k requires 0 <= k < |at| => PointOf(ids[at[k]], msgs[at[k]]))
  }

  lemma KeptNone(picker: Picker, ids: seq<Id>, msgs: seq<Message>)
    requires |ids| == |msgs|
    ensures PointsAt(ids, msgs, Kept(picker, msgs[..0])) == []
  {
  }

  lemma KeptOneMore(picker: Picker, ids: seq<Id>, msgs: seq<Message>, i: nat)
    requires |ids| == |msgs| && i < |msgs|
    ensures PointsAt(ids, msgs, Kept(picker, msgs[..i + 1])) ==
            PointsAt(ids, msgs, Kept(picker, msgs[..i])) +
            if Offers(picker, i, msgs[i]) then [PointOf(ids[i], msgs[i])] else []
  {
    assert msgs[..i + 1][..i] == msgs[..i];
  }

  /** A picker offers exactly the messages its rule keeps, in branch order, each
      under the id of the record it came from. */
  method HistoryPoints(sess: SessionContext, picker: Picker) returns (points: seq<HistoryPoint>)
    requires sess.Paired()
    ensures points == PointsAt(sess.messageIDs, sess.state.messages, Kept(picker, sess.state.messages))
  {
    hide WellFormed, Live, Summary, MessageIDs, Kept, SameButTurn, HeadOf, LastSeq;
    var msgs, ids := sess.state.messages, sess.messageIDs;
    KeptNone(picker, ids, msgs);
    points := [];
    var i := 0;
    while i < |msgs|
      invariant 0 <= i <= |msgs|
      invariant msgs == sess.state.messages && ids == sess.messageIDs
      invariant points == PointsAt(ids, msgs, Kept(picker, msgs[..i]))
    {
      KeptOneMore(picker, ids, msgs, i);
      if i < |ids| && Offers(picker, i, msgs[i]) {
        points := points + [PointOf(ids[i], msgs[i])];
      }
      i := i + 1;
    }
    assert msgs[..i] == msgs;
  }

  /** What the pickers offer: for a fork the prompts and the replies that ask for no tool,
      for a rewind the prompts the person typed other than the first message; in order,
      each as the message reads, under its id. */
  lemma PointsTell(picker: Picker, ids: seq<Id>, msgs: seq<Message>)
    requires |ids| == |msgs|
    ensures var at, points := Kept(picker, msgs), PointsAt(ids, msgs, Kept(picker, msgs));
            && |points| == |at|
            && (forall k :: 0 <= k < |at| ==>
                  && at[k] < |msgs| && points[k].itemID == ids[at[k]] && points[k].role == msgs[at[k]].role
                  && points[k].content == msgs[at[k]].content && points[k].source == msgs[at[k]].source)
            && (forall j, k :: 0 <= j < k < |at| ==> at[j] < at[k])
            && (forall i: nat :: i in at <==>
                  && i < |msgs|
                  && match picker
                     case ForFork => msgs[i].role == "user" || (msgs[i].role == "assistant" && msgs[i].toolCalls == [])
                     case ForRewind => i > 0 && msgs[i].role == "user" && msgs[i].source == "")
  {
  }

  // ---------- no fork point leaves a call unanswered ----------

  predicate AnswersCall(m: Message, call: Id) {
    m.role == "tool" && m.toolCallID == call
  }

  ghost predicate AnsweredBetween(msgs: seq<Message>, lo: nat, hi: nat, call: Id) {
    exists k :: lo < k < hi && k < |msgs| && AnswersCall(msgs[k], call)
  }

  ghost predicate EveryCallAnswered(msgs: seq<Message>) {
    forall i, c :: 0 <= i < |msgs| && c in msgs[i].toolCalls ==> AnsweredBetween(msgs, i, |msgs|, c.id)
  }

  /** Calls come from assistant messages, and each is answered before the next
      message that is not a tool result. */
  ghost predicate AnsweredInTurn(msgs: seq<Message>) {
    && (forall i :: 0 <= i < |msgs| && msgs[i].toolCalls != [] ==> msgs[i].role == "assistant")
    && (forall i, j, c :: 0 <= i < j < |msgs| && c in msgs[i].toolCalls && msgs[j].role in {"user", "assistant"} ==>
          AnsweredBetween(msgs, i, j, c.id))
  }

  /** Through any fork point the history holds no call without its result. */
  lemma ForkPointsAreAnswered(msgs: seq<Message>, k: nat)
    requires AnsweredInTurn(msgs) && k < |msgs| && Offers(ForFork, k, msgs[k])
    ensures EveryCallAnswered(msgs[..k + 1])
  {
    var prefix := msgs[..k + 1];
    forall i, c | 0 <= i < |prefix| && c in prefix[i].toolCalls
      ensures AnsweredBetween(prefix, i, |prefix|, c.id)
    {
      assert AnsweredBetween(msgs, i, k, c.id);
      var a :| i < a < k && a < |msgs| && AnswersCall(msgs[a], c.id);
      assert AnswersCall(prefix[a], c.id);
    }
  }

  /** Conversely, a history cut at a message the picker withholds for its tool calls
      ends with those calls unanswered. */
  lemma WithheldPointsAreNot(msgs: seq<Message>, k: nat)
    requires k < |msgs| && msgs[k].role == "assistant" && !Offers(ForFork, k, msgs[k])
    ensures !EveryCallAnswered(msgs[..k + 1])
  {
    var prefix := msgs[..k + 1];
    var c := msgs[k].toolCalls[0];
    assert c in prefix[k].toolCalls;
    assert !AnsweredBetween(prefix, k, |prefix|, c.id);
  }

  /** Every prompt offered for a rewind was typed by the person, and rewinding it lands on
      a record of the branch and keeps exactly the messages before it. */
  lemma RewindPointsLand(b: seq<Item>, i: nat)
    requires DistinctIds(b) && i < |Summary(b).messages| && Offers(ForRewind, i, Summary(b).messages[i])
    ensures |MessageIDs(b)| == |Summary(b).messages|
    ensures Summary(b).messages[i].role == "user" && Summary(b).messages[i].source == ""
    ensures var r := LandingOn(b, MessageIDs(b)[i]);
            r.Ok? && Summary(UpTo(b, r.value)).messages == Summary(b).messages[..i]
  {
    hide Summary, MessageIDs, LandingOn, UpTo, DistinctIds;
    SummaryAligned(b);
    RewindKeepsPrefix(b, i);
  }

  /** The first message, which the picker withholds, has a landing only if something other
      than the opening of its turn stands before it. */
  lemma FirstMessageLandsIff(b: seq<Item>) returns (cut: nat)
    requires DistinctIds(b) && MessageIDs(b) != []
    ensures cut < |b| && b[cut].id == MessageIDs(b)[0]
    ensures LandingOn(b, MessageIDs(b)[0]).Ok? <==> exists k :: 0 <= k < cut && !b[k].payload.TurnStarted?
  {
    hide Summary, MessageIDs, LandingOn, UpTo, DistinctIds, CountMessages;
    cut := CutOfMessage(b, 0);
    LandingAt(b, MessageIDs(b)[0], cut);
    LandingOfPrefix(b, cut);
  }

  /** Forking at the record behind the k-th message copies exactly the messages
      through it. */
  lemma ForkCopiesThroughPoint(items: seq<Item>, k: nat)
    requires WellFormed(items) && k < |MessageIDs(Live(items))|
    ensures |Summary(Live(items)).messages| == |MessageIDs(Live(items))|
    ensures var id := MessageIDs(Live(items))[k];
            && id != NO_ID && Has(items, id)
            && Summary(Chain(items, id)).messages == Summary(Live(items)).messages[..k + 1]
            && MessageIDs(Chain(items, id)) == MessageIDs(Live(items))[..k + 1]
  {
    hide Summary, MessageIDs, WellFormed, CountMessages, Chain, ValidGraph, Find, DistinctIds, LooksBack, Branch;
    var b := Live(items);
    LiveBranch(items);
    WellFormedIsValid(items);
    NoEmptyId(items);
    var cut := RecordOfMessage(b, k);
    ChainWithin(items, HeadOf(items), cut);
    ChainPrefix(items, HeadOf(items), cut);
    MessagesPrefix(b, cut + 1);
  }

  lemma RecordOfMessage(b: seq<Item>, k: nat) returns (cut: nat)
    requires k < |MessageIDs(b)|
    ensures cut < |b| && b[cut].id == MessageIDs(b)[k] && CountMessages(b[..cut + 1]) == k + 1
  {
    SummaryAligned(b);
    cut := MessageRecord(b, k);
    assert Init(b[..cut + 1]) == b[..cut];
  }
}
