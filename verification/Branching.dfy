/** Moving along a journal: appends that continue the head, rewinds that redirect
    it, the landing a rewind picks, and the prefix a fork copies. */
module Branching {
  import opened Outcome
  import opened Journal
  import opened Reducer

  // ---------- journals this code writes ----------

  /** A valid graph in which every compaction covers a record on its own branch. */
  predicate WellFormed(items: seq<Item>) {
    items == [] ||
    (WellFormed(Init(items)) && Accepts(Init(items), Last(items)) &&
     (Last(items).payload.Compaction? ==>
        Boundary(Chain(Init(items), Last(items).parent), Last(items).payload.covered).Some?))
  }

  lemma {:induction false} WellFormedIsValid(items: seq<Item>)
    requires WellFormed(items)
    ensures ValidGraph(items)
  {
    if items != [] {
      WellFormedIsValid(Init(items));
    }
  }

  lemma {:induction false} ChainLooksBack(items: seq<Item>, head: Id)
    requires WellFormed(items)
    ensures LooksBack(Chain(items, head))
  {
    if items != [] {
      var init, last := Init(items), Last(items);
      ChainLooksBack(init, last.parent);
      ChainLooksBack(init, head);
      SummaryAppend(Chain(init, last.parent), last);
    }
  }

  /** The branch the journal's head selects. */
  function Live(items: seq<Item>): seq<Item> {
    Chain(items, HeadOf(items))
  }

  /** The one edit a session makes to its journal: append a record that continues
      the head, or a head selection chained to a record of the live branch. */
  datatype Edit =
    | Continue(turnID: string, payload: Payload, id: Id)
    | Redirect(landing: Id, turnID: string, reason: string, id: Id)

  function NewRecord(items: seq<Item>, e: Edit): Item {
    match e
    case Continue(turn, p, id) => NewItem(LastSeq(items) + 1, id, HeadOf(items), turn, p)
    case Redirect(landing, turn, reason, id) => NewItem(LastSeq(items) + 1, id, landing, turn, HeadSelected(reason))
  }

  function Perform(items: seq<Item>, e: Edit): seq<Item> {
    items + [NewRecord(items, e)]
  }

  predicate Allowed(items: seq<Item>, e: Edit) {
    && e.id != NO_ID && !Has(items, e.id)
    && match e
       case Continue(_, p, _) =>
         !p.UnknownPayload? && (p.Compaction? ==> Boundary(Live(items), p.covered).Some?)
       case Redirect(landing, _, _, _) => Has(Live(items), landing)
  }

  /** The live branch after an edit. */
  function After(b: seq<Item>, e: Edit): seq<Item> {
    match e
    case Continue(_, _, _) => b
    case Redirect(landing, _, _, _) => UpTo(b, landing)
  }

  /** The part of a branch that ends at id. */
  function UpTo(b: seq<Item>, id: Id): seq<Item> {
    if b == [] then [] else if Last(b).id == id then b else UpTo(Init(b), id)
  }

  lemma {:induction false} UpToIndex(b: seq<Item>, k: nat)
    requires DistinctIds(b) && k < |b|
    ensures UpTo(b, b[k].id) == b[..k + 1]
  {
    if k < |b| - 1 {
      UpToIndex(Init(b), k);
      assert Init(b)[..k + 1] == b[..k + 1];
    } else {
      assert b[..k + 1] == b;
    }
  }

  lemma HasAt(b: seq<Item>, id: Id) returns (k: nat)
    requires Has(b, id)
    ensures k < |b| && b[k].id == id
  {
    FindIsMembership(b, id);
    k :| 0 <= k < |b| && b[k].id == id;
  }

  /** An edit keeps the journal well formed, and the new live branch is the old one,
      cut at the landing for a rewind, with the new record at its end. */
  lemma EditKeepsJournal(items: seq<Item>, e: Edit)
    requires WellFormed(items) && Allowed(items, e)
    ensures WellFormed(Perform(items, e))
    ensures Live(Perform(items, e)) == After(Live(items), e) + [NewRecord(items, e)]
    ensures HeadOf(Perform(items, e)) == e.id && LastSeq(Perform(items, e)) == LastSeq(items) + 1
  {
    WellFormedIsValid(items);
    var it := NewRecord(items, e);
    ChainAppend(items, it, it.id);
    InitLast(items, it);
    HeadIsHeld(items);
    if e.Redirect? {
      var b := Live(items);
      var k := HasAt(b, e.landing);
      ChainDistinct(items, HeadOf(items));
      ChainPrefix(items, HeadOf(items), k);
      UpToIndex(b, k);
      ChainWithin(items, HeadOf(items), k);
      NoEmptyId(items);
    }
  }

  /** A head selection under any held record keeps the journal well formed. */
  lemma RedirectKeepsJournal(items: seq<Item>, e: Edit)
    requires WellFormed(items) && e.Redirect? && e.id != NO_ID && !Has(items, e.id)
    requires e.landing == HeadOf(items) || Has(items, e.landing)
    ensures WellFormed(Perform(items, e)) && HeadOf(Perform(items, e)) == e.id && LastSeq(Perform(items, e)) == LastSeq(items) + 1
  {
    WellFormedIsValid(items);
    HeadIsHeld(items);
    NoEmptyId(items);
    InitLast(items, NewRecord(items, e));
  }

  lemma HeadIsHeld(items: seq<Item>)
    requires ValidGraph(items)
    ensures HeadOf(items) == NO_ID <==> items == []
    ensures items != [] ==> Has(items, HeadOf(items))
  {
  }

  function Run(items: seq<Item>, edits: seq<Edit>): seq<Item> {
    if edits == [] then items else Perform(Run(items, edits[..|edits| - 1]), edits[|edits| - 1])
  }

  /** Every edit was allowed where it was made. */
  predicate AllAllowed(items: seq<Item>, edits: seq<Edit>) {
    edits == [] ||
    (AllAllowed(items, edits[..|edits| - 1]) && Allowed(Run(items, edits[..|edits| - 1]), edits[|edits| - 1]))
  }

  lemma {:induction false} RunKeepsJournal(items: seq<Item>, edits: seq<Edit>)
    requires WellFormed(items) && AllAllowed(items, edits)
    ensures WellFormed(Run(items, edits))
    ensures |items| <= |Run(items, edits)| && Run(items, edits)[..|items|] == items
  {
    if edits != [] {
      var before := edits[..|edits| - 1];
      RunKeepsJournal(items, before);
      EditKeepsJournal(Run(items, before), edits[|edits| - 1]);
    }
  }

  lemma {:induction false} UpToWithin(b: seq<Item>, cut: Id, id: Id)
    ensures Has(UpTo(b, cut), id) ==> Has(b, id)
  {
    if b != [] {
      UpToWithin(Init(b), cut, id);
    }
  }

  /** Once a record has left the live branch, no later commit and no later rewind
      brings it back, however many follow. */
  lemma {:induction false} AbandonedStaysAbandoned(items: seq<Item>, edits: seq<Edit>, id: Id)
    requires WellFormed(items) && AllAllowed(items, edits)
    requires Has(items, id) && !Has(Live(items), id)
    ensures Has(Run(items, edits), id) && !Has(Live(Run(items, edits)), id)
  {
    if edits != [] {
      var before, e := edits[..|edits| - 1], edits[|edits| - 1];
      var mid := Run(items, before);
      AbandonedStaysAbandoned(items, before, id);
      RunKeepsJournal(items, before);
      EditKeepsJournal(mid, e);
      HasAppend(mid, [NewRecord(mid, e)], id);
      HasAppend(After(Live(mid), e), [NewRecord(mid, e)], id);
      if e.Redirect? {
        UpToWithin(Live(mid), e.landing, id);
      }
      assert Find([NewRecord(mid, e)], id).Some? ==> id == e.id;
    }
  }

  // ---------- where a rewind lands ----------

  function IndexOf(b: seq<Item>, id: Id): Option<nat> {
    if b == [] then None
    else if IndexOf(Init(b), id).Some? then IndexOf(Init(b), id)
    else if Last(b).id == id then Some(|b| - 1)
    else None
  }

  lemma {:induction false} IndexOfFirst(b: seq<Item>, id: Id)
    ensures match IndexOf(b, id)
            case Some(k) => k < |b| && b[k].id == id && forall j :: 0 <= j < k ==> b[j].id != id
            case None => forall j :: 0 <= j < |b| ==> b[j].id != id
  {
    if b != [] {
      IndexOfFirst(Init(b), id);
    }
  }

  /** The nearest record before a cut that does not open a turn. */
  function LandingBefore(b: seq<Item>): Option<nat> {
    if b == [] then None
    else if Last(b).payload.TurnStarted? then LandingBefore(Init(b))
    else Some(|b| - 1)
  }

  function LandingOn(b: seq<Item>, messageID: Id): Result<Id, Error> {
    match IndexOf(b, messageID)
    case None => Err(HeadNotFound)
    case Some(cut) =>
      IndexOfFirst(b, messageID);
      LandingOfPrefix(b, cut);
      match LandingBefore(b[..cut])
      case None => Err(NoLanding)
      case Some(k) => Ok(b[k].id)
  }

  function RewindLanding(items: seq<Item>, head: Id, messageID: Id): Result<Id, Error> {
    match Branch(items, head)
    case Err(e) => Err(e)
    case Ok(b) => LandingOn(b, messageID)
  }

  /** Between the landing and the cut lie only records opening turns, so the landing
      prefix carries exactly the messages before the cut. */
  lemma {:induction false} LandingOfPrefix(b: seq<Item>, cut: nat)
    requires cut <= |b|
    ensures match LandingBefore(b[..cut])
            case Some(k) =>
              && k < cut && !b[k].payload.TurnStarted?
              && (forall j :: k < j < cut ==> b[j].payload.TurnStarted?)
              && CountMessages(b[..k + 1]) == CountMessages(b[..cut])
            case None => (forall j :: 0 <= j < cut ==> b[j].payload.TurnStarted?) && CountMessages(b[..cut]) == 0
  {
    if cut > 0 {
      assert Init(b[..cut]) == b[..cut - 1];
      LandingOfPrefix(b, cut - 1);
    }
  }

  method RewindLandingLoop(items: seq<Item>, head: Id, messageID: Id) returns (r: Result<Id, Error>)
    ensures r == RewindLanding(items, head, messageID)
  {
    var walked := BranchWalk(items, head);
    if walked.Err? {
      return Err(walked.error);
    }
    var branch := walked.value;
    IndexOfFirst(branch, messageID);
    var cut := 0;
    while cut < |branch| && branch[cut].id != messageID
      invariant 0 <= cut <= |branch|
      invariant forall j :: 0 <= j < cut ==> branch[j].id != messageID
    {
      cut := cut + 1;
    }
    if cut == |branch| {
      return Err(HeadNotFound);
    }
    var i := cut;
    while i > 0
      invariant 0 <= i <= cut
      invariant LandingBefore(branch[..cut]) == LandingBefore(branch[..i])
    {
      i := i - 1;
      assert Init(branch[..i + 1]) == branch[..i];
      if !branch[i].payload.TurnStarted? {
        return Ok(branch[i].id);
      }
    }
    r := Err(NoLanding);
  }

  // ---------- what a rewind leaves in place ----------

  datatype Effect = Effect(callID: Id, toolName: string, returned: bool)

  datatype AbandonedWork = AbandonedWork(messages: nat, effects: seq<Effect>)

  /** The calls a span entered, in the order each was first entered. */
  function Entered(span: seq<Item>): seq<Id> {
    if span == [] then []
    else
      match Last(span).payload
      case ToolExecutionStarted(call, _) =>
        if call in Entered(Init(span)) then Entered(Init(span)) else Entered(Init(span)) + [call]
      case _ => Entered(Init(span))
  }

  /** The tool name the span last recorded for a call. */
  function EnteredName(span: seq<Item>, call: Id): string {
    if span == [] then ""
    else if Last(span).payload.ToolExecutionStarted? && Last(span).payload.callID == call then Last(span).payload.toolName
    else EnteredName(Init(span), call)
  }

  function Effects(span: seq<Item>): seq<Effect> {
    var calls := Entered(span);
    seq(|calls|, i requires 0 <= i < |calls| =>
      Effect(calls[i], EnteredName(span, calls[i]), Answered(span, calls[i])))
  }

  function AbandonedOn(b: seq<Item>, target: Id): Result<AbandonedWork, Error> {
    match IndexOf(b, target)
    case None => Err(HeadNotFound)
    case Some(cut) =>
      IndexOfFirst(b, target);
      if cut == |b| - 1 then Err(AlreadyHead)
      else Ok(AbandonedWork(CountMessages(b[cut + 1..]), Effects(b[cut + 1..])))
  }

  function Abandoned(items: seq<Item>, head: Id, target: Id): Result<AbandonedWork, Error> {
    match Branch(items, head)
    case Err(e) => Err(e)
    case Ok(b) => AbandonedOn(b, target)
  }

  /** The effects name each entered call once, and no call that was not entered. */
  lemma {:induction false} EnteredOnce(span: seq<Item>)
    ensures forall i, j :: 0 <= i < j < |Entered(span)| ==> Entered(span)[i] != Entered(span)[j]
    ensures forall call :: call in Entered(span) <==>
              exists k :: 0 <= k < |span| && span[k].payload.ToolExecutionStarted? && span[k].payload.callID == call
  {
    if span != [] {
      EnteredOnce(Init(span));
      forall call | call in Entered(span)
        ensures exists k :: 0 <= k < |span| && span[k].payload.ToolExecutionStarted? && span[k].payload.callID == call
      {
        if call in Entered(Init(span)) {
          var k :| 0 <= k < |Init(span)| && Init(span)[k].payload.ToolExecutionStarted? && Init(span)[k].payload.callID == call;
          assert span[k] == Init(span)[k];
        } else {
          assert span[|span| - 1].payload.callID == call;
        }
      }
    }
  }

  method AbandonedLoop(items: seq<Item>, head: Id, target: Id) returns (r: Result<AbandonedWork, Error>)
    ensures r == Abandoned(items, head, target)
  {
    var walked := BranchWalk(items, head);
    if walked.Err? {
      return Err(walked.error);
    }
    var branch := walked.value;
    IndexOfFirst(branch, target);
    var cut := 0;
    while cut < |branch| && branch[cut].id != target
      invariant 0 <= cut <= |branch|
      invariant forall j :: 0 <= j < cut ==> branch[j].id != target
    {
      cut := cut + 1;
    }
    if cut == |branch| {
      return Err(HeadNotFound);
    }
    if cut == |branch| - 1 {
      return Err(AlreadyHead);
    }
    var work := Survey(branch[cut + 1..]);
    r := Ok(work);
  }

  method Survey(span: seq<Item>) returns (work: AbandonedWork)
    ensures work == AbandonedWork(CountMessages(span), Effects(span))
  {
    var messages: nat := 0;
    var entered: map<Id, string> := map[];
    var returned: set<Id> := {};
    var order: seq<Id> := [];
    var i := 0;
    while i < |span|
      invariant 0 <= i <= |span|
      invariant messages == CountMessages(span[..i])
      invariant order == Entered(span[..i])
      invariant forall call :: call in entered <==> call in order
      invariant forall call :: call in entered ==> entered[call] == EnteredName(span[..i], call)
      invariant forall call :: call in returned <==> Answered(span[..i], call)
    {
      assert Init(span[..i + 1]) == span[..i];
      var p := span[i].payload;
      if p.IsMessage() {
        messages := messages + 1;
      }
      if p.ToolResult? {
        returned := returned + {p.answers};
      } else if p.ToolExecutionStarted? {
        if p.callID !in entered {
          order := order + [p.callID];
        }
        entered := entered[p.callID := p.toolName];
      }
      i := i + 1;
    }
    assert span[..i] == span;
    var effects: seq<Effect> := [];
    i := 0;
    while i < |order|
      invariant 0 <= i <= |order|
      invariant effects == Effects(span)[..i]
    {
      effects := effects + [Effect(order[i], entered[order[i]], order[i] in returned)];
      i := i + 1;
    }
    assert effects == Effects(span);
    work := AbandonedWork(messages, effects);
  }

  lemma {:induction false} CountSplit(b: seq<Item>, k: nat)
    requires k <= |b|
    ensures CountMessages(b) == CountMessages(b[..k]) + CountMessages(b[k..])
  {
    if k < |b| {
      assert Init(b)[..k] == b[..k] && Init(b[k..]) == Init(b)[k..];
      CountSplit(Init(b), k);
    } else {
      assert b[..k] == b;
    }
  }

  /** For every message a rewind accepts, the report exists, and it counts exactly
      the messages that leave the branch. */
  lemma RewindReportExists(b: seq<Item>, messageID: Id)
    requires DistinctIds(b) && LandingOn(b, messageID).Ok?
    ensures var landing := LandingOn(b, messageID).value;
            && Has(b, landing)
            && AbandonedOn(b, landing).Ok?
            && AbandonedOn(b, landing).value.messages == |Summary(b).messages| - |Summary(UpTo(b, landing)).messages|
  {
    hide Summary, MessageIDs, CountMessages, LandingBefore, UpTo, IndexOf, Effects, Init;
    IndexOfFirst(b, messageID);
    var cut := IndexOf(b, messageID).value;
    LandingOfPrefix(b, cut);
    var k := LandingBefore(b[..cut]).value;
    var landing := b[k].id;
    FindIsMembership(b, landing);
    IndexOfFirst(b, landing);
    UpToIndex(b, k);
    CountSplit(b, k + 1);
    SummaryAligned(b);
    SummaryAligned(b[..k + 1]);
  }

  lemma {:induction false} CountMonotone(b: seq<Item>, m: nat, k: nat)
    requires m <= |b| && k <= |b|
    ensures m <= k ==> CountMessages(b[..m]) <= CountMessages(b[..k])
    decreases k
  {
    if m < k {
      assert Init(b[..k]) == b[..k - 1];
      CountMonotone(b, m, k - 1);
    }
  }

  /** The record behind the i-th message, found where its id first occurs. */
  lemma CutOfMessage(b: seq<Item>, i: nat) returns (cut: nat)
    requires DistinctIds(b) && i < |MessageIDs(b)|
    ensures cut < |b| && b[cut].id == MessageIDs(b)[i] && CountMessages(b[..cut]) == i
    ensures IndexOf(b, MessageIDs(b)[i]) == Some(cut)
  {
    SummaryAligned(b);
    cut := MessageRecord(b, i);
    IndexOfFirst(b, MessageIDs(b)[i]);
  }

  lemma IndexIs(b: seq<Item>, id: Id, cut: nat)
    requires DistinctIds(b) && cut < |b| && b[cut].id == id
    ensures IndexOf(b, id) == Some(cut)
  {
    IndexOfFirst(b, id);
  }

  /** What the landing is when a cut is known. */
  lemma LandingAt(b: seq<Item>, id: Id, cut: nat)
    requires DistinctIds(b) && cut < |b| && b[cut].id == id
    ensures LandingOn(b, id) == match LandingBefore(b[..cut])
                                case None => Err(NoLanding)
                                case Some(k) => if k < |b| then Ok(b[k].id) else Err(NoLanding)
    ensures LandingBefore(b[..cut]).Some? ==>
              LandingBefore(b[..cut]).value < cut &&
              UpTo(b, b[LandingBefore(b[..cut]).value].id) == b[..LandingBefore(b[..cut]).value + 1]
  {
    hide IndexOf, LandingBefore, UpTo, DistinctIds, CountMessages;
    IndexIs(b, id, cut);
    LandingOfPrefix(b, cut);
    if LandingBefore(b[..cut]).Some? {
      UpToIndex(b, LandingBefore(b[..cut]).value);
    }
  }

  /** Rewinding the message at position i of the branch leaves exactly the messages
      before it; it is refused only when nothing but turn openings precedes it. */
  lemma RewindKeepsPrefix(b: seq<Item>, i: nat)
    requires DistinctIds(b) && i < |MessageIDs(b)|
    ensures |Summary(b).messages| == |MessageIDs(b)|
    ensures i > 0 ==> LandingOn(b, MessageIDs(b)[i]).Ok?
    ensures var r := LandingOn(b, MessageIDs(b)[i]);
            if r.Ok? then
              && Summary(UpTo(b, r.value)).messages == Summary(b).messages[..i]
              && MessageIDs(UpTo(b, r.value)) == MessageIDs(b)[..i]
            else r.error == NoLanding
  {
    hide Summary, MessageIDs, CountMessages, LandingOn, LandingBefore, UpTo, DistinctIds;
    SummaryAligned(b);
    var cut := CutOfMessage(b, i);
    LandingAt(b, MessageIDs(b)[i], cut);
    LandingOfPrefix(b, cut);
    if LandingBefore(b[..cut]).Some? {
      MessagesPrefix(b, LandingBefore(b[..cut]).value + 1);
    }
  }

  /** Rewinding to i and then to an earlier j lands where rewinding straight to j
      does, on the same prefix of the branch. */
  lemma RewindTwiceLandsAlike(b: seq<Item>, i: nat, j: nat, it: Item)
    requires DistinctIds(b) && j < i < |MessageIDs(b)|
    requires LandingOn(b, MessageIDs(b)[j]).Ok?
    requires it.payload.HeadSelected? && !Has(b, it.id)
    ensures LandingOn(b, MessageIDs(b)[i]).Ok?
    ensures var b2 := UpTo(b, LandingOn(b, MessageIDs(b)[i]).value) + [it];
            && LandingOn(b2, MessageIDs(b)[j]) == LandingOn(b, MessageIDs(b)[j])
            && UpTo(b2, LandingOn(b, MessageIDs(b)[j]).value) == UpTo(b, LandingOn(b, MessageIDs(b)[j]).value)
  {
    hide Summary, MessageIDs, CountMessages, LandingOn, LandingBefore, UpTo, DistinctIds, IndexOf, Has;
    var ci := CutOfMessage(b, i);
    var cj := CutOfMessage(b, j);
    CountMonotone(b, ci, cj);
    LandingAt(b, MessageIDs(b)[i], ci);
    LandingAt(b, MessageIDs(b)[j], cj);
    RewindKeepsPrefix(b, i);
    LandingOfPrefix(b, ci);
    var ki := LandingBefore(b[..ci]).value;
    CountMonotone(b, ki + 1, cj);
    var b2 := b[..ki + 1] + [it];
    DistinctAfterCut(b, ki + 1, it);
    assert b2[cj].id == MessageIDs(b)[j] && b2[..cj] == b[..cj];
    LandingAt(b2, MessageIDs(b)[j], cj);
    var kj := LandingBefore(b[..cj]).value;
    assert b2[..kj + 1] == b[..kj + 1];
  }

  lemma DistinctAfterCut(b: seq<Item>, k: nat, it: Item)
    requires DistinctIds(b) && k <= |b| && !Has(b, it.id)
    ensures DistinctIds(b[..k] + [it])
  {
    FindIsMembership(b, it.id);
  }

  // ---------- the prefix a fork copies ----------

  function Renumber(b: seq<Item>): seq<Item> {
    seq(|b|, i requires 0 <= i < |b| => b[i].(seqNo := i + 1))
  }

  function ForkPrefix(items: seq<Item>, throughID: Id): Result<seq<Item>, Error> {
    match Branch(items, throughID)
    case Err(e) => Err(e)
    case Ok(b) => Ok(Renumber(b))
  }

  method ForkPrefixLoop(items: seq<Item>, throughID: Id) returns (r: Result<seq<Item>, Error>)
    ensures r == ForkPrefix(items, throughID)
  {
    var walked := BranchWalk(items, throughID);
    if walked.Err? {
      return Err(walked.error);
    }
    var branch := walked.value;
    var out: seq<Item> := [];
    var i := 0;
    while i < |branch|
      invariant 0 <= i <= |branch|
      invariant out == Renumber(branch)[..i]
    {
      out := out + [branch[i].(seqNo := i + 1)];
      i := i + 1;
    }
    assert out == Renumber(branch);
    r := Ok(out);
  }

  lemma {:induction false} RenumberReadsAlike(b: seq<Item>)
    ensures Summary(Renumber(b)) == Summary(b) && MessageIDs(Renumber(b)) == MessageIDs(b)
    ensures AnsweredOnce(Renumber(b)) <==> AnsweredOnce(b)
    ensures forall call :: Answered(Renumber(b), call) <==> Answered(b, call)
    ensures forall c :: Boundary(Renumber(b), c) == Boundary(b, c)
    ensures CountMessages(Renumber(b)) == CountMessages(b)
  {
    if b != [] {
      RenumberReadsAlike(Init(b));
      assert Init(Renumber(b)) == Renumber(Init(b));
    }
  }

  lemma {:induction false} RenumberHas(b: seq<Item>, id: Id)
    ensures Has(Renumber(b), id) <==> Has(b, id)
  {
    if b != [] {
      assert Init(Renumber(b)) == Renumber(Init(b));
      RenumberHas(Init(b), id);
    }
  }

  /** A journal that is all live branch stays one when its head is continued. */
  lemma GrowCopy(copy: seq<Item>, it: Item)
    requires WellFormed(copy) && Live(copy) == copy && LastSeq(copy) == |copy|
    requires it.seqNo == |copy| + 1 && it.parent == HeadOf(copy) && Accepts(copy, it)
    requires it.payload.Compaction? ==> Boundary(copy, it.payload.covered).Some?
    ensures WellFormed(copy + [it]) && Live(copy + [it]) == copy + [it] && LastSeq(copy + [it]) == |copy + [it]|
  {
    hide Boundary, Accepts;
    InitLast(copy, it);
    ChainAppend(copy, it, it.id);
  }

  /** The renumbered parent chain accepts the record that followed it. */
  lemma CopyAccepts(init: seq<Item>, last: Item)
    requires ValidGraph(init) && Accepts(init, last)
    ensures var c := Chain(init, last.parent);
            Accepts(Renumber(c), last.(seqNo := |c| + 1)) && last.parent == HeadOf(Renumber(c))
  {
    hide ValidGraph, Chain, Find;
    var c := Chain(init, last.parent);
    if Has(c, last.id) {
      var k := HasAt(c, last.id);
      ChainWithin(init, last.parent, k);
    }
    RenumberHas(c, last.id);
    RenumberHas(c, last.parent);
    ChainAbsent(init, last.parent);
    NoEmptyId(init);
    if last.parent != NO_ID {
      FindIsMembership(c, last.parent);
    }
  }

  /** A branch, renumbered, is a well-formed journal whose live branch is all of it:
      the copy is self-contained and reads exactly as the branch it was cut from. */
  lemma {:induction false} ForkIsSelfContained(items: seq<Item>, throughID: Id)
    requires WellFormed(items)
    ensures var copy := Renumber(Chain(items, throughID));
            WellFormed(copy) && Live(copy) == copy && LastSeq(copy) == |copy|
  {
    hide Accepts, Live, LastSeq, HeadOf, Boundary;
    if items == [] {
      ForkOfNothing();
    } else {
      var init, last := Init(items), Last(items);
      if last.id == throughID {
        ForkIsSelfContained(init, last.parent);
        WellFormedIsValid(init);
        CopyAccepts(init, last);
        var c := Chain(init, last.parent);
        RenumberReadsAlike(c);
        assert Renumber(c + [last]) == Renumber(c) + [last.(seqNo := |c| + 1)];
        GrowCopy(Renumber(c), last.(seqNo := |c| + 1));
      } else {
        ForkIsSelfContained(init, throughID);
      }
    }
  }

  lemma ForkOfNothing()
    ensures Renumber([]) == [] && WellFormed([]) && Live([]) == [] && LastSeq([]) == 0
  {
  }
}
