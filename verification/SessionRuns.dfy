/** Claims about whole runs of commits and rewinds, and exactly when the live read
    model and a fresh replay part ways. */
module SessionRuns {
  import opened Outcome
  import opened Journal
  import opened Reducer
  import opened Branching
  import opened SessionContexts

  function ReadModel(items: seq<Item>, edits: seq<Edit>): View {
    if edits == [] then Replayed(Live(items))
    else
      var before := edits[..|edits| - 1];
      ViewAfter(ReadModel(items, before), Live(Run(items, before)), edits[|edits| - 1])
  }

  /** The run's last rewind kept a call answered twice, so it did not replay. */
  predicate Stale(items: seq<Item>, edits: seq<Edit>) {
    if edits == [] then false
    else
      var before, e := edits[..|edits| - 1], edits[|edits| - 1];
      if e.Continue? then Stale(items, before) else !AnsweredOnce(UpTo(Live(Run(items, before)), e.landing))
  }

  /** The landing is that of a message on the branch, as a rewind's is. */
  ghost predicate RewindsMessage(b: seq<Item>, landing: Id) {
    exists i :: 0 <= i < |MessageIDs(b)| && LandingOn(b, MessageIDs(b)[i]) == Ok(landing)
  }

  /** Edits a session itself makes: its compactions cover messages it holds, its rewinds
      remove messages of the branch. */
  ghost predicate OwnEdit(v: View, b: seq<Item>, e: Edit) {
    if e.Continue? then e.payload.Compaction? ==> e.payload.covered in v.ids else RewindsMessage(b, e.landing)
  }

  ghost predicate OwnEdits(items: seq<Item>, edits: seq<Edit>) {
    edits == [] ||
    (OwnEdits(items, edits[..|edits| - 1]) &&
     OwnEdit(ReadModel(items, edits[..|edits| - 1]), Live(Run(items, edits[..|edits| - 1])), edits[|edits| - 1]))
  }

  /** The read model says of the branch what a replay would, up to the turn markers. */
  predicate InSync(v: View, b: seq<Item>) {
    SameButTurn(v.state, Summary(b)) && v.ids == MessageIDs(b)
  }

  lemma {:induction false} CommitStaysInSync(items: seq<Item>, v: View, turn: string, p: Payload, id: Id)
    requires WellFormed(items) && Allowed(items, Continue(turn, p, id)) && InSync(v, Live(items))
    requires p.Compaction? ==> p.covered in v.ids
    ensures InSync(ViewAfter(v, Live(items), Continue(turn, p, id)), Live(Perform(items, Continue(turn, p, id))))
  {
    hide Summary, MessageIDs, AnsweredOnce, Live, WellFormed, Answered, PlaceOf;
    var b := Live(items);
    OneEdit(items, turn, p, id);
    if p.Compaction? {
      PlaceIsBoundary(items, p.covered);
    }
  }

  lemma RewindRemoves(b: seq<Item>, landing: Id)
    requires DistinctIds(b) && RewindsMessage(b, landing)
    ensures |MessageIDs(UpTo(b, landing))| < |MessageIDs(b)|
  {
    hide MessageIDs, LandingOn, UpTo, DistinctIds, Summary;
    var i :| 0 <= i < |MessageIDs(b)| && LandingOn(b, MessageIDs(b)[i]) == Ok(landing);
    RewindKeepsPrefix(b, i);
  }

  /** More messages are shown than the branch holds. */
  predicate ShowsTooMany(v: View, b: seq<Item>) {
    |v.state.messages| > |MessageIDs(b)|
  }

  lemma MessagesShown(v: View, b: seq<Item>, turn: string, p: Payload, id: Id)
    ensures |ViewAfter(v, b, Continue(turn, p, id)).state.messages| == |v.state.messages| + if p.IsMessage() then 1 else 0
  {
    hide Boundary, PlaceOf;
  }

  lemma {:induction false} RewindEither(items: seq<Item>, v: View, e: Edit)
    requires WellFormed(items) && Allowed(items, e) && e.Redirect? && RewindsMessage(Live(items), e.landing)
    requires InSync(v, Live(items)) || ShowsTooMany(v, Live(items))
    ensures var after, b := ViewAfter(v, Live(items), e), Live(Perform(items, e));
            if AnsweredOnce(UpTo(Live(items), e.landing)) then after == Replayed(b)
            else ShowsTooMany(after, b)
  {
    hide Summary, MessageIDs, AnsweredOnce, Live, WellFormed, UpTo, LandingOn, RewindsMessage, DistinctIds;
    RedirectReads(items, e);
    LiveBranch(items);
    RewindRemoves(Live(items), e.landing);
    SummaryAligned(Live(items));
  }

  /** Over any run of a session's own commits and rewinds: its read model is in sync with
      the branch exactly if the last rewind, if there was one, kept no call answered
      twice; and when it did keep one, the session shows messages that have left. */
  lemma {:induction false} RunReadsAsReplay(items: seq<Item>, edits: seq<Edit>)
    requires WellFormed(items) && AllAllowed(items, edits) && OwnEdits(items, edits)
    ensures var v, b := ReadModel(items, edits), Live(Run(items, edits));
            && (InSync(v, b) <==> !Stale(items, edits))
            && (Stale(items, edits) ==> ShowsTooMany(v, b))
  {
    var v, b := ReadModel(items, edits), Live(Run(items, edits));
    if edits != [] {
      hide InSync, ShowsTooMany, Live, WellFormed, ViewAfter, Replayed, Perform, RewindsMessage;
      var before, e := edits[..|edits| - 1], edits[|edits| - 1];
      RunReadsAsReplay(items, before);
      RunKeepsJournal(items, before);
      StepReadsAsReplay(Run(items, before), ReadModel(items, before), e);
    }
    SummaryAligned(b);
  }

  lemma {:induction false} StepReadsAsReplay(items: seq<Item>, v: View, e: Edit)
    requires WellFormed(items) && Allowed(items, e) && OwnEdit(v, Live(items), e)
    requires InSync(v, Live(items)) || ShowsTooMany(v, Live(items))
    ensures var after, b := ViewAfter(v, Live(items), e), Live(Perform(items, e));
            if e.Continue? then
              (InSync(v, Live(items)) ==> InSync(after, b)) && (ShowsTooMany(v, Live(items)) ==> ShowsTooMany(after, b))
            else if AnsweredOnce(UpTo(Live(items), e.landing)) then after == Replayed(b) && InSync(after, b)
            else ShowsTooMany(after, b)
  {
    hide WellFormed, Live, InSync, ViewAfter, Perform, Allowed, RewindsMessage, AnsweredOnce, UpTo, MessageIDs, Summary, Answered, Run, Continues;
    match e {
      case Continue(turn, p, id) =>
        if InSync(v, Live(items)) {
          CommitStaysInSync(items, v, turn, p, id);
        }
        OneEdit(items, turn, p, id);
        MessagesShown(v, Live(items), turn, p, id);
      case Redirect(_, _, _, _) =>
        RewindEither(items, v, e);
        ReplayedIsInSync(Live(Perform(items, e)));
    }
  }

  lemma ReplayedIsInSync(b: seq<Item>)
    ensures InSync(Replayed(b), b)
  {
  }

  // ---------- the turn markers ----------

  type Markers = (string, bool)

  function MarkersOf(st: State): Markers {
    (st.lastTurn, st.open)
  }

  function MarkOf(m: Markers, p: Payload): Markers {
    if p.TurnStarted? then (p.runID, true) else if p.TurnFinished? then (m.0, false) else m
  }

  /** What the records of a run make of the turn markers. */
  function Marks(m: Markers, edits: seq<Edit>): Markers {
    if edits == [] then m
    else
      var before, e := Marks(m, edits[..|edits| - 1]), edits[|edits| - 1];
      if e.Continue? then MarkOf(before, e.payload) else before
  }

  /** The commits since the run's last rewind. */
  function SinceRewind(edits: seq<Edit>): seq<Edit> {
    if edits == [] || edits[|edits| - 1].Redirect? then [] else SinceRewind(edits[..|edits| - 1]) + [edits[|edits| - 1]]
  }

  lemma {:induction false} MarkersFollow(items: seq<Item>, edits: seq<Edit>)
    requires WellFormed(items) && AllAllowed(items, edits) && OwnEdits(items, edits) && !Stale(items, edits)
    ensures MarkersOf(Summary(Live(Run(items, edits)))) == Marks(MarkersOf(ReadModel(items, edits).state), SinceRewind(edits))
  {
    if edits != [] {
      hide Summary, Live, WellFormed, AnsweredOnce, UpTo, RewindsMessage, InSync, ShowsTooMany, ViewAfter, Replayed, Perform, MarkOf, MarkersOf;
      var before, e := edits[..|edits| - 1], edits[|edits| - 1];
      var mid, v := Run(items, before), ReadModel(items, before);
      RunKeepsJournal(items, before);
      if e.Continue? {
        MarkersFollow(items, before);
        CommitMarks(mid, v, e.turnID, e.payload, e.id);
        MarksMore(MarkersOf(v.state), SinceRewind(before), e);
      } else {
        RunReadsAsReplay(items, before);
        StepReadsAsReplay(mid, v, e);
        ReplayedMarks(Live(Perform(mid, e)));
      }
    }
  }

  lemma MarksMore(m: Markers, since: seq<Edit>, e: Edit)
    requires e.Continue?
    ensures Marks(m, since + [e]) == MarkOf(Marks(m, since), e.payload)
  {
    assert (since + [e])[..|since|] == since;
  }

  lemma ReplayedMarks(b: seq<Item>)
    ensures MarkersOf(Summary(b)) == Marks(MarkersOf(Replayed(b).state), [])
  {
  }

  lemma {:induction false} CommitMarks(items: seq<Item>, v: View, turn: string, p: Payload, id: Id)
    requires WellFormed(items) && Allowed(items, Continue(turn, p, id))
    ensures MarkersOf(Summary(Live(Perform(items, Continue(turn, p, id))))) == MarkOf(MarkersOf(Summary(Live(items))), p)
    ensures MarkersOf(ViewAfter(v, Live(items), Continue(turn, p, id)).state) == MarkersOf(v.state)
  {
    hide Summary, MessageIDs, AnsweredOnce, Live, WellFormed, Answered, PlaceOf, Boundary;
    OneEdit(items, turn, p, id);
  }

  /** The read model equals the branch's summary in every field exactly if it is not stale
      and the turns opened and closed since the last rewind left the markers as they were. */
  lemma EqualsSummaryExactly(items: seq<Item>, edits: seq<Edit>)
    requires WellFormed(items) && AllAllowed(items, edits) && OwnEdits(items, edits)
    ensures var v, b := ReadModel(items, edits), Live(Run(items, edits));
            v == Replayed(b) <==>
            !Stale(items, edits) && Marks(MarkersOf(v.state), SinceRewind(edits)) == MarkersOf(v.state)
  {
    hide Summary, Live, WellFormed, MessageIDs, OwnEdits, Stale, ReadModel, AllAllowed, Run, SinceRewind, Marks;
    RunReadsAsReplay(items, edits);
    if !Stale(items, edits) {
      MarkersFollow(items, edits);
    }
  }

  /** Reopening the journal a run leaves gives the branch's summary, or is refused exactly
      if the branch answers some call twice. */
  lemma RunReopens(items: seq<Item>, edits: seq<Edit>)
    requires WellFormed(items) && AllAllowed(items, edits)
    ensures var now := Run(items, edits);
            Reduce(now, HeadOf(now)) ==
            if AnsweredOnce(Live(now)) then Ok(Summary(Live(now))) else Err(HistoryCorrupt)
  {
    hide Summary, AnsweredOnce, Live, WellFormed, Reduce;
    RunKeepsJournal(items, edits);
    LiveReplay(Run(items, edits));
  }

  /** A branch that answers no call twice was left by no stale rewind. */
  lemma {:induction false} ReplayingIsNotStale(items: seq<Item>, edits: seq<Edit>)
    requires WellFormed(items) && AllAllowed(items, edits)
    ensures AnsweredOnce(Live(Run(items, edits))) ==> !Stale(items, edits)
  {
    if edits != [] {
      hide Summary, Live, WellFormed, AnsweredOnce, Answered, MessageIDs, UpTo, Boundary;
      var before, e := edits[..|edits| - 1], edits[|edits| - 1];
      var mid := Run(items, before);
      RunKeepsJournal(items, before);
      ReplayingIsNotStale(items, before);
      if e.Continue? {
        OneEdit(mid, e.turnID, e.payload, e.id);
      } else {
        LiveIsHeld(mid, e.landing);
        RedirectReads(mid, e);
      }
    }
  }

  /** Over any run of a session's own commits and rewinds, replaying its journal gives
      exactly the state it shows, exactly if the branch answers no call twice and the
      turns opened and closed since the last rewind left the markers as they were; the
      ids it holds are then the branch's too. */
  lemma EqualsReplayExactly(items: seq<Item>, edits: seq<Edit>)
    requires WellFormed(items) && AllAllowed(items, edits) && OwnEdits(items, edits)
    ensures var v, now := ReadModel(items, edits), Run(items, edits);
            && (Reduce(now, HeadOf(now)) == Ok(v.state) <==>
                AnsweredOnce(Live(now)) && Marks(MarkersOf(v.state), SinceRewind(edits)) == MarkersOf(v.state))
            && (Reduce(now, HeadOf(now)) == Ok(v.state) ==> v.ids == MessageIDs(Live(now)))
  {
    hide Summary, Live, WellFormed, MessageIDs, OwnEdits, Stale, ReadModel, AllAllowed, Run, SinceRewind, Marks, AnsweredOnce, Reduce, MarkersOf;
    RunReopens(items, edits);
    EqualsSummaryExactly(items, edits);
    RunReadsAsReplay(items, edits);
    ReplayingIsNotStale(items, edits);
  }

  predicate Reopens(items: seq<Item>) {
    Reduce(items, HeadOf(items)).Ok?
  }

  /** A journal that reopened before a commit reopens after it exactly when the commit
      is not a second result for a call the live branch already answered. */
  lemma CommitKeepsReopening(items: seq<Item>, turn: string, p: Payload, id: Id)
    requires WellFormed(items) && Reopens(items) && Allowed(items, Continue(turn, p, id))
    ensures Reopens(Perform(items, Continue(turn, p, id))) <==> !(p.ToolResult? && Answered(Live(items), p.answers))
  {
    hide WellFormed, Live, Summary, ApplyItem, Answered, AnsweredOnce, Reduce;
    EditReplays(items, turn, p, id);
  }

  /** Opening a turn on an empty session: the journal says a turn is open, and the
      read model, which has not moved, says none ever was. */
  lemma TurnMarkersLag()
    ensures var e := Continue("r", TurnStarted("r"), "a");
            && Allowed([], e)
            && ReadModel([], [e]).state == EMPTY_STATE
            && Reduce(Perform([], e), "a") == Ok(EMPTY_STATE.(lastTurn := "r", open := true))
  {
    var e := Continue("r", TurnStarted("r"), "a");
    assert [e][..0] == [];
    EditReplays([], "r", TurnStarted("r"), "a");
  }

  /** Two results for one call are both committed, and the session no longer opens. */
  lemma AnsweredTwiceNoLongerOpens()
    ensures var first := Continue("r", ToolResult("c", "completed", "x", []), "a");
            var second := Continue("r", ToolResult("c", "completed", "y", []), "b");
            && Allowed([], first) && Reopens(Perform([], first))
            && Allowed(Perform([], first), second) && !Reopens(Perform(Perform([], first), second))
  {
    var p, q := ToolResult("c", "completed", "x", []), ToolResult("c", "completed", "y", []);
    var first := Continue("r", p, "a");
    EditReplays([], "r", p, "a");
    OneEdit([], "r", p, "a");
    var one := Perform([], first);
    EditKeepsJournal([], first);
    assert Live(one) == [NewRecord([], first)];
    SummaryAppend([], NewRecord([], first));
    assert one == [NewRecord([], first)];
    FindIsMembership(one, "b");
    EditReplays(one, "r", q, "b");
  }

  /** Rewinding to i and then to j < i reads exactly as rewinding to j. */
  lemma RewindTwiceReadsAlike(items: seq<Item>, i: nat, j: nat, turn: string, id1: Id, id2: Id)
    requires WellFormed(items) && j < i < |MessageIDs(Live(items))|
    requires LandingOn(Live(items), MessageIDs(Live(items))[j]).Ok?
    requires id1 != NO_ID && id2 != NO_ID && id1 != id2 && !Has(items, id1) && !Has(items, id2)
    ensures LandingOn(Live(items), MessageIDs(Live(items))[i]).Ok?
    ensures var ids := MessageIDs(Live(items));
            var viaI := Perform(items, Redirect(LandingOn(Live(items), ids[i]).value, turn, USER_REWIND, id1));
            var landing := LandingOn(Live(items), ids[j]).value;
            && WellFormed(viaI) && LandingOn(Live(viaI), ids[j]) == Ok(landing)
            && Summary(Live(Perform(viaI, Redirect(landing, turn, USER_REWIND, id2)))) ==
               Summary(Live(Perform(items, Redirect(landing, turn, USER_REWIND, id2))))
  {
    hide Summary, MessageIDs, Live, WellFormed, LandingOn, UpTo, AnsweredOnce, DistinctIds, LooksBack, Find;
    var b, ids := Live(items), MessageIDs(Live(items));
    LiveBranch(items);
    RewindKeepsPrefix(b, i);
    RewindReportExists(b, ids[i]);
    RewindReportExists(b, ids[j]);
    var ei := Redirect(LandingOn(b, ids[i]).value, turn, USER_REWIND, id1);
    RedirectReads(items, ei);
    EditKeepsJournal(items, ei);
    var viaI := Perform(items, ei);
    if Has(b, id1) {
      LiveIsHeld(items, id1);
    }
    RewindTwiceLandsAlike(b, i, j, NewRecord(items, ei));
    LiveBranch(viaI);
    RewindReportExists(Live(viaI), ids[j]);
    var landing := LandingOn(b, ids[j]).value;
    var ej := Redirect(landing, turn, USER_REWIND, id2);
    RedirectReads(items, ej);
    HasAppend(items, [NewRecord(items, ei)], id2);
    FindIsMembership([NewRecord(items, ei)], id2);
    RedirectReads(viaI, ej);
  }

  // ---------- a rewind that keeps a twice-answered call ----------

  function Said(text: string): Payload {
    MessageItem(Message("user", text, "", "", [], []))
  }

  const TWICE_ANSWERED: seq<Edit> := [
    Continue("", ToolResult("c", "completed", "x", []), "1"),
    Continue("", ToolResult("c", "completed", "y", []), "2"),
    Continue("", Said("m1"), "3"),
    Continue("", Said("m2"), "4")]

  const BACK: Edit := Redirect("3", "", USER_REWIND, "5")

  /** One more commit on a journal that is all live branch. */
  lemma OneMoreCommit(items: seq<Item>, turn: string, p: Payload, id: Id)
    requires WellFormed(items) && Live(items) == items && id != NO_ID && !Has(items, id)
    requires !p.UnknownPayload? && !p.Compaction?
    ensures var e := Continue(turn, p, id);
            && Allowed(items, e) && WellFormed(Perform(items, e)) && Live(Perform(items, e)) == Perform(items, e)
            && Perform(items, e) == items + [NewItem(LastSeq(items) + 1, id, HeadOf(items), turn, p)]
            && forall x :: Has(Perform(items, e), x) <==> Has(items, x) || x == id
  {
    hide WellFormed, Live;
    var e := Continue(turn, p, id);
    EditKeepsJournal(items, e);
    forall x ensures Has(Perform(items, e), x) <==> Has(items, x) || x == id {
      HasAppend(items, [NewRecord(items, e)], x);
      FindIsMembership([NewRecord(items, e)], x);
    }
  }

  /** The records those commits leave. */
  function TwiceAnswered(): seq<Item> {
    [NewItem(1, "1", NO_ID, "", TWICE_ANSWERED[0].payload), NewItem(2, "2", "1", "", TWICE_ANSWERED[1].payload),
     NewItem(3, "3", "2", "", Said("m1")), NewItem(4, "4", "3", "", Said("m2"))]
  }

  /** The edits so far were the session's own and left the records b, all of them live,
      under the given ids. */
  ghost predicate Leaves(es: seq<Edit>, b: seq<Item>, ids: seq<Id>) {
    && Run([], es) == b && AllAllowed([], es) && OwnEdits([], es) && WellFormed(b) && Live(b) == b
    && forall x :: Has(b, x) <==> x in ids
  }

  lemma LeavesMore(es: seq<Edit>, b: seq<Item>, ids: seq<Id>, e: Edit, r: Item)
    requires Leaves(es, b, ids) && e.Continue? && e.id != NO_ID && e.id !in ids && !e.payload.UnknownPayload? && !e.payload.Compaction?
    requires r == NewItem(LastSeq(b) + 1, e.id, HeadOf(b), e.turnID, e.payload)
    ensures Leaves(es + [e], b + [r], ids + [e.id])
  {
    hide WellFormed, Live, Has, ViewAfter, Replayed, HeadOf, LastSeq;
    OneMoreCommit(b, e.turnID, e.payload, e.id);
    assert (es + [e])[..|es|] == es;
  }

  lemma LeavesNothing()
    ensures Leaves([], [], [])
  {
  }

  lemma TwoAnswersLeave()
    ensures Leaves(TWICE_ANSWERED[..2], TwiceAnswered()[..2], ["1", "2"])
  {
    hide Leaves;
    LeavesNothing();
    var b, es := TwiceAnswered(), TWICE_ANSWERED;
    LeavesMore([], [], [], es[0], b[0]);
    assert es[..1] == [] + [es[0]] && b[..1] == [] + [b[0]] && [] + ["1"] == ["1"];
    LeavesMore(es[..1], b[..1], ["1"], es[1], b[1]);
    assert es[..2] == es[..1] + [es[1]] && b[..2] == b[..1] + [b[1]] && ["1"] + ["2"] == ["1", "2"];
  }

  lemma TwiceAnsweredLeaves()
    ensures Leaves(TWICE_ANSWERED, TwiceAnswered(), ["1", "2", "3", "4"])
  {
    hide Leaves;
    TwoAnswersLeave();
    var b, es := TwiceAnswered(), TWICE_ANSWERED;
    LeavesMore(es[..2], b[..2], ["1", "2"], es[2], b[2]);
    assert es[..3] == es[..2] + [es[2]] && b[..3] == b[..2] + [b[2]] && ["1", "2"] + ["3"] == ["1", "2", "3"];
    LeavesMore(es[..3], b[..3], ["1", "2", "3"], es[3], b[3]);
    assert es == es[..3] + [es[3]] && b == b[..3] + [b[3]] && ["1", "2", "3"] + ["4"] == ["1", "2", "3", "4"];
  }

  lemma FourRecords(r0: Item, r1: Item, r2: Item, r3: Item)
    requires r0.payload.ToolResult? && r1.payload.ToolResult? && r0.payload.answers == r1.payload.answers
    requires r2.payload.IsMessage() && r3.payload.IsMessage()
    ensures !AnsweredOnce([r0, r1, r2]) && MessageIDs([r0, r1, r2, r3]) == [r0.id, r1.id, r2.id, r3.id]
  {
    hide Summary, AnsweredOnce, Answered, MessageIDs, CountMessages, LooksBack, Boundary;
    NothingRead();
    SummaryAppend([], r0);
    SummaryAppend([r0], r1);
    SummaryAppend([r0, r1], r2);
    SummaryAppend([r0, r1, r2], r3);
    assert [] + [r0] == [r0] && [r0] + [r1] == [r0, r1] && [r0, r1] + [r2] == [r0, r1, r2];
    assert [r0, r1, r2] + [r3] == [r0, r1, r2, r3];
  }

  lemma NothingRead()
    ensures MessageIDs([]) == []
  {
  }

  lemma TwiceKept()
    ensures !AnsweredOnce(TwiceAnswered()[..3]) && MessageIDs(TwiceAnswered()) == ["1", "2", "3", "4"]
  {
    hide AnsweredOnce, MessageIDs;
    var b := TwiceAnswered();
    assert b[..3] == [b[0], b[1], b[2]];
    FourRecords(b[0], b[1], b[2], b[3]);
  }

  lemma RewindingTheLast()
    ensures var b := TwiceAnswered(); LandingOn(b, "4") == Ok("3") && UpTo(b, "3") == b[..3] && Has(b, "3")
  {
    var b := TwiceAnswered();
    UpToIndex(b, 2);
    LandingAt(b, "4", 3);
    FindIsMembership(b, "3");
  }

  /** Two results for one call, two messages, and a rewind of the second message: the
      rewind fails, the head has moved, and four messages are still shown. */
  lemma StaleRewindStillShowsAll()
    ensures var edits := TWICE_ANSWERED + [BACK];
            && AllAllowed([], edits) && OwnEdits([], edits) && Stale([], edits)
            && ShowsTooMany(ReadModel([], edits), Live(Run([], edits)))
  {
    var b := TwiceAnswered();
    TwiceKept();
    RewindingTheLast();
    TwiceAnsweredLeaves();
    LeavesNothing();
    hide Leaves, WellFormed, Live, UpTo, AnsweredOnce, ShowsTooMany, InSync, LandingOn, Has, TwiceAnswered, OwnEdits, Stale, AllAllowed, Run, ReadModel;
    ThenBack(TWICE_ANSWERED, b, ["1", "2", "3", "4"]);
    RunReadsAsReplay([], TWICE_ANSWERED + [BACK]);
  }

  lemma ThenBack(es: seq<Edit>, b: seq<Item>, ids: seq<Id>)
    requires Leaves(es, b, ids) && "5" !in ids && Has(b, "3") && !AnsweredOnce(UpTo(b, "3"))
    requires |MessageIDs(b)| == 4 && LandingOn(b, MessageIDs(b)[3]) == Ok("3")
    ensures WellFormed([])
    ensures AllAllowed([], es + [BACK]) && OwnEdits([], es + [BACK]) && Stale([], es + [BACK])
  {
    hide Live, UpTo, AnsweredOnce, LandingOn, Has, MessageIDs;
    assert (es + [BACK])[..|es|] == es;
    assert RewindsMessage(b, "3");
  }
}
