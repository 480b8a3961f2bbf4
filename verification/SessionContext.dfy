/** One open session: the writer that owns the journal, the records it holds, and
    the read model every commit keeps in step with them. */
module SessionContexts {
  import opened Outcome
  import opened Journal
  import opened Reducer
  import opened Branching

  // ---------- the writer ----------

  /** What the writer asks of a batch: contiguous numbering, and each record chained
      to the one before it unless it is a head selection naming a held record. */
  predicate ContinuesFrom(held: seq<Item>, lastID: Id, lastSeq: nat, batch: seq<Item>) {
    forall k :: 0 <= k < |batch| ==> Linked(held, lastID, lastSeq, batch, k)
  }

  predicate Linked(held: seq<Item>, lastID: Id, lastSeq: nat, batch: seq<Item>, k: nat)
    requires k < |batch|
  {
    && batch[k].seqNo == lastSeq + k + 1
    && (batch[k].parent == (if k == 0 then lastID else batch[k - 1].id) ||
        (batch[k].payload.HeadSelected? && Has(held, batch[k].parent)))
  }

  class FileWriter {
    var items: seq<Item>
    var lastID: Id
    var lastSeq: nat

    constructor (items: seq<Item>)
      ensures this.items == items && lastID == HeadOf(items) && lastSeq == LastSeq(items)
    {
      this.items, lastID, lastSeq := items, HeadOf(items), LastSeq(items);
    }

    /** Writes a batch or nothing. diskOk is whether the file took the bytes. */
    method Append(batch: seq<Item>, diskOk: bool) returns (ok: bool)
      modifies this
      ensures ok <==> batch == [] || (diskOk && ContinuesFrom(old(items), old(lastID), old(lastSeq), batch))
      ensures ok ==> items == old(items) + batch && lastSeq == old(lastSeq) + |batch|
      ensures ok ==> lastID == if batch == [] then old(lastID) else HeadOf(batch)
      ensures !ok ==> items == old(items) && lastID == old(lastID) && lastSeq == old(lastSeq)
    {
      if batch == [] {
        return true;
      }
      var parent, seqNo, i := lastID, lastSeq, 0;
      while i < |batch|
        invariant 0 <= i <= |batch|
        invariant seqNo == lastSeq + i
        invariant parent == if i == 0 then lastID else batch[i - 1].id
        invariant forall k :: 0 <= k < i ==> Linked(items, lastID, lastSeq, batch, k)
      {
        var it := batch[i];
        seqNo := seqNo + 1;
        if it.seqNo != seqNo {
          assert !Linked(items, lastID, lastSeq, batch, i);
          return false;
        }
        if it.parent != parent {
          if !it.payload.HeadSelected? || !Has(items, it.parent) {
            assert !Linked(items, lastID, lastSeq, batch, i);
            return false;
          }
        }
        assert Linked(items, lastID, lastSeq, batch, i);
        parent, i := it.id, i + 1;
      }
      if !diskOk {
        return false;
      }
      lastID, lastSeq, items := parent, seqNo, items + batch;
      return true;
    }
  }

  // ---------- notes and todos keep their age across a rewrite ----------

  function NoteAge(prev: seq<Note>, text: string): Option<int> {
    if prev == [] then None
    else if prev[0].text == text then Some(prev[0].written)
    else NoteAge(prev[1..], text)
  }

  function StampNotes(prev: seq<Note>, next: seq<Note>, iter: int): seq<Note> {
    seq(|next|, i requires 0 <= i < |next| =>
      match NoteAge(prev, next[i].text)
      case Some(at) => next[i].(written := at)
      case None => next[i].(written := iter))
  }

  function TodoAge(prev: seq<Todo>, content: string, status: string): Option<int> {
    if prev == [] then None
    else if prev[0].content == content && prev[0].status == status then Some(prev[0].written)
    else TodoAge(prev[1..], content, status)
  }

  function StampTodos(prev: seq<Todo>, next: seq<Todo>, iter: int): seq<Todo> {
    seq(|next|, i requires 0 <= i < |next| =>
      match TodoAge(prev, next[i].content, next[i].status)
      case Some(at) => next[i].(written := at)
      case None => next[i].(written := iter))
  }

  /** Entry j is the first of the old list to match. */
  ghost predicate FirstNote(prev: seq<Note>, j: int, text: string) {
    0 <= j < |prev| && prev[j].text == text && forall k :: 0 <= k < j ==> prev[k].text != text
  }

  ghost predicate FirstTodo(prev: seq<Todo>, j: int, content: string, status: string) {
    && 0 <= j < |prev| && prev[j].content == content && prev[j].status == status
    && forall k :: 0 <= k < j ==> !(prev[k].content == content && prev[k].status == status)
  }

  lemma {:induction false} NoteAgeIsFirst(prev: seq<Note>, text: string)
    ensures NoteAge(prev, text).None? ==> forall k :: 0 <= k < |prev| ==> prev[k].text != text
    ensures NoteAge(prev, text).Some? ==> exists j :: FirstNote(prev, j, text) && NoteAge(prev, text).value == prev[j].written
  {
    if prev != [] {
      NoteAgeIsFirst(prev[1..], text);
      if prev[0].text == text {
        assert FirstNote(prev, 0, text);
      } else if NoteAge(prev, text).Some? {
        var j :| FirstNote(prev[1..], j, text) && NoteAge(prev[1..], text).value == prev[1..][j].written;
        assert FirstNote(prev, j + 1, text);
      }
    }
  }

  lemma {:induction false} TodoAgeIsFirst(prev: seq<Todo>, content: string, status: string)
    ensures TodoAge(prev, content, status).None? ==>
              forall k :: 0 <= k < |prev| ==> !(prev[k].content == content && prev[k].status == status)
    ensures TodoAge(prev, content, status).Some? ==>
              exists j :: FirstTodo(prev, j, content, status) && TodoAge(prev, content, status).value == prev[j].written
  {
    if prev != [] {
      TodoAgeIsFirst(prev[1..], content, status);
      if prev[0].content == content && prev[0].status == status {
        assert FirstTodo(prev, 0, content, status);
      } else if TodoAge(prev, content, status).Some? {
        var j :| FirstTodo(prev[1..], j, content, status) && TodoAge(prev[1..], content, status).value == prev[1..][j].written;
        assert FirstTodo(prev, j + 1, content, status);
      }
    }
  }

  /** A rewritten note keeps the age of the first old note of the same text, and otherwise
      starts at this iteration; nothing else of it changes. */
  lemma NotesKeepTheirAge(prev: seq<Note>, next: seq<Note>, iter: int, i: nat)
    requires i < |next|
    ensures |StampNotes(prev, next, iter)| == |next|
    ensures var n := StampNotes(prev, next, iter)[i];
            && n.text == next[i].text
            && ((forall k :: 0 <= k < |prev| ==> prev[k].text != n.text) ==> n.written == iter)
            && (forall j :: FirstNote(prev, j, n.text) ==> n.written == prev[j].written)
  {
    NoteAgeIsFirst(prev, next[i].text);
  }

  /** A rewritten todo keeps the age of the first old todo of the same content and status;
      one whose status changed starts again. */
  lemma TodosKeepTheirAge(prev: seq<Todo>, next: seq<Todo>, iter: int, i: nat)
    requires i < |next|
    ensures |StampTodos(prev, next, iter)| == |next|
    ensures var d := StampTodos(prev, next, iter)[i];
            && d.content == next[i].content && d.status == next[i].status && d.activeForm == next[i].activeForm
            && ((forall k :: 0 <= k < |prev| && prev[k].content == d.content ==> prev[k].status != d.status) ==> d.written == iter)
            && (forall j :: FirstTodo(prev, j, d.content, d.status) ==> d.written == prev[j].written)
  {
    TodoAgeIsFirst(prev, next[i].content, next[i].status);
  }

  // ---------- batches ----------

  function Continues(turn: string, payloads: seq<Payload>, ids: seq<Id>): seq<Edit>
    requires |payloads| == |ids|
  {
    seq(|payloads|, i requires 0 <= i < |payloads| => Continue(turn, payloads[i], ids[i]))
  }

  /** Ids a session mints: distinct, non-empty and new to the journal. */
  ghost predicate FreshIds(items: seq<Item>, ids: seq<Id>) {
    && (forall i :: 0 <= i < |ids| ==> ids[i] != NO_ID && !Has(items, ids[i]))
    && (forall i, j :: 0 <= i < j < |ids| ==> ids[i] != ids[j])
  }

  /** Payloads a session commits: never a kind this build does not define, and a
      compaction alone, naming a record of the live branch. */
  ghost predicate Committable(items: seq<Item>, payloads: seq<Payload>) {
    forall p :: p in payloads ==>
      && !p.UnknownPayload? && !p.HeadSelected?
      && (p.Compaction? ==> |payloads| == 1 && Boundary(Live(items), p.covered).Some?)
  }

  /** Two states that differ at most in what they say about the last turn. */
  predicate SameButTurn(a: State, b: State) {
    a.(lastTurn := b.lastTurn, open := b.open) == b
  }

  lemma {:induction false} StartedRecordsReadAsNothing(items: seq<Item>, edits: seq<Edit>)
    requires WellFormed(items) && AllAllowed(items, edits)
    requires forall e :: e in edits ==> e.Continue? && e.payload.ToolExecutionStarted?
    ensures Summary(Live(Run(items, edits))) == Summary(Live(items))
    ensures MessageIDs(Live(Run(items, edits))) == MessageIDs(Live(items))
  {
    if edits != [] {
      var before, e := edits[..|edits| - 1], edits[|edits| - 1];
      StartedRecordsReadAsNothing(items, before);
      RunKeepsJournal(items, before);
      EditKeepsJournal(Run(items, before), e);
      SummaryAppend(Live(Run(items, before)), NewRecord(Run(items, before), e));
    }
  }

  function MessageAt(ids: seq<Id>, messages: seq<Message>, id: Id): Option<Message> {
    if ids == [] || messages == [] then None
    else if ids[0] == id then Some(messages[0])
    else MessageAt(ids[1..], messages[1..], id)
  }

  lemma {:induction false} MessageAtIndex(ids: seq<Id>, messages: seq<Message>, i: nat)
    requires |ids| == |messages| && i < |ids|
    requires forall j :: 0 <= j < i ==> ids[j] != ids[i]
    ensures MessageAt(ids, messages, ids[i]) == Some(messages[i])
  {
    if i > 0 {
      MessageAtIndex(ids[1..], messages[1..], i - 1);
    }
  }

  lemma {:induction false} MessageAtAbsent(ids: seq<Id>, messages: seq<Message>, id: Id)
    requires forall j :: 0 <= j < |ids| ==> ids[j] != id
    ensures MessageAt(ids, messages, id) == None
  {
    if ids != [] && messages != [] {
      MessageAtAbsent(ids[1..], messages[1..], id);
    }
  }

  /** How many image parts a message carries. */
  function Images(parts: seq<ContentPart>): nat {
    if parts == [] then 0
    else
      var last := parts[|parts| - 1];
      Images(parts[..|parts| - 1]) + if last.kind == "image" && last.data != "" then 1 else 0
  }

  ghost function ImagesAt(parts: seq<ContentPart>): set<nat> {
    set k: nat | k < |parts| && parts[k].kind == "image" && parts[k].data != ""
  }

  lemma ImagesAtGrows(parts: seq<ContentPart>, part: ContentPart)
    ensures ImagesAt(parts + [part]) ==
            if part.kind == "image" && part.data != "" then ImagesAt(parts) + {|parts|} else ImagesAt(parts)
  {
  }

  lemma {:induction false} ImagesAreCounted(parts: seq<ContentPart>)
    ensures Images(parts) == |ImagesAt(parts)|
  {
    if parts != [] {
      var n := |parts| - 1;
      ImagesAreCounted(parts[..n]);
      assert parts == parts[..n] + [parts[n]];
      ImagesAtGrows(parts[..n], parts[n]);
    }
  }

  method CountImages(m: Message) returns (n: nat)
    ensures n == Images(m.parts)
  {
    n := 0;
    for i := 0 to |m.parts|
      invariant n == Images(m.parts[..i])
    {
      assert m.parts[..i + 1][..i] == m.parts[..i];
      if m.parts[i].kind == "image" && m.parts[i].data != "" {
        n := n + 1;
      }
    }
    assert m.parts[..|m.parts|] == m.parts;
  }

  datatype RewindOutcome = RewindOutcome(abandoned: AbandonedWork, prompt: string, attachments: nat)

  /** What a rewind hands back of the message it removed: its text, and how many of its
      images did not come with it. */
  function HandedBack(m: Option<Message>): (string, nat) {
    match m
    case Some(message) => (message.content, Images(message.parts))
    case None => ("", 0)
  }

  const USER_REWIND := "user_rewind"

  /** The batch built from the first i payloads. */
  ghost predicate BatchSoFar(items: seq<Item>, edits: seq<Edit>, batch: seq<Item>) {
    && |batch| <= |edits|
    && items + batch == Run(items, edits[..|batch|])
    && AllAllowed(items, edits[..|batch|])
    && WellFormed(items + batch)
    && LastSeq(items + batch) == LastSeq(items) + |batch|
    && ContinuesFrom(items, HeadOf(items), LastSeq(items), batch)
    && forall k :: 0 <= k < |batch| ==> batch[k].id == edits[k].id
  }

  ghost predicate Committed(items: seq<Item>, edits: seq<Edit>) {
    && (forall k :: 0 <= k < |edits| ==> edits[k].Continue? && edits[k].id != NO_ID && !Has(items, edits[k].id))
    && (forall j, k :: 0 <= j < k < |edits| ==> edits[j].id != edits[k].id)
    && (forall k :: 0 <= k < |edits| && edits[k].Continue? ==>
          && !edits[k].payload.UnknownPayload?
          && (edits[k].payload.Compaction? ==> |edits| == 1 && Boundary(Live(items), edits[k].payload.covered).Some?))
  }

  lemma GrowBatch(items: seq<Item>, edits: seq<Edit>, batch: seq<Item>)
    requires Committed(items, edits) && BatchSoFar(items, edits, batch) && |batch| < |edits|
    ensures BatchSoFar(items, edits, batch + [NewRecord(items + batch, edits[|batch|])])
    ensures HeadOf(items + (batch + [NewRecord(items + batch, edits[|batch|])])) == edits[|batch|].id
  {
    hide AllAllowed, Run, WellFormed, Boundary, Live;
    var i, it := |batch|, NewRecord(items + batch, edits[|batch|]);
    NextAllowed(items, edits, batch);
    assert edits[..i + 1][..i] == edits[..i];
    EditKeepsJournal(items + batch, edits[i]);
    ExtendBatch(items, HeadOf(items), LastSeq(items), batch, it);
    RunOneMore(items, edits, i);
  }

  lemma RunOneMore(items: seq<Item>, edits: seq<Edit>, i: nat)
    requires i < |edits|
    ensures Run(items, edits[..i + 1]) == Perform(Run(items, edits[..i]), edits[i])
    ensures AllAllowed(items, edits[..i + 1]) <==>
            AllAllowed(items, edits[..i]) && Allowed(Run(items, edits[..i]), edits[i])
  {
    assert edits[..i + 1][..i] == edits[..i];
  }

  lemma NextAllowed(items: seq<Item>, edits: seq<Edit>, batch: seq<Item>)
    requires Committed(items, edits) && BatchSoFar(items, edits, batch) && |batch| < |edits|
    ensures Allowed(items + batch, edits[|batch|])
  {
    hide AllAllowed, Run, WellFormed, Boundary, Live, ContinuesFrom, LastSeq;
    var id := edits[|batch|].id;
    HasAppend(items, batch, id);
    FindIsMembership(batch, id);
    if batch == [] {
      assert items + batch == items;
    }
  }

  /** The records one commit writes, chained from the head under fresh ids. */
  method BuildBatch(items: seq<Item>, head: Id, lastSeq: nat, turnID: string, payloads: seq<Payload>, ids: seq<Id>)
      returns (batch: seq<Item>, parent: Id, seqNo: nat)
    requires |payloads| == |ids| && FreshIds(items, ids) && Committable(items, payloads)
    requires WellFormed(items) && head == HeadOf(items) && lastSeq == LastSeq(items)
    ensures items + batch == Run(items, Continues(turnID, payloads, ids))
    ensures AllAllowed(items, Continues(turnID, payloads, ids)) && WellFormed(items + batch)
    ensures |batch| == |payloads| && ContinuesFrom(items, head, lastSeq, batch)
    ensures parent == HeadOf(items + batch) && seqNo == LastSeq(items + batch) == lastSeq + |batch|
  {
    hide WellFormed, AllAllowed, Live, Boundary, Run, Has, ContinuesFrom;
    batch, parent, seqNo := [], head, lastSeq;
    ghost var edits := Continues(turnID, payloads, ids);
    NothingYet(items, edits);
    var i := 0;
    while i < |payloads|
      invariant |batch| == i <= |payloads|
      invariant BatchSoFar(items, edits, batch)
      invariant parent == HeadOf(items + batch) && seqNo == lastSeq + i
    {
      seqNo := seqNo + 1;
      var it := NewItem(seqNo, ids[i], parent, turnID, payloads[i]);
      GrowBatch(items, edits, batch);
      batch, parent := batch + [it], ids[i];
      i := i + 1;
    }
    assert edits[..i] == edits;
  }

  lemma NothingYet(items: seq<Item>, edits: seq<Edit>)
    requires WellFormed(items)
    ensures items + [] == items && BatchSoFar(items, edits, [])
  {
  }

  lemma ExtendBatch(items: seq<Item>, head: Id, lastSeq: nat, batch: seq<Item>, it: Item)
    requires head == HeadOf(items) && ContinuesFrom(items, head, lastSeq, batch)
    requires it.seqNo == lastSeq + |batch| + 1 && it.parent == HeadOf(items + batch)
    ensures ContinuesFrom(items, head, lastSeq, batch + [it])
    ensures items + (batch + [it]) == (items + batch) + [it]
  {
    assert items + [] == items;
    forall k | 0 <= k < |batch| + 1 ensures Linked(items, head, lastSeq, batch + [it], k) {
      if k < |batch| {
        assert Linked(items, head, lastSeq, batch, k);
      }
    }
  }

  // ---------- the read model ----------

  /** What a session reads from: the state and the ids of its messages. */
  datatype View = View(state: State, ids: seq<Id>)

  function Replayed(b: seq<Item>): View {
    View(Summary(b), MessageIDs(b))
  }

  /** Where a message stands in the list, counted from one; zero if it is not there. */
  function PlaceOf(ids: seq<Id>, id: Id): (n: nat)
    ensures n <= |ids| && (id in ids <==> n > 0) && (n > 0 ==> ids[n - 1] == id)
  {
    if ids == [] then 0
    else if PlaceOf(ids[..|ids| - 1], id) > 0 then PlaceOf(ids[..|ids| - 1], id)
    else if ids[|ids| - 1] == id then |ids|
    else 0
  }

  /** What a session's own methods do to its read model on one edit: a commit applies
      the record, unless it opens or closes a turn; a compaction sets the boundary by
      the session's own list of messages; a rewind replays what it keeps, and leaves
      the read model alone when that answers some call twice. */
  function ViewAfter(v: View, b: seq<Item>, e: Edit): View {
    match e
    case Continue(_, p, id) =>
      if p.TurnStarted? || p.TurnFinished? then v
      else if p.Compaction? then v.(state := v.state.(compactionIdx := PlaceOf(v.ids, p.covered), compactionSummary := p.summary))
      else View(ApplyItem(v.state, b, p), if p.IsMessage() then v.ids + [id] else v.ids)
    case Redirect(landing, _, _, _) => if AnsweredOnce(UpTo(b, landing)) then Replayed(UpTo(b, landing)) else v
  }

  lemma RunNothing(items: seq<Item>, edits: seq<Edit>)
    requires edits == []
    ensures Run(items, edits) == items
  {
  }

  method StartsOf(calls: seq<ToolCall>) returns (payloads: seq<Payload>)
    ensures payloads == StartedPayloads(calls)
  {
    payloads := [];
    for i := 0 to |calls|
      invariant payloads == StartedPayloads(calls)[..i]
    {
      payloads := payloads + [Payload.ToolExecutionStarted(calls[i].id, calls[i].name)];
    }
  }

  class SessionContext {
    var writer: FileWriter?
    var state: State
    var items: seq<Item>
    var messageIDs: seq<Id>
    var head: Id
    var lastSeq: nat
    var turnID: string

    function Reads(): View
      reads this
    {
      View(state, messageIDs)
    }

    /** The journal side: the context and its writer agree on a well-formed journal. */
    ghost predicate Journaled()
      reads this, writer
    {
      writer != null ==>
        && WellFormed(items) && head == HeadOf(items) && lastSeq == LastSeq(items)
        && writer.items == items && writer.lastID == head && writer.lastSeq == lastSeq
    }

    /** The read model is what the live branch summarises to, up to the turn markers. */
    ghost predicate Valid()
      reads this, writer
    {
      && Journaled()
      && |messageIDs| == |state.messages|
      && state.compactionIdx <= |messageIDs|
      && (writer != null ==> messageIDs == MessageIDs(Live(items)) && SameButTurn(state, Summary(Live(items))))
    }

    /** What every commit keeps, and a rewind that failed still leaves: the journal side,
        and one id per message. */
    ghost predicate Paired()
      reads this, writer
    {
      Journaled() && |messageIDs| == |state.messages|
    }

    /** The read model equals a fresh replay in every field. */
    ghost predicate InStep()
      reads this
    {
      Reduce(items, head) == Ok(state)
    }

    constructor Unpersisted()
      ensures Valid() && writer == null && items == [] && state == EMPTY_STATE && turnID == ""
    {
      writer, state, items, messageIDs, head, lastSeq, turnID := null, EMPTY_STATE, [], [], NO_ID, 0, "";
    }

    /** Opening: the store has replayed the journal, and the context adopts the result. */
    constructor FromWriter(w: FileWriter, loaded: State)
      requires WellFormed(w.items) && w.lastID == HeadOf(w.items) && w.lastSeq == LastSeq(w.items)
      requires Reduce(w.items, HeadOf(w.items)) == Ok(loaded)
      ensures Valid() && InStep() && writer == w && items == w.items && turnID == ""
    {
      writer, state, items, head, turnID := w, loaded, w.items, HeadOf(w.items), "";
      lastSeq, messageIDs := 0, [];
      new;
      var i := 0;
      while i < |items|
        invariant 0 <= i <= |items|
        invariant lastSeq == LastSeq(items[..i])
        invariant writer == w && state == loaded && items == w.items && head == HeadOf(items) && turnID == ""
        invariant w.items == old(w.items) && w.lastID == old(w.lastID) && w.lastSeq == old(w.lastSeq)
      {
        lastSeq := items[i].seqNo;
        i := i + 1;
      }
      assert items[..i] == items;
      messageIDs := MessageIDsOnBranch(items, head);
      LiveReplay(items);
      SummaryAligned(Live(items));
    }

    // ---------- commit plumbing ----------

    method CommitAll(payloads: seq<Payload>, ids: seq<Id>, diskOk: bool) returns (r: Result<seq<Id>, Error>)
      requires Journaled() && |payloads| == |ids| && FreshIds(items, ids)
      requires writer != null ==> Committable(items, payloads)
      modifies this, writer
      ensures Journaled() && writer == old(writer)
      ensures state == old(state) && messageIDs == old(messageIDs) && turnID == old(turnID)
      ensures payloads == [] || writer == null ==> r == Ok([]) && items == old(items) && (old(Valid()) ==> Valid())
      ensures payloads != [] && writer != null ==>
                && (r.Ok? <==> diskOk)
                && AllAllowed(old(items), Continues(turnID, payloads, ids))
                && (r.Ok? ==> r.value == ids && items == Run(old(items), Continues(turnID, payloads, ids)))
                && (r.Err? ==> r.error == WriteFailed && items == old(items) && (old(Valid()) ==> Valid()))
    {
      hide WellFormed, AllAllowed, Run, Live, Boundary, Summary, MessageIDs, FreshIds, Committable, Continues;
      if payloads == [] || writer == null {
        return Ok([]);
      }
      var batch, parent, seqNo := BuildBatch(items, head, lastSeq, turnID, payloads, ids);
      var ok := writer.Append(batch, diskOk);
      if !ok {
        return Err(WriteFailed);
      }
      items := items + batch;
      head, lastSeq := parent, seqNo;
      return Ok(ids);
    }

    /** Appends one head selection chained to an explicit parent. The writer refuses a
        parent the journal does not hold; without a writer nothing is recorded. */
    method CommitTo(parent: Id, reason: string, id: Id, diskOk: bool) returns (ok: bool)
      requires Journaled() && FreshIds(items, [id])
      modifies this, writer
      ensures ok <==> writer == null || (diskOk && (parent == old(head) || Has(old(items), parent)))
      ensures Journaled() && writer == old(writer)
      ensures state == old(state) && messageIDs == old(messageIDs) && turnID == old(turnID)
      ensures ok && writer != null ==> items == Perform(old(items), Redirect(parent, turnID, reason, id)) && head == id
      ensures !ok || writer == null ==> items == old(items) && head == old(head) && (old(Valid()) ==> Valid())
    {
      hide WellFormed, Live, Summary, MessageIDs, SameButTurn;
      if writer == null {
        return true;
      }
      assert [id][0] == id;
      var e := Redirect(parent, turnID, reason, id);
      if parent == head || Has(items, parent) {
        RedirectKeepsJournal(items, e);
      }
      var it := NewItem(lastSeq + 1, id, parent, turnID, HeadSelected(reason));
      assert Linked(items, head, lastSeq, [it], 0) <==> parent == head || Has(items, parent);
      ok := writer.Append([it], diskOk);
      if ok {
        items := items + [it];
        head, lastSeq := id, lastSeq + 1;
      }
    }

    // ---------- messages ----------

    method Append(m: Message, id: Id, diskOk: bool) returns (ok: bool)
      requires Paired() && FreshIds(items, [id])
      modifies this, writer
      ensures Paired() && (old(Valid()) ==> Valid()) && writer == old(writer)
      ensures ok <==> writer == null || diskOk
      ensures ok ==> state == old(state).(messages := old(state).messages + [m])
                     && messageIDs == old(messageIDs) + [id]
      ensures !ok ==> state == old(state) && messageIDs == old(messageIDs)
      ensures items == if ok && writer != null
                       then Perform(old(items), Continue(old(turnID), MessageItem(m), id)) else old(items)
      ensures ok && writer != null ==> Reads() == ViewAfter(old(Reads()), old(Live(items)), Continue(old(turnID), MessageItem(m), id))
    {
      hide WellFormed, Live, MessageIDs, Summary, Run, AllAllowed, Continues, Boundary;
      var p := MessageItem(m);
      OneEdit(items, turnID, p, id);
      var r := CommitAll([p], [id], diskOk);
      if r.Err? {
        return false;
      }
      state := state.(messages := state.messages + [m]);
      messageIDs := messageIDs + [id];
      return true;
    }

    /** One record per call, in one batch, before any of them enters its tool. */
    method ToolExecutionStarted(calls: seq<ToolCall>, ids: seq<Id>, diskOk: bool) returns (ok: bool)
      requires Paired() && |ids| == |calls| && FreshIds(items, ids)
      modifies this, writer
      ensures Paired() && (old(Valid()) ==> Valid()) && writer == old(writer)
      ensures state == old(state) && messageIDs == old(messageIDs)
      ensures ok <==> writer == null || calls == [] || diskOk
      ensures items == if ok && writer != null
                       then Run(old(items), Continues(old(turnID), StartedPayloads(calls), ids)) else old(items)
    {
      hide WellFormed, Live, Summary, MessageIDs, Run, AllAllowed, Boundary, SameButTurn;
      var payloads := StartsOf(calls);
      if calls == [] {
        RunNothing(items, Continues(turnID, payloads, ids));
      }
      ghost var before, edits := items, Continues(turnID, payloads, ids);
      var r := CommitAll(payloads, ids, diskOk);
      if r.Ok? && writer != null && payloads != [] {
        StartedRecordsReadAsNothing(before, edits);
      }
      return r.Ok?;
    }

    /** Commits one call's outcome. The commit is taken whether or not the call was
        already answered; the replay afterwards accepts the branch exactly when it
        was accepted before and this call had no result on it. */
    method AppendToolResult(call: Id, status: string, content: string, parts: seq<ContentPart>, id: Id, diskOk: bool)
        returns (ok: bool)
      requires Paired() && FreshIds(items, [id])
      modifies this, writer
      ensures Paired() && (old(Valid()) ==> Valid()) && writer == old(writer)
      ensures ok <==> writer == null || diskOk
      ensures ok ==>
                && state == old(state).(messages := old(state).messages + [Message("tool", content, "", call, [], parts)])
                && messageIDs == old(messageIDs) + [id]
      ensures !ok ==> state == old(state) && messageIDs == old(messageIDs)
      ensures items == if ok && writer != null
                       then Perform(old(items), Continue(old(turnID), ToolResult(call, status, content, parts), id))
                       else old(items)
      ensures ok && writer != null && old(Reduce(items, head)).Ok? ==>
                (Reduce(items, head).Ok? <==> !Answered(old(Live(items)), call))
      ensures ok && writer != null ==> Reads() == ViewAfter(old(Reads()), old(Live(items)), Continue(old(turnID), ToolResult(call, status, content, parts), id))
    {
      hide WellFormed, Live, MessageIDs, Summary, AnsweredOnce, Answered, Run, AllAllowed, Continues, Reduce, Boundary;
      var p := ToolResult(call, status, content, parts);
      OneEdit(items, turnID, p, id);
      if writer != null {
        EditReplays(items, turnID, p, id);
      }
      var r := CommitAll([p], [id], diskOk);
      if r.Err? {
        return false;
      }
      state := state.(messages := state.messages + [Projection(p)]);
      messageIDs := messageIDs + [id];
      return true;
    }

    // ---------- compaction ----------

    /** The first idx messages end with one of the live branch. */
    ghost predicate CoversLive(idx: nat)
      requires idx <= |messageIDs|
      reads this
    {
      writer != null && idx > 0 ==> Boundary(Live(items), messageIDs[idx - 1]).Some?
    }

    /** Advances the boundary by a count of messages, recorded as the id of the last
        message covered. A count reaching below zero would index out of range. After a
        rewind that failed, the message covered must still be on the branch. */
    method AddCompaction(summary: string, summarizedCount: int, id: Id, diskOk: bool) returns (error: Option<Error>)
      requires Paired() && FreshIds(items, [id])
      requires state.compactionIdx + summarizedCount >= 0
      requires Valid() || CoversLive(Min(state.compactionIdx + summarizedCount, |messageIDs|))
      modifies this, writer
      ensures Paired() && (old(Valid()) ==> Valid()) && writer == old(writer) && messageIDs == old(messageIDs)
      ensures var idx := Min(old(state).compactionIdx + summarizedCount, |old(messageIDs)|);
              && (error == Some(NothingCovered) <==> idx == 0)
              && (error == Some(WriteFailed) <==> idx > 0 && writer != null && !diskOk)
              && (error.None? ==> idx > 0)
              && (error.None? ==> state == old(state).(compactionIdx := idx, compactionSummary := summary))
              && (error.None? ==> items == if writer == null || idx <= 0 then old(items) else
                    Perform(old(items), Continue(old(turnID), Compaction(messageIDs[idx - 1], summary), id)))
      ensures error.Some? ==> state == old(state) && items == old(items)
      ensures error.None? && writer != null
              && (old(Valid()) || PlaceOf(messageIDs, messageIDs[state.compactionIdx - 1]) == state.compactionIdx) ==>
                Reads() == ViewAfter(old(Reads()), old(Live(items)),
                                     Continue(old(turnID), Compaction(messageIDs[state.compactionIdx - 1], summary), id))
    {
      hide WellFormed, Live, Summary, MessageIDs, Run, AllAllowed, Perform, Boundary, PlaceOf, AnsweredOnce, Answered, ApplyItem, SameButTurn, FreshIds;
      var idx := state.compactionIdx + summarizedCount;
      if idx > |messageIDs| {
        idx := |messageIDs|;
      }
      if idx == 0 {
        return Some(NothingCovered);
      }
      error := CommitCompaction(idx, summary, id, diskOk);
    }

    /** Covers the first idx messages. */
    method CommitCompaction(idx: nat, summary: string, id: Id, diskOk: bool) returns (error: Option<Error>)
      requires Paired() && FreshIds(items, [id]) && 0 < idx <= |messageIDs| && (Valid() || CoversLive(idx))
      modifies this, writer
      ensures Paired() && (old(Valid()) ==> Valid()) && writer == old(writer) && messageIDs == old(messageIDs)
      ensures error == if writer == null || diskOk then None else Some(WriteFailed)
      ensures state == if error.None? then old(state).(compactionIdx := idx, compactionSummary := summary) else old(state)
      ensures items == if error.None? && writer != null
                       then Perform(old(items), Continue(old(turnID), Compaction(messageIDs[idx - 1], summary), id)) else old(items)
      ensures old(Valid()) && writer != null ==> PlaceOf(messageIDs, messageIDs[idx - 1]) == idx
    {
      hide WellFormed, Live, Summary, MessageIDs, Run, AllAllowed, Continues, Perform, Boundary, PlaceOf, AnsweredOnce, Answered, ApplyItem, SameButTurn, ViewAfter;
      var p := Compaction(messageIDs[idx - 1], summary);
      if writer != null {
        OneEdit(items, turnID, p, id);
        if Valid() {
          CompactionReads(items, state, turnID, idx, summary, id);
        }
      }
      var r := CommitAll([p], [id], diskOk);
      if r.Err? {
        return Some(r.error);
      }
      state := state.(compactionIdx := idx, compactionSummary := summary);
      return None;
    }

    // ---------- durable state ----------

    method SetAdditionalPrompt(text: string, id: Id, diskOk: bool) returns (ok: bool)
      requires Paired() && FreshIds(items, [id])
      modifies this, writer
      ensures Paired() && (old(Valid()) ==> Valid()) && writer == old(writer) && messageIDs == old(messageIDs)
      ensures ok <==> writer == null || diskOk || old(state).additionalPrompt == text
      ensures state == if ok then old(state).(additionalPrompt := text) else old(state)
      ensures items == if ok && writer != null && old(state).additionalPrompt != text
                       then Perform(old(items), Continue(old(turnID), AdditionalPromptSet(text), id)) else old(items)
      ensures ok && writer != null && old(state).additionalPrompt != text ==>
                Reads() == ViewAfter(old(Reads()), old(Live(items)), Continue(old(turnID), AdditionalPromptSet(text), id))
    {
      hide WellFormed, Live, MessageIDs, Summary, Run, AllAllowed, Continues, Boundary;
      if state.additionalPrompt == text {
        return true;
      }
      OneEdit(items, turnID, AdditionalPromptSet(text), id);
      var r := CommitAll([AdditionalPromptSet(text)], [id], diskOk);
      if r.Ok? {
        state := state.(additionalPrompt := text);
      }
      return r.Ok?;
    }

    method SetNotes(notes: seq<Note>, iter: int, id: Id, diskOk: bool) returns (ok: bool)
      requires Paired() && FreshIds(items, [id])
      modifies this, writer
      ensures Paired() && (old(Valid()) ==> Valid()) && writer == old(writer) && messageIDs == old(messageIDs)
      ensures ok <==> writer == null || diskOk
      ensures state == if ok then old(state).(notes := StampNotes(old(state).notes, notes, iter)) else old(state)
      ensures items == if ok && writer != null
                       then Perform(old(items), Continue(old(turnID), NotesReplaced(state.notes), id)) else old(items)
      ensures ok && writer != null ==> Reads() == ViewAfter(old(Reads()), old(Live(items)), Continue(old(turnID), NotesReplaced(state.notes), id))
    {
      hide WellFormed, Live, MessageIDs, Summary, Run, AllAllowed, Continues, Boundary;
      var stamped := StampNotes(state.notes, notes, iter);
      OneEdit(items, turnID, NotesReplaced(stamped), id);
      var r := CommitAll([NotesReplaced(stamped)], [id], diskOk);
      if r.Ok? {
        state := state.(notes := stamped);
      }
      return r.Ok?;
    }

    method SetTodos(todos: seq<Todo>, iter: int, id: Id, diskOk: bool) returns (ok: bool)
      requires Paired() && FreshIds(items, [id])
      modifies this, writer
      ensures Paired() && (old(Valid()) ==> Valid()) && writer == old(writer) && messageIDs == old(messageIDs)
      ensures ok <==> writer == null || diskOk
      ensures state == if ok then old(state).(todos := StampTodos(old(state).todos, todos, iter)) else old(state)
      ensures items == if ok && writer != null
                       then Perform(old(items), Continue(old(turnID), TodosReplaced(state.todos), id)) else old(items)
      ensures ok && writer != null ==> Reads() == ViewAfter(old(Reads()), old(Live(items)), Continue(old(turnID), TodosReplaced(state.todos), id))
    {
      hide WellFormed, Live, MessageIDs, Summary, Run, AllAllowed, Continues, Boundary;
      var stamped := StampTodos(state.todos, todos, iter);
      OneEdit(items, turnID, TodosReplaced(stamped), id);
      var r := CommitAll([TodosReplaced(stamped)], [id], diskOk);
      if r.Ok? {
        state := state.(todos := stamped);
      }
      return r.Ok?;
    }

    // ---------- turns ----------

    /** Opens a turn. The record reaches the journal and the read model's turn markers
        do not move, so the read model equals the replay afterwards exactly when its
        markers already named this run as open. */
    method BeginTurn(runID: string, id: Id, diskOk: bool) returns (ok: bool)
      requires Paired() && FreshIds(items, [id])
      modifies this, writer
      ensures Paired() && (old(Valid()) ==> Valid()) && writer == old(writer) && state == old(state) && messageIDs == old(messageIDs)
      ensures turnID == runID
      ensures ok <==> writer == null || diskOk
      ensures items == if ok && writer != null
                       then Perform(old(items), Continue(runID, TurnStarted(runID), id)) else old(items)
      ensures ok && writer != null && old(Valid()) && old(Reduce(items, head)).Ok? ==>
                (InStep() <==> state.open && state.lastTurn == runID)
      ensures Reads() == ViewAfter(old(Reads()), old(Live(items)), Continue(runID, TurnStarted(runID), id))
    {
      hide WellFormed, Live, MessageIDs, Summary, AnsweredOnce, Answered, Run, AllAllowed, Continues, Reduce, Boundary, ApplyItem;
      MarkersOnly(state, Live(items), runID, "", "");
      MarkersOnly(Summary(Live(items)), Live(items), runID, "", "");
      turnID := runID;
      OneEdit(items, turnID, TurnStarted(runID), id);
      if writer != null {
        EditReplays(items, turnID, TurnStarted(runID), id);
      }
      var r := CommitAll([TurnStarted(runID)], [id], diskOk);
      return r.Ok?;
    }

    /** Closes a turn, if one is open. The markers stay put here too, so the read model
        equals the replay afterwards exactly when it already showed the replay's last
        turn, closed. */
    method FinishTurn(status: string, errorClass: string, id: Id, diskOk: bool) returns (ok: bool)
      requires Paired() && FreshIds(items, [id])
      modifies this, writer
      ensures Paired() && (old(Valid()) ==> Valid()) && writer == old(writer) && state == old(state) && messageIDs == old(messageIDs)
      ensures turnID == ""
      ensures ok <==> writer == null || diskOk || old(turnID) == ""
      ensures items == if ok && writer != null && old(turnID) != ""
                       then Perform(old(items), Continue(old(turnID), TurnFinished(status, errorClass), id)) else old(items)
      ensures ok && writer != null && old(turnID) != "" && old(Valid()) && old(Reduce(items, head)).Ok? ==>
                (InStep() <==> !state.open && state.lastTurn == old(Reduce(items, head)).value.lastTurn)
      ensures Reads() == ViewAfter(old(Reads()), old(Live(items)), Continue(old(turnID), TurnFinished(status, errorClass), id))
    {
      hide WellFormed, Live, MessageIDs, Summary, AnsweredOnce, Answered, Run, AllAllowed, Continues, Reduce, Boundary, ApplyItem, ViewAfter;
      TurnsAreNotRead(Reads(), Live(items), turnID, TurnFinished(status, errorClass), id);
      if turnID == "" {
        return true;
      }
      MarkersOnly(state, Live(items), turnID, status, errorClass);
      MarkersOnly(Summary(Live(items)), Live(items), turnID, status, errorClass);
      var p := TurnFinished(status, errorClass);
      OneEdit(items, turnID, p, id);
      if writer != null {
        EditReplays(items, turnID, p, id);
      }
      var r := CommitAll([p], [id], diskOk);
      turnID := "";
      return r.Ok?;
    }

    // ---------- rewind ----------

    method FindMessage(itemID: Id) returns (m: Option<Message>)
      requires Paired()
      ensures m == MessageAt(messageIDs, state.messages, itemID)
    {
      var i := 0;
      while i < |messageIDs|
        invariant 0 <= i <= |messageIDs|
        invariant MessageAt(messageIDs, state.messages, itemID) ==
                  MessageAt(messageIDs[i..], state.messages[i..], itemID)
      {
        if messageIDs[i] == itemID && i < |state.messages| {
          return Some(state.messages[i]);
        }
        i := i + 1;
      }
      return None;
    }

    /** Rebuilds the read model from the branch the head now names. */
    method ReduceFromHead() returns (ok: bool)
      requires Journaled() && writer != null
      modifies this`state, this`messageIDs
      ensures ok <==> AnsweredOnce(Live(items))
      ensures ok ==> Valid() && InStep() && state == Summary(Live(items))
      ensures !ok ==> state == old(state) && messageIDs == old(messageIDs)
    {
      LiveReplay(items);
      SummaryAligned(Live(items));
      var r := ReduceLoop(items, head);
      if r.Err? {
        return false;
      }
      var ids := MessageIDsOnBranch(items, head);
      state, messageIDs := r.value, ids;
      return true;
    }

    /** Takes a record and everything after it off the branch. Refusals change
        nothing; a rewind that commits leaves the journal longer, keeps exactly the
        messages before the one it removes, and hands that one's text back — unless the
        part it keeps answers some call twice: then it fails with the head already moved
        and the read model still the old one. */
    method Rewind(messageID: Id, id: Id, diskOk: bool) returns (r: Result<RewindOutcome, Error>)
      requires Paired() && FreshIds(items, [id])
      modifies this, writer
      ensures Paired() && writer == old(writer) && turnID == old(turnID)
      ensures writer == null ==> r == Err(NotPersisted)
      ensures var landing := LandingOn(old(Live(items)), messageID);
              if writer == null || landing.Err? || !diskOk then
                && r.Err? && items == old(items) && head == old(head)
                && state == old(state) && messageIDs == old(messageIDs) && (old(Valid()) ==> Valid())
                && (writer != null ==> r.error == if landing.Err? then landing.error else WriteFailed)
              else
                && items == Perform(old(items), Redirect(landing.value, turnID, USER_REWIND, id)) && head == id
                && Journaled()
                && Reads() == ViewAfter(old(Reads()), old(Live(items)), Redirect(landing.value, turnID, USER_REWIND, id))
                && (if AnsweredOnce(UpTo(old(Live(items)), landing.value)) then
                      && r.Ok? && Valid() && InStep()
                      && IsReport(old(Live(items)), old(state), old(messageIDs), messageID, landing.value, r.value)
                      && (old(Valid()) ==>
                            IsRewound(old(Live(items)), old(state), old(messageIDs), messageID, landing.value, state, messageIDs, r.value))
                    else
                      r == Err(HistoryCorrupt) && state == old(state) && messageIDs == old(messageIDs))
    {
      hide WellFormed, Live, Summary, MessageIDs, AnsweredOnce, UpTo, LandingOn, AbandonedOn, MessageAt, Perform, DistinctIds, LooksBack, SameButTurn, Images, Reduce, IsRewound, HandedBack, FreshIds;
      assert id != NO_ID && !Has(items, id) && FreshIds(items, [id]) by { NewId(items, id); }
      if writer == null {
        return Err(NotPersisted);
      }
      LiveBranch(items);
      var landing := RewindLandingLoop(items, head, messageID);
      if landing.Err? {
        return Err(landing.error);
      }
      ghost var b := Live(items);
      RewindReportExists(b, messageID);
      var abandoned := AbandonedLoop(items, head, landing.value);
      assert abandoned.Ok?;
      var found := FindMessage(messageID);
      var prompt, attachments := "", 0;
      if found.Some? {
        prompt := found.value.content;
        attachments := CountImages(found.value);
      }
      ghost var st, ids, wasValid := state, messageIDs, Valid();
      assert (prompt, attachments) == HandedBack(found) by { Back(found); }
      ghost var e := Redirect(landing.value, turnID, USER_REWIND, id);
      RedirectReads(items, e);
      LiveIsHeld(items, landing.value);
      var ok := CommitTo(landing.value, USER_REWIND, id, diskOk);
      if !ok {
        return Err(WriteFailed);
      }
      var rebuilt := ReduceFromHead();
      if !rebuilt {
        return Err(HistoryCorrupt);
      }
      if wasValid {
        RewindReadsAll(b, st, ids, messageID, landing.value, RewindOutcome(abandoned.value, prompt, attachments));
      }
      return Ok(RewindOutcome(abandoned.value, prompt, attachments));
    }

    // ---------- adopting a fork ----------

    /** Writes a forked prefix into a freshly created session. The writer refuses a prefix
        that does not start a journal of its own. */
    method AdoptPrefix(prefix: seq<Item>, diskOk: bool) returns (error: Option<Error>)
      requires Valid() && prefix != [] && WellFormed(prefix)
      modifies this, writer
      ensures writer == old(writer)
      ensures error == Some(NotPersisted) <==> writer == null
      ensures error == Some(AlreadyHolds) <==> writer != null && old(items) != []
      ensures error == Some(WriteFailed) <==>
                writer != null && old(items) == [] && !(diskOk && ContinuesFrom([], NO_ID, 0, prefix))
      ensures error.None? <==>
                writer != null && old(items) == [] && diskOk && ContinuesFrom([], NO_ID, 0, prefix) && AnsweredOnce(Live(prefix))
      ensures error == Some(HistoryCorrupt) <==>
                writer != null && old(items) == [] && diskOk && ContinuesFrom([], NO_ID, 0, prefix) && !AnsweredOnce(Live(prefix))
      ensures error.None? ==> Valid() && InStep() && items == prefix && state == Summary(Live(prefix))
    {
      if writer == null {
        return Some(NotPersisted);
      }
      if items != [] {
        return Some(AlreadyHolds);
      }
      hide WellFormed, Live, Summary, MessageIDs, AnsweredOnce, ContinuesFrom, Reduce, HeadOf, LastSeq, SameButTurn;
      NothingHeld();
      var ok := writer.Append(prefix, diskOk);
      if !ok {
        return Some(WriteFailed);
      }
      SeqAtEnd(prefix);
      assert [] + prefix == prefix;
      error := TakeOver(prefix);
    }

    /** The adopted records become the context's own, and its read model theirs. */
    method TakeOver(prefix: seq<Item>) returns (error: Option<Error>)
      requires prefix != [] && WellFormed(prefix) && writer != null && items == []
      requires writer.items == prefix && writer.lastID == HeadOf(prefix) && writer.lastSeq == LastSeq(prefix)
      modifies this`items, this`head, this`lastSeq, this`state, this`messageIDs
      ensures error == if AnsweredOnce(Live(prefix)) then None else Some(HistoryCorrupt)
      ensures error.None? ==> Valid() && InStep() && items == prefix && state == Summary(Live(prefix))
    {
      hide WellFormed, Live, Summary, MessageIDs, AnsweredOnce, Reduce, SameButTurn;
      assert items + prefix == prefix;
      items := items + prefix;
      head, lastSeq := prefix[|prefix| - 1].id, prefix[|prefix| - 1].seqNo;
      var rebuilt := ReduceFromHead();
      return if rebuilt then None else Some(HistoryCorrupt);
    }

    /** Releases the writer. Later commits reach no journal. */
    method Close()
      requires Paired()
      modifies this`writer
      ensures Paired() && (old(Valid()) ==> Valid()) && writer == null
    {
      writer := null;
    }
  }

  function Min(a: int, b: int): int {
    if a < b then a else b
  }

  function StartedPayloads(calls: seq<ToolCall>): seq<Payload> {
    seq(|calls|, i requires 0 <= i < |calls| => Payload.ToolExecutionStarted(calls[i].id, calls[i].name))
  }

  // ---------- what the methods above lean on ----------

  lemma LiveBranch(items: seq<Item>)
    requires WellFormed(items)
    ensures Branch(items, HeadOf(items)) == Ok(Live(items)) && DistinctIds(Live(items)) && LooksBack(Live(items))
  {
    WellFormedIsValid(items);
    BranchIsChain(items, HeadOf(items));
    HeadIsHeld(items);
    ChainDistinct(items, HeadOf(items));
    ChainLooksBack(items, HeadOf(items));
  }

  /** A fresh open of a journal this code wrote gives the live branch's summary, and
      is refused exactly when some call on that branch was answered twice. */
  lemma LiveReplay(items: seq<Item>)
    requires WellFormed(items)
    ensures Branch(items, HeadOf(items)) == Ok(Live(items))
    ensures Reduce(items, HeadOf(items)) ==
            if AnsweredOnce(Live(items)) then Ok(Summary(Live(items))) else Err(HistoryCorrupt)
  {
    LiveBranch(items);
    ReplayIsSummary(Live(items));
  }

  lemma LiveIsHeld(items: seq<Item>, id: Id)
    requires Has(Live(items), id)
    ensures Has(items, id)
  {
    var k := HasAt(Live(items), id);
    ChainWithin(items, HeadOf(items), k);
  }

  lemma LiveNamesItsMessages(items: seq<Item>, idx: nat)
    requires WellFormed(items) && 0 < idx <= |MessageIDs(Live(items))|
    ensures Boundary(Live(items), MessageIDs(Live(items))[idx - 1]) == Some(idx)
  {
    LiveBranch(items);
    WellFormedIsValid(items);
    NoEmptyId(items);
    forall k | 0 <= k < |Live(items)| ensures Live(items)[k].id != NO_ID {
      ChainWithin(items, HeadOf(items), k);
    }
    BoundaryOfMessage(Live(items), idx);
  }

  lemma PlaceIsBoundary(items: seq<Item>, covered: Id)
    requires WellFormed(items) && covered in MessageIDs(Live(items))
    ensures Boundary(Live(items), covered) == Some(PlaceOf(MessageIDs(Live(items)), covered))
  {
    hide WellFormed, Live, MessageIDs, Boundary;
    LiveNamesItsMessages(items, PlaceOf(MessageIDs(Live(items)), covered));
  }

  /** What one committed record does to the branch and to everything read from it. */
  lemma OneEdit(items: seq<Item>, turn: string, p: Payload, id: Id)
    ensures Continues(turn, [p], [id]) == [Continue(turn, p, id)]
    ensures FreshIds(items, [id]) ==> id != NO_ID && !Has(items, id)
    ensures Run(items, Continues(turn, [p], [id])) == Perform(items, Continue(turn, p, id))
    ensures WellFormed(items) && Allowed(items, Continue(turn, p, id)) ==>
              var b, items2 := Live(items), Perform(items, Continue(turn, p, id));
              && WellFormed(items2)
              && Summary(Live(items2)) == ApplyItem(Summary(b), b, p)
              && MessageIDs(Live(items2)) == (if p.IsMessage() then MessageIDs(b) + [id] else MessageIDs(b))
              && (AnsweredOnce(Live(items2)) <==> AnsweredOnce(b) && (p.ToolResult? ==> !Answered(b, p.answers)))
  {
    var e := Continue(turn, p, id);
    assert [e][..0] == [] && [id][0] == id;
    if WellFormed(items) && Allowed(items, e) {
      EditKeepsJournal(items, e);
      SummaryAppend(Live(items), NewRecord(items, e));
    }
  }

  /** What a fresh replay says after one more record. */
  lemma EditReplays(items: seq<Item>, turn: string, p: Payload, id: Id)
    requires WellFormed(items) && Allowed(items, Continue(turn, p, id))
    ensures var b, items2 := Live(items), Perform(items, Continue(turn, p, id));
            && Reduce(items, HeadOf(items)) == (if AnsweredOnce(b) then Ok(Summary(b)) else Err(HistoryCorrupt))
            && HeadOf(items2) == id
            && Reduce(items2, id) ==
               if AnsweredOnce(b) && (p.ToolResult? ==> !Answered(b, p.answers))
               then Ok(ApplyItem(Summary(b), b, p)) else Err(HistoryCorrupt)
  {
    hide WellFormed, Live, Summary, AnsweredOnce, Answered, ApplyItem, Reduce, MessageIDs, Run;
    OneEdit(items, turn, p, id);
    LiveReplay(items);
    LiveReplay(Perform(items, Continue(turn, p, id)));
  }

  /** Turn records move the turn markers and nothing else. */
  lemma MarkersOnly(st: State, b: seq<Item>, run: string, status: string, errorClass: string)
    ensures ApplyItem(st, b, TurnStarted(run)) == st.(lastTurn := run, open := true)
    ensures ApplyItem(st, b, TurnFinished(status, errorClass)) == st.(open := false)
    ensures ApplyItem(st, b, TurnStarted(run)) == st <==> st.open && st.lastTurn == run
    ensures ApplyItem(st, b, TurnFinished(status, errorClass)) == st <==> !st.open
  {
  }

  /** A compaction of the first idx messages of a read model in step keeps it in step. */
  lemma CompactionReads(items: seq<Item>, st: State, turn: string, idx: nat, summary: string, id: Id)
    requires WellFormed(items) && SameButTurn(st, Summary(Live(items)))
    requires 0 < idx <= |MessageIDs(Live(items))| && id != NO_ID && !Has(items, id)
    ensures var covered := MessageIDs(Live(items))[idx - 1];
            var e := Continue(turn, Compaction(covered, summary), id);
            && Allowed(items, e) && PlaceOf(MessageIDs(Live(items)), covered) == idx
            && SameButTurn(st.(compactionIdx := idx, compactionSummary := summary), Summary(Live(Perform(items, e))))
  {
    hide WellFormed, Live, Summary, MessageIDs, Perform, Boundary, PlaceOf, AnsweredOnce, Answered, Run;
    var covered := MessageIDs(Live(items))[idx - 1];
    LiveNamesItsMessages(items, idx);
    PlaceIsBoundary(items, covered);
    OneEdit(items, turn, Compaction(covered, summary), id);
  }

  lemma RedirectReads(items: seq<Item>, e: Edit)
    requires WellFormed(items) && e.Redirect?
    requires Has(Live(items), e.landing) && e.id != NO_ID && !Has(items, e.id)
    ensures Allowed(items, e) && WellFormed(Perform(items, e))
    ensures Summary(Live(Perform(items, e))) == Summary(UpTo(Live(items), e.landing))
    ensures MessageIDs(Live(Perform(items, e))) == MessageIDs(UpTo(Live(items), e.landing))
    ensures AnsweredOnce(Live(Perform(items, e))) <==> AnsweredOnce(UpTo(Live(items), e.landing))
  {
    EditKeepsJournal(items, e);
    SummaryAppend(UpTo(Live(items), e.landing), NewRecord(items, e));
  }

  /** Neighbours on a branch are linked, starting from the root. */
  lemma {:induction false} ChainLinks(items: seq<Item>, id: Id, k: nat)
    requires ValidGraph(items) && k < |Chain(items, id)|
    ensures Chain(items, id)[k].parent == if k == 0 then NO_ID else Chain(items, id)[k - 1].id
  {
    var init, last := Init(items), Last(items);
    if last.id == id {
      var c := Chain(init, last.parent);
      if k < |c| {
        ChainLinks(init, last.parent, k);
      } else {
        ChainAbsent(init, last.parent);
      }
    } else {
      ChainLinks(init, id, k);
    }
  }

  lemma NothingHeld()
    ensures HeadOf([]) == NO_ID && LastSeq([]) == 0
  {
  }

  lemma SeqAtEnd(prefix: seq<Item>)
    requires prefix != [] && ContinuesFrom([], NO_ID, 0, prefix)
    ensures LastSeq(prefix) == prefix[|prefix| - 1].seqNo == |prefix| && HeadOf(prefix) == prefix[|prefix| - 1].id
  {
    assert Linked([], NO_ID, 0, prefix, |prefix| - 1);
  }

  lemma PrefixContinues(prefix: seq<Item>)
    requires WellFormed(prefix) && Live(prefix) == prefix
    requires forall k :: 0 <= k < |prefix| ==> prefix[k].seqNo == k + 1
    ensures ContinuesFrom([], NO_ID, 0, prefix)
  {
    WellFormedIsValid(prefix);
    forall k | 0 <= k < |prefix| ensures Linked([], NO_ID, 0, prefix, k) {
      ChainLinks(prefix, HeadOf(prefix), k);
    }
  }

  lemma {:induction false} MessageIDsFrom(b: seq<Item>, i: nat) returns (k: nat)
    requires i < |MessageIDs(b)|
    ensures k < |b| && b[k].id == MessageIDs(b)[i] && CountMessages(b[..k]) == i
  {
    SummaryAligned(b);
    k := MessageRecord(b, i);
  }

  /** The text a rewind hands back is that of the message it was asked to remove. */
  lemma RewoundMessageIsFound(b: seq<Item>, i: nat)
    requires DistinctIds(b) && i < |MessageIDs(b)|
    ensures |Summary(b).messages| == |MessageIDs(b)|
    ensures MessageAt(MessageIDs(b), Summary(b).messages, MessageIDs(b)[i]) == Some(Summary(b).messages[i])
  {
    hide Summary, MessageIDs, CountMessages, MessageAt;
    SummaryAligned(b);
    var ids := MessageIDs(b);
    forall j | 0 <= j < i ensures ids[j] != ids[i] {
      var kj := MessageIDsFrom(b, j);
      var ki := MessageIDsFrom(b, i);
    }
    MessageAtIndex(ids, Summary(b).messages, i);
  }

  /** What a rewind reports: what it took off the branch, and the text and images of the
      message it was asked to remove, as the read model showed it. */
  ghost predicate IsReport(b: seq<Item>, st: State, ids: seq<Id>, messageID: Id, landing: Id, out: RewindOutcome) {
    && AbandonedOn(b, landing) == Ok(out.abandoned)
    && (out.prompt, out.attachments) == HandedBack(MessageAt(ids, st.messages, messageID))
  }

  /** What a rewind that replayed leaves: the read model of the part it kept, the report
      of what it removed, and the removed message's text; when the record it removes is
      the i-th message, exactly the messages before i, and that message's text. */
  ghost predicate IsRewound(b: seq<Item>, st: State, ids: seq<Id>, messageID: Id, landing: Id, now: State, nowIds: seq<Id>, out: RewindOutcome) {
    && now == Summary(UpTo(b, landing)) && nowIds == MessageIDs(UpTo(b, landing))
    && IsReport(b, st, ids, messageID, landing, out) && out.abandoned.messages == |st.messages| - |now.messages|
    && forall i :: 0 <= i < |ids| && i < |st.messages| && ids[i] == messageID ==>
         && now.messages == st.messages[..i] && nowIds == ids[..i]
         && out.prompt == st.messages[i].content && out.attachments == Images(st.messages[i].parts)
  }

  lemma TurnsAreNotRead(v: View, b: seq<Item>, turn: string, p: Payload, id: Id)
    requires p.TurnStarted? || p.TurnFinished?
    ensures ViewAfter(v, b, Continue(turn, p, id)) == v
  {
  }

  lemma NewId(items: seq<Item>, id: Id)
    ensures FreshIds(items, [id]) <==> id != NO_ID && !Has(items, id)
  {
    assert [id][0] == id;
  }

  lemma Back(m: Option<Message>)
    ensures HandedBack(m) == if m.Some? then (m.value.content, Images(m.value.parts)) else ("", 0)
  {
  }

  lemma RewindReadsAll(b: seq<Item>, st: State, ids: seq<Id>, messageID: Id, landing: Id, out: RewindOutcome)
    requires DistinctIds(b) && ids == MessageIDs(b) && SameButTurn(st, Summary(b))
    requires LandingOn(b, messageID) == Ok(landing) && AbandonedOn(b, landing) == Ok(out.abandoned)
    requires (out.prompt, out.attachments) == HandedBack(MessageAt(ids, st.messages, messageID))
    ensures IsRewound(b, st, ids, messageID, landing, Summary(UpTo(b, landing)), MessageIDs(UpTo(b, landing)), out)
  {
    RewindReportExists(b, messageID);
    hide Summary, MessageIDs, LandingOn, UpTo, MessageAt, DistinctIds, HandedBack, AbandonedOn;
    forall i | 0 <= i < |ids| && i < |st.messages| && ids[i] == messageID
      ensures Summary(UpTo(b, landing)).messages == st.messages[..i] && MessageIDs(UpTo(b, landing)) == ids[..i]
      ensures MessageAt(ids, st.messages, messageID) == Some(st.messages[i])
    {
      RewindReads(b, st, ids, i);
    }
  }

  /** What a rewind of the i-th message leaves and finds, for a read model in step. */
  lemma RewindReads(b: seq<Item>, st: State, ids: seq<Id>, i: nat)
    requires DistinctIds(b) && ids == MessageIDs(b) && SameButTurn(st, Summary(b)) && i < |ids|
    requires LandingOn(b, ids[i]).Ok?
    ensures |st.messages| == |ids|
    ensures var kept := UpTo(b, LandingOn(b, ids[i]).value);
            Summary(kept).messages == st.messages[..i] && MessageIDs(kept) == ids[..i]
    ensures MessageAt(ids, st.messages, ids[i]) == Some(st.messages[i])
  {
    hide Summary, MessageIDs, LandingOn, UpTo, MessageAt, DistinctIds;
    RewindKeepsPrefix(b, i);
    RewoundMessageIsFound(b, i);
  }
}
