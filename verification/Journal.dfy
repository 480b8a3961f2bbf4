/** The session journal: records in physical order, each naming its logical
    parent, and the branch a head selects among them. */
module Journal {
  import opened Outcome

  type Id = string

  const NO_ID: Id := ""

  datatype Error =
    | HeadNotFound
    | HistoryCorrupt
    | UnknownRequired
    | NoLanding
    | AlreadyHead
    | NotPersisted
    | WriteFailed
    | NothingCovered
    | AlreadyHolds
    | SelectsNothing

  datatype ToolCall = ToolCall(id: Id, name: string)

  datatype ContentPart = ContentPart(kind: string, text: string, mediaType: string, data: string)

  datatype Message = Message(
    role: string,
    content: string,
    source: string,
    toolCallID: Id,
    toolCalls: seq<ToolCall>,
    parts: seq<ContentPart>)

  datatype Note = Note(text: string, written: int)

  datatype Todo = Todo(content: string, status: string, activeForm: string, written: int)

  datatype Payload =
    | TurnStarted(runID: string)
    | MessageItem(message: Message)
    | ToolExecutionStarted(callID: Id, toolName: string)
    | ToolResult(answers: Id, resultStatus: string, content: string, parts: seq<ContentPart>)
    | Compaction(covered: Id, summary: string)
    | NotesReplaced(notes: seq<Note>)
    | TodosReplaced(todos: seq<Todo>)
    | AdditionalPromptSet(text: string)
    | HeadSelected(reason: string)
    | TurnFinished(turnStatus: string, errorClass: string)
    | TurnRecovered(turnID: string, uncertain: seq<Id>)
    | UnknownPayload(kind: string)
  {
    /** Whether applying this record changes what the model sees. */
    predicate ModelVisible() {
      !(TurnStarted? || ToolExecutionStarted? || TurnFinished? || TurnRecovered?)
    }

    /** Records that project to an entry of the message list. */
    predicate IsMessage() {
      MessageItem? || ToolResult?
    }
  }

  datatype Item = Item(seqNo: nat, id: Id, parent: Id, required: bool, turnID: string, payload: Payload)

  function NewItem(seqNo: nat, id: Id, parent: Id, turnID: string, payload: Payload): Item {
    Item(seqNo, id, parent, payload.ModelVisible(), turnID, payload)
  }

  // ---------- looking records up ----------

  /** The record an id names; the last one, as building a map over the records would keep. */
  function Find(items: seq<Item>, id: Id): Option<Item> {
    if items == [] then None
    else if items[|items| - 1].id == id then Some(items[|items| - 1])
    else Find(items[..|items| - 1], id)
  }

  predicate Has(items: seq<Item>, id: Id) {
    Find(items, id).Some?
  }

  function HeadOf(items: seq<Item>): Id {
    if items == [] then NO_ID else items[|items| - 1].id
  }

  function LastSeq(items: seq<Item>): nat {
    if items == [] then 0 else items[|items| - 1].seqNo
  }

  lemma {:induction false} FindIsMembership(items: seq<Item>, id: Id)
    ensures Has(items, id) <==> exists k :: 0 <= k < |items| && items[k].id == id
    ensures Has(items, id) ==> Find(items, id).value in items && Find(items, id).value.id == id
  {
    if items != [] {
      var init := items[..|items| - 1];
      FindIsMembership(init, id);
      if Has(init, id) {
        var k :| 0 <= k < |init| && init[k].id == id;
        assert items[k].id == id;
      }
    }
  }

  lemma {:induction false} HasAppend(a: seq<Item>, b: seq<Item>, id: Id)
    ensures Has(a + b, id) <==> Has(a, id) || Has(b, id)
  {
    if b == [] {
      assert a + b == a;
    } else {
      var init := b[..|b| - 1];
      assert (a + b)[..|a + b| - 1] == a + init;
      HasAppend(a, init, id);
    }
  }

  // ---------- graph validity ----------

  /** What the validator asks of one record, given those already accepted. */
  predicate Accepts(before: seq<Item>, it: Item) {
    && it.id != NO_ID
    && !Has(before, it.id)
    && !(it.payload.UnknownPayload? && it.required)
    && (if it.parent == NO_ID then before == [] else Has(before, it.parent))
  }

  predicate ValidGraph(items: seq<Item>) {
    items == [] || (ValidGraph(items[..|items| - 1]) && Accepts(items[..|items| - 1], items[|items| - 1]))
  }

  lemma ValidAppend(items: seq<Item>, it: Item)
    ensures ValidGraph(items + [it]) <==> ValidGraph(items) && Accepts(items, it)
  {
    assert (items + [it])[..|items|] == items;
  }

  lemma {:induction false} ValidPrefix(items: seq<Item>, k: nat)
    requires ValidGraph(items) && k <= |items|
    ensures ValidGraph(items[..k])
  {
    if k < |items| {
      ValidPrefix(items[..|items| - 1], k);
      assert items[..|items| - 1][..k] == items[..k];
    } else {
      assert items[..k] == items;
    }
  }

  /** What the validator's fields record about the items accepted so far. */
  ghost predicate Tracks(seen: set<Id>, roots: nat, count: nat, accepted: seq<Item>) {
    && ValidGraph(accepted)
    && count == |accepted|
    && roots == (if accepted == [] then 0 else 1)
    && forall id :: id in seen <==> Has(accepted, id)
  }

  lemma TracksOneMore(seen: set<Id>, roots: nat, count: nat, accepted: seq<Item>, it: Item)
    requires Tracks(seen, roots, count, accepted) && Accepts(accepted, it)
    ensures Tracks(seen + {it.id}, if it.parent == NO_ID then roots + 1 else roots, count + 1, accepted + [it])
  {
    ValidAppend(accepted, it);
    forall id ensures Has(accepted + [it], id) <==> id in seen + {it.id} {
      HasAppend(accepted, [it], id);
    }
  }

  /** The incremental validator: identities seen, roots counted, one record at a time. */
  class Validator {
    var seen: set<Id>
    var roots: nat
    var count: nat
    ghost var accepted: seq<Item>

    ghost predicate Valid()
      reads this
    {
      Tracks(seen, roots, count, accepted)
    }

    constructor ()
      ensures Valid() && accepted == []
    {
      seen, roots, count, accepted := {}, 0, 0, [];
    }

    method Add(it: Item) returns (error: Option<Error>)
      requires Valid()
      modifies this
      ensures error.None? <==> Accepts(old(accepted), it)
      ensures error.None? ==> Valid() && accepted == old(accepted) + [it]
      ensures error == Some(UnknownRequired) <==>
              it.id != NO_ID && !Has(old(accepted), it.id) && it.payload.UnknownPayload? && it.required
    {
      if it.id == NO_ID || it.id in seen {
        return Some(HistoryCorrupt);
      }
      if it.payload.UnknownPayload? && it.required {
        return Some(UnknownRequired);
      }
      if it.parent == NO_ID {
        if roots + 1 > 1 {
          roots := roots + 1;
          return Some(HistoryCorrupt);
        }
      } else if it.parent !in seen {
        return Some(HistoryCorrupt);
      }
      TracksOneMore(seen, roots, count, accepted, it);
      roots := if it.parent == NO_ID then roots + 1 else roots;
      seen, count, accepted := seen + {it.id}, count + 1, accepted + [it];
      return None;
    }

    method Done() returns (error: Option<Error>)
      requires Valid()
      ensures error.None?
    {
      if count > 0 && roots == 0 {
        return Some(HistoryCorrupt);
      }
      return None;
    }
  }

  /** A whole journal is accepted exactly when it is a valid graph. */
  method Validate(items: seq<Item>) returns (error: Option<Error>)
    ensures error.None? <==> ValidGraph(items)
  {
    var v := new Validator();
    var i := 0;
    while i < |items|
      invariant 0 <= i <= |items|
      invariant v.Valid() && v.accepted == items[..i]
    {
      error := v.Add(items[i]);
      assert items[..i + 1] == items[..i] + [items[i]];
      if error.Some? {
        ValidAppend(items[..i], items[i]);
        if ValidGraph(items) {
          ValidPrefix(items, i + 1);
        }
        return;
      }
      i := i + 1;
    }
    assert items[..i] == items;
    error := v.Done();
  }

  // ---------- the branch ----------

  /** The parent chain from the root to id. Defined on the physical order, which a
      valid graph descends; Branch below is the source's walk. */
  function Chain(items: seq<Item>, id: Id): seq<Item> {
    if items == [] then []
    else
      var init, last := items[..|items| - 1], items[|items| - 1];
      if last.id == id then Chain(init, last.parent) + [last] else Chain(init, id)
  }

  /** The walk the source makes: look the id up, step to its parent, and give up
      once more records were collected than exist. */
  function Walk(items: seq<Item>, id: Id, fuel: nat): Result<seq<Item>, Error>
    decreases fuel
  {
    if id == NO_ID then Ok([])
    else if Find(items, id).None? || fuel == 0 then Err(HistoryCorrupt)
    else
      match Walk(items, Find(items, id).value.parent, fuel - 1)
      case Ok(b) => Ok(b + [Find(items, id).value])
      case Err(e) => Err(e)
  }

  function Branch(items: seq<Item>, head: Id): Result<seq<Item>, Error> {
    if head != NO_ID && !Has(items, head) then Err(HeadNotFound) else Walk(items, head, |items|)
  }

  lemma ChainAppend(items: seq<Item>, it: Item, id: Id)
    ensures Chain(items + [it], id) == if it.id == id then Chain(items, it.parent) + [it] else Chain(items, id)
  {
    assert (items + [it])[..|items|] == items;
  }

  lemma {:induction false} ChainAbsent(items: seq<Item>, id: Id)
    ensures !Has(items, id) ==> Chain(items, id) == []
    ensures Has(items, id) ==> Chain(items, id) != [] && Chain(items, id)[|Chain(items, id)| - 1].id == id
  {
    if items != [] {
      ChainAbsent(items[..|items| - 1], id);
    }
  }

  lemma {:induction false} ChainStep(items: seq<Item>, id: Id)
    requires ValidGraph(items) && Has(items, id)
    ensures var it := Find(items, id).value;
            Chain(items, id) == Chain(items, it.parent) + [it] && (it.parent == NO_ID || Has(items, it.parent))
  {
    var init, last := items[..|items| - 1], items[|items| - 1];
    assert items == init + [last];
    var it := Find(items, id).value;
    HasAppend(init, [last], it.parent);
    FindIsMembership(init, NO_ID);
    if last.id == id {
    } else {
      ChainStep(init, id);
    }
    if Has(init, NO_ID) {
      NoEmptyId(init);
    }
  }

  lemma {:induction false} NoEmptyId(items: seq<Item>)
    requires ValidGraph(items)
    ensures !Has(items, NO_ID)
    ensures Chain(items, NO_ID) == []
  {
    if items != [] {
      NoEmptyId(items[..|items| - 1]);
    }
  }

  lemma {:induction false} ChainNoLonger(items: seq<Item>, id: Id)
    ensures |Chain(items, id)| <= |items|
  {
    if items != [] {
      var init, last := items[..|items| - 1], items[|items| - 1];
      ChainNoLonger(init, last.parent);
      ChainNoLonger(init, id);
    }
  }

  lemma {:induction false} WalkIsChain(items: seq<Item>, id: Id, fuel: nat)
    requires ValidGraph(items) && (id == NO_ID || Has(items, id)) && |Chain(items, id)| <= fuel
    ensures Walk(items, id, fuel) == Ok(Chain(items, id))
    decreases fuel
  {
    if id == NO_ID {
      NoEmptyId(items);
    } else {
      ChainStep(items, id);
      WalkIsChain(items, Find(items, id).value.parent, fuel - 1);
    }
  }

  /** On an accepted journal the bounded walk never gives up: it is the parent
      chain for every head the journal holds, and a miss is the only failure. */
  lemma BranchIsChain(items: seq<Item>, head: Id)
    requires ValidGraph(items)
    ensures Branch(items, head) ==
            if head == NO_ID || Has(items, head) then Ok(Chain(items, head)) else Err(HeadNotFound)
  {
    if head == NO_ID || Has(items, head) {
      ChainNoLonger(items, head);
      WalkIsChain(items, head, |items|);
    }
  }

  /** The records of a chain are records of the journal, under distinct ids. */
  ghost predicate DistinctIds(b: seq<Item>) {
    forall i, j :: 0 <= i < j < |b| ==> b[i].id != b[j].id
  }

  lemma {:induction false} ChainWithin(items: seq<Item>, id: Id, k: nat)
    requires k < |Chain(items, id)|
    ensures Has(items, Chain(items, id)[k].id)
    ensures Chain(items, id)[k] in items
  {
    var init, last := items[..|items| - 1], items[|items| - 1];
    if last.id == id {
      if k < |Chain(init, last.parent)| {
        ChainWithin(init, last.parent, k);
      }
    } else {
      ChainWithin(init, id, k);
    }
  }

  lemma {:induction false} ChainDistinct(items: seq<Item>, id: Id)
    requires ValidGraph(items)
    ensures DistinctIds(Chain(items, id))
  {
    if items != [] {
      var init, last := items[..|items| - 1], items[|items| - 1];
      if last.id == id {
        ChainDistinct(init, last.parent);
        var c := Chain(init, last.parent);
        forall k | 0 <= k < |c| ensures c[k].id != last.id {
          ChainWithin(init, last.parent, k);
        }
      } else {
        ChainDistinct(init, id);
      }
    }
  }

  /** Every record on a branch selects the prefix of that branch ending at itself. */
  lemma {:induction false} ChainPrefix(items: seq<Item>, head: Id, k: nat)
    requires ValidGraph(items) && k < |Chain(items, head)|
    ensures Chain(items, Chain(items, head)[k].id) == Chain(items, head)[..k + 1]
  {
    var init, last := items[..|items| - 1], items[|items| - 1];
    var b := Chain(items, head);
    var from := if last.id == head then last.parent else head;
    var c := Chain(init, from);
    if k < |c| {
      ChainPrefix(init, from, k);
      ChainWithin(init, from, k);
      assert b[k] == c[k] && b[..k + 1] == c[..k + 1];
    } else {
      assert b[..k + 1] == b;
    }
  }

  ghost function Reversed<T>(s: seq<T>): (r: seq<T>)
    ensures |r| == |s|
  {
    seq(|s|, i requires 0 <= i < |s| => s[|s| - 1 - i])
  }

  /** What the walk from id still has to add in front of what it collected. */
  ghost function Onto(r: Result<seq<Item>, Error>, collected: seq<Item>): Result<seq<Item>, Error> {
    match r
    case Ok(b) => Ok(b + Reversed(collected))
    case Err(e) => Err(e)
  }

  lemma WalkOnto(items: seq<Item>, id: Id, fuel: nat, collected: seq<Item>)
    requires id != NO_ID && fuel > 0 && Has(items, id)
    ensures var it := Find(items, id).value;
            Onto(Walk(items, id, fuel), collected) == Onto(Walk(items, it.parent, fuel - 1), collected + [it])
  {
    var it := Find(items, id).value;
    var w := Walk(items, it.parent, fuel - 1);
    if w.Ok? {
      assert (w.value + [it]) + Reversed(collected) == w.value + Reversed(collected + [it]);
    }
  }

  /** The source's loop: walk up collecting records, then reverse them in place. */
  method BranchWalk(items: seq<Item>, head: Id) returns (r: Result<seq<Item>, Error>)
    ensures r == Branch(items, head)
  {
    if head == NO_ID {
      return Ok([]);
    }
    var reversed: seq<Item> := [];
    var id := head;
    if Has(items, head) && Walk(items, head, |items|).Ok? {
      assert Walk(items, head, |items|).value + Reversed([]) == Walk(items, head, |items|).value;
    }
    while id != NO_ID
      invariant |reversed| <= |items|
      invariant reversed == [] ==> id == head
      invariant reversed != [] ==> Has(items, head)
      invariant Has(items, head) ==> Onto(Walk(items, id, |items| - |reversed|), reversed) == Branch(items, head)
      decreases |items| - |reversed|
    {
      var found := Find(items, id);
      if found.None? {
        return Err(if id == head then HeadNotFound else HistoryCorrupt);
      }
      if |reversed| + 1 > |items| {
        return Err(HistoryCorrupt);
      }
      WalkOnto(items, id, |items| - |reversed|, reversed);
      reversed := reversed + [found.value];
      id := found.value.parent;
    }
    ghost var collected := reversed;
    reversed := SwapEnds(reversed);
    assert [] + Reversed(collected) == reversed;
    r := Ok(reversed);
  }

  method SwapEnds<T>(s: seq<T>) returns (r: seq<T>)
    ensures r == Reversed(s)
  {
    r := s;
    var i, j := 0, |s| - 1;
    while i < j
      invariant |r| == |s|
      invariant 0 <= i <= |s| && j == |s| - 1 - i
      invariant forall k :: 0 <= k < |s| ==> r[k] == if k < i || j < k then Reversed(s)[k] else s[k]
    {
      var first, last := r[i], r[j];
      assert first == Reversed(s)[j] && last == Reversed(s)[i];
      r := r[i := last][j := first];
      i, j := i + 1, j - 1;
    }
  }
}
