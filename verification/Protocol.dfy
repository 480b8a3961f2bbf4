/** The run scheduler as a protocol: many callers and run goroutines taking steps at
    lock granularity over one slot table, one queue per key, and the coordinator that
    admits one turn per session. */
module Protocol {
  import opened Outcome

  type Key = string
  type Session = string
  type Prompt = string
  type Event = string
  type Tid = nat

  const MAX_QUEUED: nat := 10

  // ---------- the state the scheduler's lock and the queues guard ----------

  /** runs names the run holding each busy key; queues holds what waits per key. */
  datatype Shared = Shared(runs: map<Key, Tid>, queues: map<Key, seq<Prompt>>)

  function Queue(sh: Shared, key: Key): seq<Prompt> {
    if key in sh.queues then sh.queues[key] else []
  }

  /** The key's queue, allocated on first use. */
  function WithQueue(sh: Shared, key: Key): Shared {
    if key in sh.queues then sh else sh.(queues := sh.queues[key := []])
  }

  function WithSlot(sh: Shared, key: Key, t: Tid): Shared {
    WithQueue(sh.(runs := sh.runs[key := t]), key)
  }

  function WithoutSlot(sh: Shared, key: Key): Shared {
    sh.(runs := sh.runs - {key})
  }

  function SetQueue(sh: Shared, key: Key, q: seq<Prompt>): Shared {
    sh.(queues := sh.queues[key := q])
  }

  // ---------- threads ----------

  datatype Work = PromptWork(text: Prompt) | EventWork(event: Event)

  datatype Phase =
    // a submitted prompt
    | Checking(prompt: Prompt)
    | Queueing(prompt: Prompt)
    | Resolving(prompt: Prompt)
    | Reserving(prompt: Prompt)
    // a background event
    | EventChecking
    | EventResolving
    | EventReserving
    // a run that won its slot
    | Opening
    | OpenFailed
    | Starting
    | Turning(begun: bool)
    | TurnOver(ok: bool)
    | Draining(ok: bool)
    | Closing(ok: bool)
    | Releasing(ok: bool)
    | Finishing(ok: bool)
    // cancellation
    | Canceling
    | CancelingAll
    // keys still to drop; a cancel-all walks the live table, so it may meet others too
    | Dropping(keys: set<Key>, live: bool)
    // an on-demand compaction
    | CompactStart
    | Compacting
    | Ended

  /** What a run's surface and session see, in order. */
  datatype Entry =
    | SessionOpened
    | OnStart
    | TurnDone
    | TurnError
    | Dequeued(next: Prompt)
    | SessionClosed
    | SlotReleased
    | Done(success: bool)

  datatype Thread = Thread(key: Key, session: Session, phase: Phase, opening: Option<Work>, log: seq<Entry>)

  datatype Fate = Taken(who: Tid) | Dropped(who: Tid)

  /** A key's prompts: every one a queue accepted, and every one that left it. */
  datatype Ledger = Ledger(accepted: seq<Prompt>, processed: seq<(Prompt, Fate)>)

  /** A key's background events: every one parked, and every one popped, by whom. */
  datatype Inbox = Inbox(arrived: seq<Event>, popped: seq<(Tid, Event)>)

  datatype State = State(
    shared: Shared,
    threads: map<Tid, Thread>,
    active: set<Session>,
    ledgers: map<Key, Ledger>,
    inboxes: map<Key, Inbox>)

  const INITIAL := State(Shared(map[], map[]), map[], {}, map[], map[])

  function LedgerOf(s: State, key: Key): Ledger {
    if key in s.ledgers then s.ledgers[key] else Ledger([], [])
  }

  function InboxOf(s: State, key: Key): Inbox {
    if key in s.inboxes then s.inboxes[key] else Inbox([], [])
  }

  function Parked(b: Inbox): seq<Event> {
    if |b.popped| <= |b.arrived| then b.arrived[|b.popped|..] else []
  }

  // ---------- steps ----------

  datatype Label =
    | Submit(t: Tid, key: Key, session: Session, prompt: Prompt)
    | StartEvent(t: Tid, key: Key, session: Session)
    | Cancel(t: Tid, key: Key)
    | CancelAll(t: Tid)
    | Compact(t: Tid, session: Session)
    | Park(key: Key, event: Event)
    // thread t takes its next step; ok is what a host, a store or a turn answered
    | Go(t: Tid, ok: bool)
    // the running turn folds a waiting prompt in at an iteration boundary
    | Fold(t: Tid)
    // a cancel drops one of the queues it came for
    | Drop(t: Tid, key: Key)

  predicate Enabled(s: State, l: Label) {
    match l
    case Submit(t, _, _, _) => t !in s.threads
    case StartEvent(t, _, _) => t !in s.threads
    case Cancel(t, _) => t !in s.threads
    case CancelAll(t) => t !in s.threads
    case Compact(t, _) => t !in s.threads
    case Park(_, _) => true
    case Go(t, _) =>
      t in s.threads && !s.threads[t].phase.Ended? &&
      (s.threads[t].phase.Dropping? ==> s.threads[t].phase.live && s.threads[t].phase.keys == {})
    case Fold(t) =>
      t in s.threads && s.threads[t].phase == Turning(true) && Queue(s.shared, s.threads[t].key) != []
    case Drop(t, key) =>
      t in s.threads && s.threads[t].phase.Dropping? &&
      (key in s.threads[t].phase.keys || (s.threads[t].phase.live && key in s.shared.queues))
  }

  function Spawned(s: State, t: Tid, key: Key, session: Session, phase: Phase): State {
    s.(threads := s.threads[t := Thread(key, session, phase, None, [])])
  }

  function Moved(s: State, t: Tid, phase: Phase, entries: seq<Entry>): State
    requires t in s.threads
  {
    s.(threads := s.threads[t := s.threads[t].(phase := phase, log := s.threads[t].log + entries)])
  }

  function Won(s: State, t: Tid, work: Work): State
    requires t in s.threads
  {
    var th := s.threads[t];
    s.(shared := WithSlot(s.shared, th.key, t), threads := s.threads[t := th.(phase := Opening, opening := Some(work))])
  }

  /** The queue's head leaves it, taken by t. */
  function TakeHead(s: State, t: Tid, key: Key): State
    requires Queue(s.shared, key) != []
  {
    var q, g := Queue(s.shared, key), LedgerOf(s, key);
    s.(shared := SetQueue(s.shared, key, q[1..]),
       ledgers := s.ledgers[key := g.(processed := g.processed + [(q[0], Taken(t))])])
  }

  function DroppedBy(t: Tid, q: seq<Prompt>): seq<(Prompt, Fate)> {
    seq(|q|, i requires 0 <= i < |q| => (q[i], Dropped(t)))
  }

  function DropQueue(s: State, t: Tid, key: Key): State {
    if key !in s.shared.queues then s
    else
      var q, g := s.shared.queues[key], LedgerOf(s, key);
      s.(shared := SetQueue(s.shared, key, []),
         ledgers := s.ledgers[key := g.(processed := g.processed + DroppedBy(t, q))])
  }

  function SubmitStep(s: State, t: Tid, ok: bool): State
    requires t in s.threads
  {
    var th := s.threads[t];
    match th.phase
    case Checking(p) =>
      if th.key in s.shared.runs
      then Moved(s.(shared := WithQueue(s.shared, th.key)), t, Queueing(p), [])
      else Moved(s, t, Resolving(p), [])
    case Queueing(p) =>
      if |Queue(s.shared, th.key)| >= MAX_QUEUED then Moved(s, t, Ended, [])
      else
        var g := LedgerOf(s, th.key);
        Moved(s.(shared := SetQueue(s.shared, th.key, Queue(s.shared, th.key) + [p]),
                 ledgers := s.ledgers[th.key := g.(accepted := g.accepted + [p])]), t, Ended, [])
    case Resolving(p) => Moved(s, t, if ok then Reserving(p) else Ended, [])
    case Reserving(p) =>
      if th.key in s.shared.runs
      then Moved(s.(shared := WithQueue(s.shared, th.key)), t, Queueing(p), [])
      else Won(s, t, PromptWork(p))
    case _ => s
  }

  function EventStep(s: State, t: Tid, ok: bool): State
    requires t in s.threads
  {
    var th := s.threads[t];
    match th.phase
    case EventChecking => Moved(s, t, if th.key in s.shared.runs then Ended else EventResolving, [])
    case EventResolving => Moved(s, t, if ok then EventReserving else Ended, [])
    case EventReserving =>
      var b := InboxOf(s, th.key);
      if th.key in s.shared.runs || Parked(b) == [] then Moved(s, t, Ended, [])
      else
        Won(s.(inboxes := s.inboxes[th.key := b.(popped := b.popped + [(t, Parked(b)[0])])]), t, EventWork(Parked(b)[0]))
    case _ => s
  }

  function RunStep(s: State, t: Tid, ok: bool): State
    requires t in s.threads
  {
    var th := s.threads[t];
    match th.phase
    case Opening => if ok then Moved(s, t, Starting, [SessionOpened]) else Moved(s, t, OpenFailed, [])
    case OpenFailed => Moved(s.(shared := WithoutSlot(s.shared, th.key)), t, Ended, [])
    case Starting => Moved(s, t, Turning(false), [OnStart])
    case Turning(begun) =>
      if begun then Moved(s.(active := s.active - {th.session}), t, TurnOver(ok), [])
      else if !ok || th.session in s.active then Moved(s, t, TurnOver(false), [])
      else Moved(s.(active := s.active + {th.session}), t, Turning(true), [])
    case TurnOver(done) => Moved(s, t, Draining(done), if done then [TurnDone] else [])
    case Draining(done) =>
      var q := Queue(s.shared, th.key);
      if q == [] then Moved(s, t, Closing(done), [])
      else Moved(TakeHead(s, t, th.key), t, Turning(false), (if done then [] else [TurnError]) + [Dequeued(q[0])])
    case Closing(done) => Moved(s, t, Releasing(done), [SessionClosed])
    case Releasing(done) => Moved(s.(shared := WithoutSlot(s.shared, th.key)), t, Finishing(done), [SlotReleased])
    case Finishing(done) => Moved(s, t, Ended, [Done(done)])
    case _ => s
  }

  function OtherStep(s: State, t: Tid, ok: bool): State
    requires t in s.threads
  {
    var th := s.threads[t];
    match th.phase
    case Canceling => Moved(s, t, if th.key in s.shared.queues then Dropping({th.key}, false) else Ended, [])
    case CancelingAll => Moved(s.(shared := s.shared.(runs := map[])), t, Dropping(s.shared.queues.Keys, true), [])
    case Dropping(_, _) => Moved(s, t, Ended, [])
    case CompactStart =>
      if th.session in s.active then Moved(s, t, Ended, [])
      else Moved(s.(active := s.active + {th.session}), t, Compacting, [])
    case Compacting => Moved(s.(active := s.active - {th.session}), t, Ended, [])
    case _ => s
  }

  predicate Submitting(p: Phase) {
    p.Checking? || p.Queueing? || p.Resolving? || p.Reserving?
  }

  predicate Delivering(p: Phase) {
    p.EventChecking? || p.EventResolving? || p.EventReserving?
  }

  /** Phases of a thread that has won its key's slot and not freed it. */
  predicate Owns(p: Phase) {
    p.Opening? || p.OpenFailed? || p.Starting? || p.Turning? || p.TurnOver? || p.Draining? || p.Closing? || p.Releasing?
  }

  /** Thread t holds its key's slot in runs. */
  predicate HoldsSlot(runs: map<Key, Tid>, t: Tid, key: Key) {
    key in runs && runs[key] == t
  }

  predicate HoldsSession(p: Phase) {
    p.Starting? || p.Turning? || p.TurnOver? || p.Draining? || p.Closing?
  }

  /** Phases between a successful begin on the turn coordinator and its end. */
  predicate Begun(p: Phase) {
    p == Turning(true) || p.Compacting?
  }

  function Next(s: State, l: Label): State
    requires Enabled(s, l)
  {
    match l
    case Submit(t, key, session, p) => Spawned(s, t, key, session, Checking(p))
    case StartEvent(t, key, session) => Spawned(s, t, key, session, EventChecking)
    case Cancel(t, key) => Spawned(s, t, key, "", Canceling)
    case CancelAll(t) => Spawned(s, t, "", "", CancelingAll)
    case Compact(t, session) => Spawned(s, t, "", session, CompactStart)
    case Park(key, ev) =>
      var b := InboxOf(s, key);
      s.(inboxes := s.inboxes[key := b.(arrived := b.arrived + [ev])])
    case Go(t, ok) =>
      var p := s.threads[t].phase;
      if Submitting(p) then SubmitStep(s, t, ok)
      else if Delivering(p) then EventStep(s, t, ok)
      else if Owns(p) || p.Finishing? then RunStep(s, t, ok)
      else OtherStep(s, t, ok)
    case Fold(t) => TakeHead(s, t, s.threads[t].key)
    case Drop(t, key) =>
      var keys, live := s.threads[t].phase.keys - {key}, s.threads[t].phase.live;
      Moved(DropQueue(s, t, key), t, if keys == {} && !live then Ended else Dropping(keys, live), [])
  }

  ghost predicate AllEnabled(s: State, ls: seq<Label>) {
    ls == [] ||
    (AllEnabled(s, ls[..|ls| - 1]) && Enabled(After(s, ls[..|ls| - 1]), ls[|ls| - 1]))
  }

  ghost function After(s: State, ls: seq<Label>): State {
    if ls == [] then s
    else
      var before := After(s, ls[..|ls| - 1]);
      if Enabled(before, ls[|ls| - 1]) then Next(before, ls[|ls| - 1]) else before
  }

  // ---------- what one step moves ----------

  /** The coordinator's set after a thread goes from one phase to another. */
  predicate Admits(active: set<Session>, from: Phase, to: Phase, session: Session, active2: set<Session>) {
    if Begun(from) then !Begun(to) && active2 == active - {session}
    else if Begun(to) then session !in active && active2 == active + {session}
    else active2 == active
  }

  /** A step of thread t touches no other thread, keeps t's key and session, and
      moves the coordinator's set only through begin and end. */
  ghost predicate MovesOne(s: State, s2: State, t: Tid) {
    && t in s.threads && t in s2.threads && s2.threads == s.threads[t := s2.threads[t]]
    && s2.threads[t].key == s.threads[t].key && s2.threads[t].session == s.threads[t].session
    && Admits(s.active, s.threads[t].phase, s2.threads[t].phase, s.threads[t].session, s2.active)
    && (s2.threads[t].phase.CancelingAll? ==> s.threads[t].phase.CancelingAll?)
  }

  lemma SubmitMovesOne(s: State, t: Tid, ok: bool)
    requires t in s.threads && Submitting(s.threads[t].phase)
    ensures MovesOne(s, SubmitStep(s, t, ok), t)
  {
  }

  lemma EventMovesOne(s: State, t: Tid, ok: bool)
    requires t in s.threads && Delivering(s.threads[t].phase)
    ensures MovesOne(s, EventStep(s, t, ok), t)
  {
  }

  lemma RunMovesOne(s: State, t: Tid, ok: bool)
    requires t in s.threads && (Owns(s.threads[t].phase) || s.threads[t].phase.Finishing?)
    ensures MovesOne(s, RunStep(s, t, ok), t)
  {
    hide WithQueue, WithoutSlot, SetQueue, Queue, LedgerOf;
  }

  lemma OtherMovesOne(s: State, t: Tid, ok: bool)
    requires t in s.threads && !Submitting(s.threads[t].phase) && !Delivering(s.threads[t].phase)
    requires !Owns(s.threads[t].phase) && !s.threads[t].phase.Finishing? && !s.threads[t].phase.Ended?
    ensures MovesOne(s, OtherStep(s, t, ok), t)
  {
  }

  lemma DropMovesOne(s: State, t: Tid, key: Key)
    requires Enabled(s, Drop(t, key))
    ensures MovesOne(s, Next(s, Drop(t, key)), t)
  {
  }

  function Mover(l: Label): Tid {
    match l
    case Submit(t, _, _, _) => t
    case StartEvent(t, _, _) => t
    case Cancel(t, _) => t
    case CancelAll(t) => t
    case Compact(t, _) => t
    case Go(t, _) => t
    case Drop(t, _) => t
    case Fold(t) => t
    case Park(_, _) => 0
  }

  predicate Spawns(l: Label) {
    l.Submit? || l.StartEvent? || l.Cancel? || l.CancelAll? || l.Compact?
  }

  /** Every step spawns a thread that has not begun anything, moves one thread, or
      moves none. */
  lemma StepShape(s: State, l: Label)
    requires Enabled(s, l)
    ensures var s2 := Next(s, l);
            if Spawns(l) then
              && Mover(l) !in s.threads && Mover(l) in s2.threads
              && s2.threads == s.threads[Mover(l) := s2.threads[Mover(l)]] && s2.active == s.active
              && !Begun(s2.threads[Mover(l)].phase) && s2.threads[Mover(l)].log == []
              && s2.threads[Mover(l)].opening.None?
              && s2.shared == s.shared && s2.ledgers == s.ledgers && s2.inboxes == s.inboxes
              && (s2.threads[Mover(l)].phase.CancelingAll? <==> l.CancelAll?)
            else if l.Park? || l.Fold? then s2.threads == s.threads && s2.active == s.active
            else MovesOne(s, s2, Mover(l))
  {
    hide SubmitStep, EventStep, RunStep, OtherStep, DropQueue, MovesOne;
    match l {
      case Go(t, ok) =>
        var p := s.threads[t].phase;
        if Submitting(p) {
          SubmitMovesOne(s, t, ok);
        } else if Delivering(p) {
          EventMovesOne(s, t, ok);
        } else if Owns(p) || p.Finishing? {
          RunMovesOne(s, t, ok);
        } else {
          OtherMovesOne(s, t, ok);
        }
      case Drop(t, key) => DropMovesOne(s, t, key);
      case _ =>
    }
  }
}
