/** What a run tells of its turns is what became of them, over every interleaving. */
module Turns {
  import opened Outcome
  import opened Protocol
  import opened Callbacks
  import opened Deliveries

  /** A turn over with an outcome, or a waiting prompt taken up between two turns. */
  datatype TurnEvent = Turned(ok: bool) | TakenUp(prompt: Prompt)

  /** What a step does to thread t's turns: a turn ends as the host answered, or at once
      if it was not to begin or the session was already in one; between turns the oldest
      waiting prompt leaves the queue. */
  function Happens(s: State, l: Label, t: Tid): seq<TurnEvent> {
    if !(l.Go? && l.t == t && t in s.threads) then []
    else
      var th := s.threads[t];
      if th.phase == Turning(true) then [Turned(l.ok)]
      else if th.phase == Turning(false) && (!l.ok || th.session in s.active) then [Turned(false)]
      else if th.phase.Draining? && Queue(s.shared, th.key) != [] then [TakenUp(Queue(s.shared, th.key)[0])]
      else []
  }

  ghost function Happened(s: State, ls: seq<Label>, t: Tid): seq<TurnEvent> {
    if ls == [] then [] else Happened(s, ls[..|ls| - 1], t) + Happens(After(s, ls[..|ls| - 1]), ls[|ls| - 1], t)
  }

  /** What a surface learns from one callback. */
  function Learns(e: Entry): seq<TurnEvent> {
    match e
    case TurnDone => [Turned(true)]
    case TurnError => [Turned(false)]
    case Dequeued(next) => [TakenUp(next)]
    case Done(success) => if success then [] else [Turned(false)]
    case _ => []
  }

  function Learned(log: seq<Entry>): seq<TurnEvent> {
    if log == [] then [] else Learned(log[..|log| - 1]) + Learns(log[|log| - 1])
  }

  /** The turn that is over and not yet told. */
  function Untold(p: Phase): seq<TurnEvent> {
    match p
    case TurnOver(ok) => [Turned(ok)]
    case Draining(ok) => if ok then [] else [Turned(false)]
    case Closing(ok) => if ok then [] else [Turned(false)]
    case Releasing(ok) => if ok then [] else [Turned(false)]
    case Finishing(ok) => if ok then [] else [Turned(false)]
    case _ => []
  }

  lemma LearnedMore(log: seq<Entry>, e: Entry)
    ensures Learned(log + [e]) == Learned(log) + Learns(e)
    ensures Learned(log + []) == Learned(log)
  {
    assert (log + [e])[..|log|] == log && log + [] == log;
  }

  function Account(th: Thread): seq<TurnEvent> {
    Learned(th.log) + Untold(th.phase)
  }

  lemma RunAccounts(s: State, t: Tid, ok: bool)
    requires t in s.threads && (Owns(s.threads[t].phase) || s.threads[t].phase.Finishing?)
    ensures t in RunStep(s, t, ok).threads
    ensures Account(RunStep(s, t, ok).threads[t]) == Account(s.threads[t]) + Happens(s, Go(t, ok), t)
  {
    hide RunStep, Account, Happens;
    var p := s.threads[t].phase;
    if p.Draining? {
      DrainingAccounts(s, t, ok);
    } else if p.Closing? || p.Releasing? || p.Finishing? || p.TurnOver? {
      ClosingAccounts(s, t, ok);
    } else {
      OpeningAccounts(s, t, ok);
    }
  }

  lemma OpeningAccounts(s: State, t: Tid, ok: bool)
    requires t in s.threads
    requires var p := s.threads[t].phase; p.Opening? || p.OpenFailed? || p.Starting? || p.Turning?
    ensures t in RunStep(s, t, ok).threads
    ensures Account(RunStep(s, t, ok).threads[t]) == Account(s.threads[t]) + Happens(s, Go(t, ok), t)
  {
    hide WithoutSlot, Learned;
    var th := s.threads[t];
    LearnedMore(th.log, SessionOpened);
    LearnedMore(th.log, OnStart);
  }

  lemma ClosingAccounts(s: State, t: Tid, ok: bool)
    requires t in s.threads
    requires var p := s.threads[t].phase; p.Closing? || p.Releasing? || p.Finishing? || p.TurnOver?
    ensures t in RunStep(s, t, ok).threads
    ensures Account(RunStep(s, t, ok).threads[t]) == Account(s.threads[t]) + Happens(s, Go(t, ok), t)
  {
    hide WithoutSlot, Learned;
    var th := s.threads[t];
    match th.phase {
      case TurnOver(_) => LearnedMore(th.log, TurnDone);
      case Closing(_) => LearnedMore(th.log, SessionClosed);
      case Releasing(_) => LearnedMore(th.log, SlotReleased);
      case Finishing(done) => LearnedMore(th.log, Done(done));
    }
    assert Happens(s, Go(t, ok), t) == [];
  }

  lemma DrainingAccounts(s: State, t: Tid, ok: bool)
    requires t in s.threads && s.threads[t].phase.Draining?
    ensures t in RunStep(s, t, ok).threads
    ensures Account(RunStep(s, t, ok).threads[t]) == Account(s.threads[t]) + Happens(s, Go(t, ok), t)
  {
    hide TakeHead, Queue, Learned;
    var th := s.threads[t];
    var q := Queue(s.shared, th.key);
    LearnedMore(th.log, TurnError);
    if q != [] {
      TakeHeadSparesThreads(s, t, th.key);
      LearnedMore(th.log, Dequeued(q[0]));
      LearnedMore(th.log + [TurnError], Dequeued(q[0]));
      assert [] + [Dequeued(q[0])] == [Dequeued(q[0])];
      assert th.log + ([TurnError] + [Dequeued(q[0])]) == (th.log + [TurnError]) + [Dequeued(q[0])];
      var th2 := RunStep(s, t, ok).threads[t];
      assert th2.phase == Turning(false);
      assert Learned(th2.log) == Learned(th.log) + (if th.phase.ok then [] else [Turned(false)]) + [TakenUp(q[0])];
    } else {
      assert th.log + [] == th.log;
    }
  }

  lemma MoverAccounts(s: State, l: Label)
    requires Enabled(s, l) && AllFit(s.threads) && !Spawns(l) && !l.Park? && !l.Fold?
    ensures var t := Mover(l);
            && t in s.threads && t in Next(s, l).threads
            && Account(Next(s, l).threads[t]) == Account(s.threads[t]) + Happens(s, l, t)
  {
    hide Learned, Untold, Happens, RunStep, Fits, AllFit;
    StepShape(s, l);
    MoverFits(s, l);
    var t := Mover(l);
    var p := s.threads[t].phase;
    if l.Go? && (Owns(p) || p.Finishing?) {
      RunAccounts(s, t, l.ok);
    } else {
      NotARun(s, l);
    }
  }

  /** A thread that is not a run says nothing, and has no turn to tell of. */
  lemma NotARun(s: State, l: Label)
    requires Enabled(s, l) && AllFit(s.threads) && !Spawns(l) && !l.Park? && !l.Fold?
    requires Mover(l) in s.threads && !(Owns(s.threads[Mover(l)].phase) || s.threads[Mover(l)].phase.Finishing?)
    ensures var t := Mover(l);
            && t in Next(s, l).threads
            && Account(Next(s, l).threads[t]) == Account(s.threads[t]) + Happens(s, l, t)
  {
    hide SubmitStep, EventStep, OtherStep, Tells, Learned;
    var t := Mover(l);
    var th := s.threads[t];
    assert Fits(th) && th.log == [] && th.log + [] == [];
    if l.Drop? {
      hide DropQueue;
    } else if Submitting(th.phase) {
      SubmitSaysNothing(s, t, l.ok);
    } else if Delivering(th.phase) {
      EventSaysNothing(s, t, l.ok);
    } else {
      OtherSaysNothing(s, t, l.ok);
    }
  }

  predicate Mute(threads: map<Tid, Thread>, t: Tid) {
    t in threads && threads[t].log == [] && Untold(threads[t].phase) == []
  }

  lemma SubmitSaysNothing(s: State, t: Tid, ok: bool)
    requires t in s.threads && Submitting(s.threads[t].phase) && s.threads[t].log == []
    ensures Mute(SubmitStep(s, t, ok).threads, t)
  {
    hide WithQueue, SetQueue, LedgerOf, Queue;
  }

  lemma EventSaysNothing(s: State, t: Tid, ok: bool)
    requires t in s.threads && Delivering(s.threads[t].phase) && s.threads[t].log == []
    ensures Mute(EventStep(s, t, ok).threads, t)
  {
    hide WithQueue, SetQueue, LedgerOf, Queue;
  }

  lemma OtherSaysNothing(s: State, t: Tid, ok: bool)
    requires t in s.threads && Mute(s.threads, t)
    ensures Mute(OtherStep(s, t, ok).threads, t)
  {
  }

  /** In every interleaving, what a run's callbacks say, with the turn not yet told, is
      exactly what its turns came to and which prompts it took up, in order; once the run
      has ended, its callbacks have told all of it. */
  lemma {:induction false} EveryTurnIsTold(ls: seq<Label>, t: Tid)
    requires AllEnabled(INITIAL, ls)
    ensures var s := After(INITIAL, ls);
            Happened(INITIAL, ls, t) == if t in s.threads then Account(s.threads[t]) else []
  {
    if ls != [] {
      hide Next, Account, Happens, AllFit;
      var before, l := ls[..|ls| - 1], ls[|ls| - 1];
      var s := After(INITIAL, before);
      EveryTurnIsTold(before, t);
      AlwaysFit(INITIAL, before);
      StepShape(s, l);
      if Spawns(l) && t == Mover(l) {
        SpawnAccounts(s, l);
      } else if !Spawns(l) && !l.Park? && !l.Fold? && t == Mover(l) {
        MoverAccounts(s, l);
      } else {
        OthersDoNothing(s, l, t);
      }
    }
  }

  lemma SpawnAccounts(s: State, l: Label)
    requires Enabled(s, l) && Spawns(l)
    ensures Mover(l) in Next(s, l).threads && Account(Next(s, l).threads[Mover(l)]) == [] && Happens(s, l, Mover(l)) == []
  {
  }

  lemma OthersDoNothing(s: State, l: Label, t: Tid)
    requires l.Go? ==> t != Mover(l)
    ensures Happens(s, l, t) == []
  {
  }
}
