/** What a run tells its surface and its session, over every interleaving. */
module Callbacks {
  import opened Protocol

  /** Turns that were not the run's last: each reported, then the prompt that follows. */
  predicate Rounds(r: seq<Entry>) {
    r == [] ||
    (|r| >= 2 && r[|r| - 1].Dequeued? && (r[|r| - 2].TurnDone? || r[|r| - 2].TurnError?) && Rounds(r[..|r| - 2]))
  }

  function Told(rounds: seq<Entry>): seq<Entry> {
    [SessionOpened, OnStart] + rounds
  }

  function LastTurn(ok: bool): seq<Entry> {
    if ok then [TurnDone] else []
  }

  /** Everything one run tells its surface and session, start to end. */
  function Story(rounds: seq<Entry>, ok: bool): seq<Entry> {
    Told(rounds) + LastTurn(ok) + [SessionClosed, SlotReleased, Done(ok)]
  }

  ghost predicate Tells(log: seq<Entry>, tail: seq<Entry>) {
    exists rounds :: Rounds(rounds) && log == Told(rounds) + tail
  }

  predicate BeforeOpening(p: Phase) {
    !Owns(p) && !p.Finishing? && !p.Ended?
  }

  /** What a thread's log must read in each of its phases. */
  ghost predicate Fits(th: Thread) {
    (th.opening.None? ==> BeforeOpening(th.phase) || th.phase.Ended?) &&
    match th.phase
    case Opening => th.log == []
    case OpenFailed => th.log == []
    case Starting => th.log == [SessionOpened]
    case Turning(_) => Tells(th.log, [])
    case TurnOver(_) => Tells(th.log, [])
    case Draining(ok) => Tells(th.log, LastTurn(ok))
    case Closing(ok) => Tells(th.log, LastTurn(ok))
    case Releasing(ok) => Tells(th.log, LastTurn(ok) + [SessionClosed])
    case Finishing(ok) => Tells(th.log, LastTurn(ok) + [SessionClosed, SlotReleased])
    case Ended => th.log == [] || (th.opening.Some? && exists ok :: Tells(th.log, LastTurn(ok) + [SessionClosed, SlotReleased, Done(ok)]))
    case _ => th.log == [] && th.opening.None?
  }

  lemma TellsStart(log: seq<Entry>)
    requires log == [SessionOpened, OnStart]
    ensures Tells(log, [])
  {
    assert Rounds([]) && log == Told([]) + [];
  }

  lemma TellsMore(log: seq<Entry>, tail: seq<Entry>, more: seq<Entry>)
    requires Tells(log, tail)
    ensures Tells(log + more, tail + more)
  {
    var rounds :| Rounds(rounds) && log == Told(rounds) + tail;
    assert log + more == Told(rounds) + (tail + more);
  }

  lemma TellsRound(log: seq<Entry>, ok: bool, next: Prompt)
    requires Tells(log, LastTurn(ok))
    ensures Tells(log + ((if ok then [] else [TurnError]) + [Dequeued(next)]), [])
  {
    var rounds :| Rounds(rounds) && log == Told(rounds) + LastTurn(ok);
    var round := [if ok then TurnDone else TurnError, Dequeued(next)];
    assert (rounds + round)[..|rounds + round| - 2] == rounds;
    hide Rounds;
    if ok {
      assert log + [Dequeued(next)] == Told(rounds + round) + [];
    } else {
      assert log + [TurnError, Dequeued(next)] == Told(rounds + round) + [];
    }
    assert log + ((if ok then [] else [TurnError]) + [Dequeued(next)]) == Told(rounds + round) + [];
  }

  lemma TakeHeadSparesThreads(s: State, t: Tid, key: Key)
    requires Queue(s.shared, key) != []
    ensures TakeHead(s, t, key).threads == s.threads && TakeHead(s, t, key).inboxes == s.inboxes
  {
  }

  lemma DrainingFits(s: State, t: Tid, ok: bool)
    requires t in s.threads && s.threads[t].phase.Draining? && Fits(s.threads[t])
    ensures t in RunStep(s, t, ok).threads && Fits(RunStep(s, t, ok).threads[t])
  {
    hide TakeHead, Tells, Queue;
    var th := s.threads[t];
    var q := Queue(s.shared, th.key);
    if q == [] {
      assert th.log + [] == th.log;
    } else {
      TakeHeadSparesThreads(s, t, th.key);
      TellsRound(th.log, th.phase.ok, q[0]);
    }
  }

  lemma OpeningFits(s: State, t: Tid, ok: bool)
    requires t in s.threads && Fits(s.threads[t])
    requires var p := s.threads[t].phase; p.Opening? || p.OpenFailed? || p.Starting? || p.Turning? || p.TurnOver?
    ensures t in RunStep(s, t, ok).threads && Fits(RunStep(s, t, ok).threads[t])
  {
    hide TakeHead, WithoutSlot, Tells;
    var th := s.threads[t];
    assert th.log + [] == th.log;
    match th.phase {
      case Starting => TellsStart(th.log + [OnStart]);
      case TurnOver(done) =>
        TellsMore(th.log, [], LastTurn(done));
        assert [] + LastTurn(done) == LastTurn(done);
      case _ =>
    }
  }

  lemma ClosingFits(s: State, t: Tid, ok: bool)
    requires t in s.threads && Fits(s.threads[t])
    requires var p := s.threads[t].phase; p.Closing? || p.Releasing? || p.Finishing?
    ensures t in RunStep(s, t, ok).threads && Fits(RunStep(s, t, ok).threads[t])
  {
    hide TakeHead, WithoutSlot, Tells, LastTurn;
    var th := s.threads[t];
    match th.phase {
      case Closing(done) => TellsMore(th.log, LastTurn(done), [SessionClosed]);
      case Releasing(done) =>
        TellsMore(th.log, LastTurn(done) + [SessionClosed], [SlotReleased]);
        assert LastTurn(done) + [SessionClosed] + [SlotReleased] == LastTurn(done) + [SessionClosed, SlotReleased];
      case Finishing(done) =>
        TellsMore(th.log, LastTurn(done) + [SessionClosed, SlotReleased], [Done(done)]);
        assert LastTurn(done) + [SessionClosed, SlotReleased] + [Done(done)] == LastTurn(done) + [SessionClosed, SlotReleased, Done(done)];
      case _ =>
    }
  }

  /** The run has made its last attempt to dequeue. */
  predicate PastDraining(th: Thread) {
    th.phase.Closing? || th.phase.Releasing? || th.phase.Finishing? || (th.phase.Ended? && th.log != [])
  }

  /** Only an empty queue takes a run past its last dequeue. */
  ghost predicate PassesOnlyDrained(s: State, s2: State, t: Tid)
    requires t in s.threads && t in s2.threads
  {
    PastDraining(s2.threads[t]) && !PastDraining(s.threads[t]) ==>
      s.threads[t].phase.Draining? && Queue(s.shared, s.threads[t].key) == []
  }

  lemma RunPasses(s: State, t: Tid, ok: bool)
    requires t in s.threads && (Owns(s.threads[t].phase) || s.threads[t].phase.Finishing?) && Fits(s.threads[t])
    ensures t in RunStep(s, t, ok).threads && PassesOnlyDrained(s, RunStep(s, t, ok), t)
  {
    hide TakeHead, WithoutSlot, Tells, Queue;
  }

  // Threads that are not runs keep an empty log, and open only by winning a slot.

  lemma SubmitFits(s: State, t: Tid, ok: bool)
    requires t in s.threads && Submitting(s.threads[t].phase) && Fits(s.threads[t])
    ensures t in SubmitStep(s, t, ok).threads && Fits(SubmitStep(s, t, ok).threads[t])
    ensures !PastDraining(SubmitStep(s, t, ok).threads[t])
  {
    hide WithQueue, SetQueue, Tells;
    assert s.threads[t].log + [] == [];
  }

  lemma EventFits(s: State, t: Tid, ok: bool)
    requires t in s.threads && Delivering(s.threads[t].phase) && Fits(s.threads[t])
    ensures t in EventStep(s, t, ok).threads && Fits(EventStep(s, t, ok).threads[t])
    ensures !PastDraining(EventStep(s, t, ok).threads[t])
  {
    hide WithQueue, SetQueue, Tells;
    assert s.threads[t].log + [] == [];
  }

  lemma OtherFits(s: State, t: Tid, ok: bool)
    requires t in s.threads && Fits(s.threads[t]) && BeforeOpening(s.threads[t].phase)
    ensures t in OtherStep(s, t, ok).threads && Fits(OtherStep(s, t, ok).threads[t])
    ensures !PastDraining(OtherStep(s, t, ok).threads[t])
  {
    hide WithQueue, SetQueue, Tells;
    assert s.threads[t].log + [] == [];
  }

  ghost predicate AllFit(threads: map<Tid, Thread>) {
    forall t :: t in threads ==> Fits(threads[t])
  }

  lemma MoverFits(s: State, l: Label)
    requires Enabled(s, l) && AllFit(s.threads) && !Spawns(l) && !l.Park? && !l.Fold?
    ensures Mover(l) in s.threads && Mover(l) in Next(s, l).threads
    ensures Fits(Next(s, l).threads[Mover(l)]) && PassesOnlyDrained(s, Next(s, l), Mover(l))
  {
    hide SubmitStep, EventStep, RunStep, OtherStep, Tells, DropQueue;
    match l {
      case Go(t, ok) =>
        hide Fits, PastDraining;
        var p := s.threads[t].phase;
        if Submitting(p) {
          SubmitFits(s, t, ok);
        } else if Delivering(p) {
          EventFits(s, t, ok);
        } else if !Owns(p) && !p.Finishing? {
          OtherFits(s, t, ok);
        } else {
          RunPasses(s, t, ok);
          if p.Draining? {
            DrainingFits(s, t, ok);
          } else if p.Closing? || p.Releasing? || p.Finishing? {
            ClosingFits(s, t, ok);
          } else {
            OpeningFits(s, t, ok);
          }
        }
      case Drop(t, key) => DropFits(s, t, key);
    }
  }

  lemma DropFits(s: State, t: Tid, key: Key)
    requires Enabled(s, Drop(t, key)) && Fits(s.threads[t])
    ensures var s2 := Next(s, Drop(t, key)); t in s2.threads && Fits(s2.threads[t]) && PassesOnlyDrained(s, s2, t)
  {
    hide Tells;
    assert s.threads[t].log + [] == [];
  }

  lemma SpawnFits(s: State, l: Label)
    requires Enabled(s, l) && Spawns(l)
    ensures var s2 := Next(s, l);
            Mover(l) in s2.threads && Fits(s2.threads[Mover(l)]) && !PastDraining(s2.threads[Mover(l)])
  {
    hide Tells;
  }

  lemma FitKept(s: State, l: Label)
    requires Enabled(s, l) && AllFit(s.threads)
    ensures AllFit(Next(s, l).threads)
  {
    hide Next, Fits;
    StepShape(s, l);
    if Spawns(l) {
      SpawnFits(s, l);
    } else if !l.Park? && !l.Fold? {
      MoverFits(s, l);
    }
  }

  lemma {:induction false} AlwaysFit(s: State, ls: seq<Label>)
    requires AllFit(s.threads) && AllEnabled(s, ls)
    ensures AllFit(After(s, ls).threads)
  {
    hide Next, AllFit;
    if ls != [] {
      AlwaysFit(s, ls[..|ls| - 1]);
      FitKept(After(s, ls[..|ls| - 1]), ls[|ls| - 1]);
    }
  }

  /** In every interleaving, a run that ended after opening its session told exactly
      this: the opening, its start, each earlier turn followed by the prompt dequeued
      next, a last TurnDone only if the last turn succeeded, then the session closed,
      the slot freed, and one Done carrying that turn's outcome. A thread that ended
      with nothing told never opened a session. */
  lemma TraceOfARun(ls: seq<Label>, t: Tid)
    requires AllEnabled(INITIAL, ls) && t in After(INITIAL, ls).threads
    requires After(INITIAL, ls).threads[t].phase.Ended?
    ensures var log := After(INITIAL, ls).threads[t].log;
            log == [] || exists rounds, ok :: Rounds(rounds) && log == Story(rounds, ok)
  {
    hide Next;
    AlwaysFit(INITIAL, ls);
    var th := After(INITIAL, ls).threads[t];
    if th.log != [] {
      var ok :| Tells(th.log, LastTurn(ok) + [SessionClosed, SlotReleased, Done(ok)]);
      var rounds :| Rounds(rounds) && th.log == Told(rounds) + (LastTurn(ok) + [SessionClosed, SlotReleased, Done(ok)]);
      assert th.log == Story(rounds, ok);
    }
  }

  /** Done is said once, last, and only after the close and the release. */
  lemma StoryEndsOnce(rounds: seq<Entry>, ok: bool, i: nat)
    requires Rounds(rounds) && i < |Story(rounds, ok)|
    ensures var log := Story(rounds, ok);
            && (log[i].Done? <==> i == |log| - 1) && (log[i].SessionClosed? <==> i == |log| - 3)
            && (log[i].SlotReleased? <==> i == |log| - 2) && (log[i].OnStart? <==> i == 1)
  {
    if 2 <= i < 2 + |rounds| {
      RoundsSayNoMore(rounds, i - 2);
    }
  }

  lemma {:induction false} RoundsSayNoMore(rounds: seq<Entry>, i: nat)
    requires Rounds(rounds) && i < |rounds|
    ensures rounds[i].TurnDone? || rounds[i].TurnError? || rounds[i].Dequeued?
    ensures rounds[i].Dequeued? <==> i % 2 == 1
  {
    if |rounds| >= 2 {
      if i < |rounds| - 2 {
        RoundsSayNoMore(rounds[..|rounds| - 2], i);
      }
      RoundsAreEven(rounds);
    }
  }

  lemma {:induction false} RoundsAreEven(rounds: seq<Entry>)
    requires Rounds(rounds)
    ensures |rounds| % 2 == 0
  {
    if rounds != [] {
      RoundsAreEven(rounds[..|rounds| - 2]);
    }
  }
}
