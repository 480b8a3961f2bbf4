/** Background events: each is popped exactly when its run's slot is won. */
module Events {
  import opened Outcome
  import opened Protocol
  import opened Callbacks

  /** Thread t's run of key k opens with background event ev. */
  predicate OpenedBy(threads: map<Tid, Thread>, t: Tid, k: Key, ev: Event) {
    t in threads && threads[t].key == k && threads[t].opening == Some(EventWork(ev))
  }

  /** Thread t is about to win its key's slot with the oldest parked event. */
  predicate Wins(s: State, l: Label) {
    && l.Go? && l.t in s.threads && s.threads[l.t].phase.EventReserving?
    && s.threads[l.t].key !in s.shared.runs && Parked(InboxOf(s, s.threads[l.t].key)) != []
  }

  ghost predicate SameOpening(s: State, s2: State, t: Tid)
    requires t in s.threads
  {
    t in s2.threads && s2.threads[t].key == s.threads[t].key &&
    forall ev :: s2.threads[t].opening == Some(EventWork(ev)) <==> s.threads[t].opening == Some(EventWork(ev))
  }

  /** No event is popped, and every run opens with what it opened with before. */
  ghost predicate PopsNothing(s: State, s2: State) {
    forall k :: InboxOf(s2, k).popped == InboxOf(s, k).popped && InboxOf(s, k).arrived <= InboxOf(s2, k).arrived
  }

  lemma SubmitPops(s: State, t: Tid, ok: bool)
    requires t in s.threads && Submitting(s.threads[t].phase) && s.threads[t].opening.None?
    ensures PopsNothing(s, SubmitStep(s, t, ok)) && SameOpening(s, SubmitStep(s, t, ok), t)
  {
    hide WithQueue, SetQueue;
  }

  lemma EventPops(s: State, t: Tid, ok: bool)
    requires t in s.threads && Delivering(s.threads[t].phase) && !Wins(s, Go(t, ok))
    ensures PopsNothing(s, EventStep(s, t, ok)) && SameOpening(s, EventStep(s, t, ok), t)
  {
  }

  lemma RunPops(s: State, t: Tid, ok: bool)
    requires t in s.threads
    ensures PopsNothing(s, RunStep(s, t, ok)) && SameOpening(s, RunStep(s, t, ok), t)
  {
    hide Queue, WithoutSlot, TakeHead;
    if s.threads[t].phase.Draining? && Queue(s.shared, s.threads[t].key) != [] {
      TakeHeadSparesThreads(s, t, s.threads[t].key);
    }
  }

  lemma OtherPops(s: State, t: Tid, ok: bool)
    requires t in s.threads
    ensures PopsNothing(s, OtherStep(s, t, ok)) && SameOpening(s, OtherStep(s, t, ok), t)
  {
  }

  lemma QuietStep(s: State, l: Label)
    requires Enabled(s, l) && AllFit(s.threads) && !Wins(s, l)
    ensures PopsNothing(s, Next(s, l))
    ensures !Spawns(l) && !l.Park? ==> Mover(l) in s.threads && SameOpening(s, Next(s, l), Mover(l))
  {
    hide SubmitStep, EventStep, RunStep, OtherStep, Tells;
    match l {
      case Go(t, ok) =>
        hide PopsNothing, SameOpening, Wins;
        var p := s.threads[t].phase;
        if Submitting(p) {
          assert Fits(s.threads[t]);
          SubmitPops(s, t, ok);
        } else if Delivering(p) {
          EventPops(s, t, ok);
        } else if Owns(p) || p.Finishing? {
          RunPops(s, t, ok);
        } else {
          OtherPops(s, t, ok);
        }
      case _ =>
    }
  }

  // Winning a slot for an event pops that key's oldest parked event, and no other.
  lemma WinningPops(s: State, l: Label)
    requires Enabled(s, l) && Wins(s, l)
    ensures var s2, t, k := Next(s, l), l.t, s.threads[l.t].key;
            var b := InboxOf(s, k);
            && HoldsSlot(s2.shared.runs, t, k) && OpenedBy(s2.threads, t, k, Parked(b)[0])
            && s2.threads == s.threads[t := s2.threads[t]]
            && InboxOf(s2, k) == b.(popped := b.popped + [(t, Parked(b)[0])])
            && forall k2 :: k2 != k ==> InboxOf(s2, k2) == InboxOf(s, k2)
  {
  }

  /** A step pops an event of a key exactly if it is the step by which a thread of that
      key, waiting to reserve for an event, comes to open a run. */
  lemma PoppedExactlyWithASlot(s: State, l: Label, k: Key)
    requires Enabled(s, l) && AllFit(s.threads)
    ensures InboxOf(Next(s, l), k).popped != InboxOf(s, k).popped <==>
            && l.Go? && s.threads[l.t].key == k && s.threads[l.t].phase.EventReserving?
            && Next(s, l).threads[l.t].phase.Opening? && HoldsSlot(Next(s, l).shared.runs, l.t, k)
  {
    if Wins(s, l) {
      WinningPops(s, l);
      OpensByWinning(s, l);
    } else {
      QuietStep(s, l);
      if l.Go? && s.threads[l.t].phase.EventReserving? {
        OpensByWinning(s, l);
      }
    }
  }

  lemma OpensByWinning(s: State, l: Label)
    requires Enabled(s, l) && l.Go? && s.threads[l.t].phase.EventReserving?
    ensures l.t in Next(s, l).threads && (Next(s, l).threads[l.t].phase.Opening? <==> Wins(s, l))
  {
  }

  /** The popped events are the first that arrived, each by its own thread. */
  predicate InOrder(b: Inbox) {
    && |b.popped| <= |b.arrived|
    && (forall i :: 0 <= i < |b.popped| ==> b.popped[i].1 == b.arrived[i])
    && (forall i, j :: 0 <= i < j < |b.popped| ==> b.popped[i].0 != b.popped[j].0)
  }

  ghost predicate PoppedMatchesOpened(s: State) {
    forall k, t: Tid, ev :: (t, ev) in InboxOf(s, k).popped <==> OpenedBy(s.threads, t, k, ev)
  }

  ghost predicate EventsOK(s: State) {
    PoppedMatchesOpened(s) && forall k :: InOrder(InboxOf(s, k))
  }

  lemma QuietKeepsEvents(s: State, l: Label)
    requires Enabled(s, l) && AllFit(s.threads) && !Wins(s, l) && EventsOK(s)
    ensures EventsOK(Next(s, l))
  {
    hide Next, Fits;
    var s2 := Next(s, l);
    QuietStep(s, l);
    StepShape(s, l);
    forall t: Tid, k, ev ensures OpenedBy(s2.threads, t, k, ev) <==> OpenedBy(s.threads, t, k, ev) {
      if !Spawns(l) && !l.Park? && !l.Fold? && t == Mover(l) {
        assert SameOpening(s, s2, t);
      }
    }
  }

  lemma WinningKeepsEvents(s: State, l: Label)
    requires Enabled(s, l) && AllFit(s.threads) && Wins(s, l) && EventsOK(s)
    ensures EventsOK(Next(s, l))
  {
    hide Next;
    var s2, t, k := Next(s, l), l.t, s.threads[l.t].key;
    WinningPops(s, l);
    assert Fits(s.threads[t]);
    var b := InboxOf(s, k);
    forall ev ensures (t, ev) !in b.popped {
      assert (t, ev) in b.popped <==> OpenedBy(s.threads, t, k, ev);
    }
    forall i | 0 <= i < |b.popped| ensures b.popped[i].0 != t {
      assert b.popped[i] in b.popped;
    }
    forall k2, t2: Tid, ev ensures (t2, ev) in InboxOf(s2, k2).popped <==> OpenedBy(s2.threads, t2, k2, ev) {
      assert (t2, ev) in InboxOf(s, k2).popped <==> OpenedBy(s.threads, t2, k2, ev);
    }
  }

  /** In every interleaving, and for every key: the events popped are the first that
      were parked, in order and each once; and a thread popped an event exactly if it
      won a slot with it and opened its run with it. */
  lemma {:induction false} EventsPoppedWithTheirSlots(ls: seq<Label>)
    requires AllEnabled(INITIAL, ls)
    ensures EventsOK(After(INITIAL, ls))
  {
    hide Next, Fits;
    if ls != [] {
      var s, l := After(INITIAL, ls[..|ls| - 1]), ls[|ls| - 1];
      EventsPoppedWithTheirSlots(ls[..|ls| - 1]);
      AlwaysFit(INITIAL, ls[..|ls| - 1]);
      if Wins(s, l) {
        WinningKeepsEvents(s, l);
      } else {
        QuietKeepsEvents(s, l);
      }
    }
  }
}
