/** What becomes of queued prompts, over every interleaving: none is lost, repeated or
    overtaken, and what one run leaves the next run of its key drains. */
module Deliveries {
  import opened Protocol
  import opened Callbacks
  import opened Exclusion

  // ---------- conservation and order of queued prompts ----------

  function Prompts(processed: seq<(Prompt, Fate)>): (r: seq<Prompt>)
    ensures |r| == |processed|
  {
    seq(|processed|, i requires 0 <= i < |processed| => processed[i].0)
  }

  /** What one step does to a key's queue. */
  datatype Traffic =
    | Quiet
    | Accepts(key: Key, prompt: Prompt)
    | Takes(key: Key, who: Tid)
    | Drops(key: Key, who: Tid)

  /** Every prompt the queue accepted has left it, in order, or still waits in it. */
  predicate Balanced(g: Ledger, q: seq<Prompt>) {
    g.accepted == Prompts(g.processed) + q && |q| <= MAX_QUEUED
  }

  predicate Grew(g: Ledger, g2: Ledger) {
    g.accepted <= g2.accepted && g.processed <= g2.processed
  }

  predicate Flow(key: Key, g: Ledger, q: seq<Prompt>, tr: Traffic, g2: Ledger, q2: seq<Prompt>) {
    if tr.Quiet? || tr.key != key then g2 == g && q2 == q
    else
      match tr
      case Accepts(_, p) => |q| < MAX_QUEUED && q2 == q + [p] && g2 == g.(accepted := g.accepted + [p])
      case Takes(_, t) => q != [] && q2 == q[1..] && g2 == g.(processed := g.processed + [(q[0], Taken(t))])
      case Drops(_, t) => q2 == [] && g2 == g.(processed := g.processed + DroppedBy(t, q))
  }

  function TrafficOf(s: State, l: Label): Traffic
    requires Enabled(s, l)
  {
    match l
    case Go(t, _) =>
      var th := s.threads[t];
      if th.phase.Queueing? && |Queue(s.shared, th.key)| < MAX_QUEUED then Accepts(th.key, th.phase.prompt)
      else if th.phase.Draining? && Queue(s.shared, th.key) != [] then Takes(th.key, t)
      else Quiet
    case Fold(t) => Takes(s.threads[t].key, t)
    case Drop(t, key) => if key in s.shared.queues then Drops(key, t) else Quiet
    case _ => Quiet
  }

  ghost predicate Flows(s: State, s2: State, tr: Traffic) {
    forall k :: Flow(k, LedgerOf(s, k), Queue(s.shared, k), tr, LedgerOf(s2, k), Queue(s2.shared, k))
  }

  lemma SubmitFlows(s: State, t: Tid, ok: bool)
    requires t in s.threads && Submitting(s.threads[t].phase)
    ensures Flows(s, SubmitStep(s, t, ok), TrafficOf(s, Go(t, ok)))
  {
  }

  lemma EventFlows(s: State, t: Tid, ok: bool)
    requires t in s.threads && Delivering(s.threads[t].phase)
    ensures Flows(s, EventStep(s, t, ok), Quiet)
  {
  }

  lemma RunFlows(s: State, t: Tid, ok: bool)
    requires t in s.threads && (Owns(s.threads[t].phase) || s.threads[t].phase.Finishing?)
    ensures Flows(s, RunStep(s, t, ok), TrafficOf(s, Go(t, ok)))
  {
  }

  lemma OtherFlows(s: State, t: Tid, ok: bool)
    requires t in s.threads
    ensures Flows(s, OtherStep(s, t, ok), Quiet)
  {
  }

  lemma StepFlows(s: State, l: Label)
    requires Enabled(s, l)
    ensures Flows(s, Next(s, l), TrafficOf(s, l))
  {
    hide SubmitStep, EventStep, RunStep, OtherStep;
    match l {
      case Go(t, ok) =>
        hide Flows;
        var p := s.threads[t].phase;
        if Submitting(p) {
          SubmitFlows(s, t, ok);
        } else if Delivering(p) {
          EventFlows(s, t, ok);
        } else if Owns(p) || p.Finishing? {
          RunFlows(s, t, ok);
        } else {
          OtherFlows(s, t, ok);
        }
      case _ =>
    }
  }

  lemma FlowKeepsBalance(key: Key, g: Ledger, q: seq<Prompt>, tr: Traffic, g2: Ledger, q2: seq<Prompt>)
    requires Balanced(g, q) && Flow(key, g, q, tr, g2, q2)
    ensures Balanced(g2, q2) && Grew(g, g2)
  {
    if tr.Takes? && tr.key == key {
      assert Prompts(g2.processed) == Prompts(g.processed) + [q[0]];
      assert q == [q[0]] + q[1..];
    } else if tr.Drops? && tr.key == key {
      assert Prompts(g2.processed) == Prompts(g.processed) + q;
    }
  }

  ghost predicate LedgersOK(s: State) {
    forall k :: Balanced(LedgerOf(s, k), Queue(s.shared, k))
  }

  lemma LedgersKept(s: State, l: Label)
    requires LedgersOK(s) && Enabled(s, l)
    ensures LedgersOK(Next(s, l)) && forall k :: Grew(LedgerOf(s, k), LedgerOf(Next(s, l), k))
  {
    StepFlows(s, l);
    var s2 := Next(s, l);
    hide Next, Balanced, Flow, Grew;
    forall k ensures Balanced(LedgerOf(s2, k), Queue(s2.shared, k)) && Grew(LedgerOf(s, k), LedgerOf(s2, k)) {
      FlowKeepsBalance(k, LedgerOf(s, k), Queue(s.shared, k), TrafficOf(s, l), LedgerOf(s2, k), Queue(s2.shared, k));
    }
  }

  /** In every interleaving and for every key, the prompts a queue accepted are the
      ones that left it, each once and in order, followed by exactly what waits; and
      neither record is ever rewritten. */
  lemma {:induction false} PromptsAreConserved(s: State, ls: seq<Label>, key: Key)
    requires LedgersOK(s) && AllEnabled(s, ls)
    ensures LedgersOK(After(s, ls))
    ensures Balanced(LedgerOf(After(s, ls), key), Queue(After(s, ls).shared, key))
    ensures Grew(LedgerOf(s, key), LedgerOf(After(s, ls), key))
  {
    hide Next, Balanced;
    if ls != [] {
      PromptsAreConserved(s, ls[..|ls| - 1], key);
      LedgersKept(After(s, ls[..|ls| - 1]), ls[|ls| - 1]);
    }
  }

  /** A prompt is taken from a queue only by a run of that key, from inside a turn or
      between two; and the slot is that run's wherever slots and owners match. */
  lemma OnlyOwnersTake(s: State, l: Label)
    requires Enabled(s, l) && TrafficOf(s, l).Takes?
    ensures var tr := TrafficOf(s, l);
            && IsOwner(s, tr.who, tr.key) && IsOwner(Next(s, l), tr.who, tr.key)
            && (s.threads[tr.who].phase == Turning(true) || s.threads[tr.who].phase.Draining?)
            && (SlotsOK(s) ==> HoldsSlot(s.shared.runs, tr.who, tr.key))
  {
    hide Queue, LedgerOf, SetQueue;
  }

  // ---------- the next run of a key drains what an earlier one left ----------

  ghost predicate IsPast(s: State, t: Tid) {
    t in s.threads && PastDraining(s.threads[t])
  }

  lemma PassingStep(s: State, l: Label, t: Tid)
    requires Enabled(s, l) && AllFit(s.threads) && !IsPast(s, t) && IsPast(Next(s, l), t)
    ensures t in s.threads && Next(s, l).threads[t].key == s.threads[t].key
    ensures Queue(s.shared, s.threads[t].key) == []
    ensures l.Go? && l.t == t && s.threads[t].phase.Draining?
  {
    hide Next, Fits, PastDraining;
    StepShape(s, l);
    if Spawns(l) {
      SpawnFits(s, l);
    } else if !l.Park? && !l.Fold? {
      MoverFits(s, l);
    }
  }

  /** Passing its last dequeue, a run leaves every queue and record as it was. */
  lemma PassingMovesNothing(s: State, l: Label, t: Tid, key: Key)
    requires Enabled(s, l) && AllFit(s.threads) && !IsPast(s, t) && IsPast(Next(s, l), t)
    ensures Queue(Next(s, l).shared, key) == Queue(s.shared, key) && LedgerOf(Next(s, l), key) == LedgerOf(s, key)
  {
    PassingStep(s, l, t);
    StepFlows(s, l);
    hide Next, Queue, LedgerOf, IsPast, AllFit;
    assert TrafficOf(s, l) == Quiet;
  }

  lemma KeyKept(s: State, l: Label, t: Tid)
    requires Enabled(s, l) && t in s.threads
    ensures t in Next(s, l).threads && Next(s, l).threads[t].key == s.threads[t].key
  {
    hide Next;
    StepShape(s, l);
  }

  /** A prompt that a queue had accepted at any earlier moment, even one that landed
      after the key's previous run had stopped reading, has left the queue by the time
      a later run of that key ends: every run that passes its last dequeue after s has
      taken, or a cancel has dropped, all that was accepted by s. */
  lemma {:induction false} NextRunDrains(s: State, ls: seq<Label>, t: Tid)
    requires LedgersOK(s) && AllFit(s.threads) && AllEnabled(s, ls)
    requires !IsPast(s, t) && IsPast(After(s, ls), t)
    ensures var key := After(s, ls).threads[t].key;
            LedgerOf(s, key).accepted <= Prompts(LedgerOf(After(s, ls), key).processed)
  {
    hide Next, Balanced, PastDraining, Fits;
    var before, l := ls[..|ls| - 1], ls[|ls| - 1];
    var s1 := After(s, before);
    AlwaysFit(s, before);
    var key := After(s, ls).threads[t].key;
    PromptsAreConserved(s, before, key);
    LedgersKept(s1, l);
    if IsPast(s1, t) {
      NextRunDrains(s, before, t);
      KeyKept(s1, l, t);
    } else {
      PassingStep(s1, l, t);
      BalancedEmpty(LedgerOf(s1, key));
    }
  }

  lemma BalancedEmpty(g: Ledger)
    requires Balanced(g, [])
    ensures g.accepted == Prompts(g.processed)
  {
  }

  // ---------- what waits, and since when ----------

  /** No step takes a prompt of the key or drops its queue. */
  ghost predicate LeavesAlone(s: State, ls: seq<Label>, key: Key)
    requires AllEnabled(s, ls)
  {
    ls == [] ||
    (LeavesAlone(s, ls[..|ls| - 1], key) && !Removes(TrafficOf(After(s, ls[..|ls| - 1]), ls[|ls| - 1]), key))
  }

  predicate Removes(tr: Traffic, key: Key) {
    (tr.Takes? || tr.Drops?) && tr.key == key
  }

  /** Some step puts a prompt of the key into its queue. */
  ghost predicate SomeAccepted(s: State, ls: seq<Label>, key: Key)
    requires AllEnabled(s, ls)
  {
    ls != [] &&
    (SomeAccepted(s, ls[..|ls| - 1], key) ||
     (TrafficOf(After(s, ls[..|ls| - 1]), ls[|ls| - 1]).Accepts? && TrafficOf(After(s, ls[..|ls| - 1]), ls[|ls| - 1]).key == key))
  }

  /** From any moment at which a key's queue is empty, and until a prompt is next taken or
      the queue dropped, what waits is exactly what was accepted since; so a prompt is
      left waiting exactly if one was accepted. */
  lemma {:induction false} WaitingIsWhatCameSince(s: State, ls: seq<Label>, key: Key)
    requires AllEnabled(s, ls) && Queue(s.shared, key) == [] && LeavesAlone(s, ls, key)
    ensures var now := After(s, ls);
            && LedgerOf(now, key).accepted == LedgerOf(s, key).accepted + Queue(now.shared, key)
            && LedgerOf(now, key).processed == LedgerOf(s, key).processed
            && (Queue(now.shared, key) != [] <==> SomeAccepted(s, ls, key))
  {
    hide Next, Queue, LedgerOf, TrafficOf;
    if ls != [] {
      var before, l := ls[..|ls| - 1], ls[|ls| - 1];
      WaitingIsWhatCameSince(s, before, key);
      StepFlows(After(s, before), l);
    }
  }

  /** After a run of a key has passed its last dequeue, and until a later run takes or a
      cancel drops, exactly the prompts accepted since then wait: one is stranded exactly
      if it was accepted after that dequeue. */
  lemma StrandedExactly(s: State, l: Label, t: Tid, key: Key, passed: State, ls: seq<Label>)
    requires AllFit(s.threads) && Enabled(s, l) && passed == Next(s, l)
    requires !IsPast(s, t) && IsPast(passed, t) && passed.threads[t].key == key
    requires AllEnabled(passed, ls) && LeavesAlone(passed, ls, key)
    ensures var now := After(passed, ls);
            && LedgerOf(now, key).accepted == LedgerOf(s, key).accepted + Queue(now.shared, key)
            && (Queue(now.shared, key) != [] <==> SomeAccepted(passed, ls, key))
  {
    hide TrafficOf;
    PassingStep(s, l, t);
    PassingMovesNothing(s, l, t, key);
    hide Next;
    WaitingIsWhatCameSince(passed, ls, key);
  }
}
