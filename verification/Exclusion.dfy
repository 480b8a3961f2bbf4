/** Who holds what, over every interleaving: one run to a key, and one turn or
    compaction to a session. */
module Exclusion {
  import opened Outcome
  import opened Protocol

  // ---------- per-key exclusion ----------

  /** A key is busy exactly when one reserved, unreleased run owns it. */
  ghost predicate SlotsMatchOwners(runs: map<Key, Tid>, threads: map<Tid, Thread>) {
    && (forall t :: t in threads ==> (Owns(threads[t].phase) <==> HoldsSlot(runs, t, threads[t].key)))
    && (forall k :: k in runs ==> runs[k] in threads && threads[runs[k]].key == k)
  }

  lemma SlotUnmoved(runs: map<Key, Tid>, threads: map<Tid, Thread>, t: Tid, th: Thread)
    requires SlotsMatchOwners(runs, threads)
    requires if t in threads then threads[t].key == th.key && (Owns(threads[t].phase) <==> Owns(th.phase)) else !Owns(th.phase)
    ensures SlotsMatchOwners(runs, threads[t := th])
  {
  }

  lemma SlotWon(runs: map<Key, Tid>, threads: map<Tid, Thread>, t: Tid, th: Thread)
    requires SlotsMatchOwners(runs, threads) && t in threads && threads[t].key == th.key
    requires th.key !in runs && Owns(th.phase)
    ensures SlotsMatchOwners(runs[th.key := t], threads[t := th])
  {
  }

  lemma SlotFreed(runs: map<Key, Tid>, threads: map<Tid, Thread>, t: Tid, th: Thread)
    requires SlotsMatchOwners(runs, threads) && t in threads && threads[t].key == th.key
    requires Owns(threads[t].phase) && !Owns(th.phase)
    ensures SlotsMatchOwners(runs - {th.key}, threads[t := th])
  {
    assert HoldsSlot(runs, t, th.key);
  }

  ghost predicate SlotsOK(s: State) {
    SlotsMatchOwners(s.shared.runs, s.threads)
  }

  lemma SlotsKeptBySubmit(s: State, t: Tid, ok: bool)
    requires SlotsOK(s) && t in s.threads && Submitting(s.threads[t].phase)
    ensures SlotsOK(SubmitStep(s, t, ok))
  {
    hide SlotsMatchOwners;
    var th, after := s.threads[t], SubmitStep(s, t, ok).threads[t];
    if th.phase.Reserving? && th.key !in s.shared.runs {
      SlotWon(s.shared.runs, s.threads, t, after);
    } else {
      SlotUnmoved(s.shared.runs, s.threads, t, after);
    }
  }

  lemma SlotsKeptByEvent(s: State, t: Tid, ok: bool)
    requires SlotsOK(s) && t in s.threads && Delivering(s.threads[t].phase)
    ensures SlotsOK(EventStep(s, t, ok))
  {
    hide SlotsMatchOwners;
    var th, after := s.threads[t], EventStep(s, t, ok).threads[t];
    if th.phase.EventReserving? && th.key !in s.shared.runs && Parked(InboxOf(s, th.key)) != [] {
      SlotWon(s.shared.runs, s.threads, t, after);
    } else {
      SlotUnmoved(s.shared.runs, s.threads, t, after);
    }
  }

  lemma SlotsKeptByRun(s: State, t: Tid, ok: bool)
    requires SlotsOK(s) && t in s.threads && (Owns(s.threads[t].phase) || s.threads[t].phase.Finishing?)
    ensures SlotsOK(RunStep(s, t, ok))
  {
    hide SlotsMatchOwners;
    var th, after := s.threads[t], RunStep(s, t, ok).threads[t];
    if th.phase.OpenFailed? || th.phase.Releasing? {
      SlotFreed(s.shared.runs, s.threads, t, after);
    } else {
      SlotUnmoved(s.shared.runs, s.threads, t, after);
    }
  }

  lemma SlotsKeptByOthers(s: State, t: Tid, ok: bool)
    requires SlotsOK(s) && t in s.threads && !s.threads[t].phase.CancelingAll?
    requires !Owns(s.threads[t].phase)
    ensures SlotsOK(OtherStep(s, t, ok))
  {
    hide SlotsMatchOwners;
    if OtherStep(s, t, ok) != s {
      SlotUnmoved(s.shared.runs, s.threads, t, OtherStep(s, t, ok).threads[t]);
    }
  }

  lemma SlotsKeptBySpawn(s: State, t: Tid, key: Key, session: Session, phase: Phase)
    requires SlotsOK(s) && t !in s.threads && !Owns(phase)
    ensures SlotsOK(Spawned(s, t, key, session, phase))
  {
    hide SlotsMatchOwners;
    SlotUnmoved(s.shared.runs, s.threads, t, Thread(key, session, phase, None, []));
  }

  lemma SlotsKeptByDrop(s: State, t: Tid, key: Key)
    requires SlotsOK(s) && Enabled(s, Drop(t, key))
    ensures SlotsOK(Next(s, Drop(t, key)))
  {
    hide SlotsMatchOwners;
    SlotUnmoved(s.shared.runs, s.threads, t, Next(s, Drop(t, key)).threads[t]);
  }

  lemma SlotsKept(s: State, l: Label)
    requires SlotsOK(s) && Enabled(s, l) && !(l.Go? && s.threads[l.t].phase.CancelingAll?)
    ensures SlotsOK(Next(s, l))
  {
    hide SubmitStep, EventStep, RunStep, OtherStep, SlotsMatchOwners, Spawned, DropQueue;
    match l {
      case Go(t, ok) =>
        var p := s.threads[t].phase;
        if Submitting(p) {
          SlotsKeptBySubmit(s, t, ok);
        } else if Delivering(p) {
          SlotsKeptByEvent(s, t, ok);
        } else if Owns(p) || p.Finishing? {
          SlotsKeptByRun(s, t, ok);
        } else {
          SlotsKeptByOthers(s, t, ok);
        }
      case Park(_, _) =>
      case Fold(_) =>
      case Drop(t, key) => SlotsKeptByDrop(s, t, key);
      case Submit(t, key, session, p) => SlotsKeptBySpawn(s, t, key, session, Checking(p));
      case StartEvent(t, key, session) => SlotsKeptBySpawn(s, t, key, session, EventChecking);
      case Cancel(t, key) => SlotsKeptBySpawn(s, t, key, "", Canceling);
      case CancelAll(t) => SlotsKeptBySpawn(s, t, "", "", CancelingAll);
      case Compact(t, session) => SlotsKeptBySpawn(s, t, "", session, CompactStart);
    }
  }

  /** Clearing every slot leaves slots and owners matched exactly if no slot was taken. */
  lemma ClearingMatchesIff(s: State, t: Tid, ok: bool)
    requires SlotsOK(s) && t in s.threads && s.threads[t].phase.CancelingAll?
    ensures SlotsOK(OtherStep(s, t, ok)) <==> s.shared.runs == map[]
  {
    var after := OtherStep(s, t, ok);
    if s.shared.runs != map[] {
      var k :| k in s.shared.runs;
      var owner := s.shared.runs[k];
      assert HoldsSlot(s.shared.runs, owner, k) && Owns(s.threads[owner].phase);
      assert owner != t && after.threads[owner] == s.threads[owner];
      assert !HoldsSlot(after.shared.runs, owner, k);
    } else {
      SlotUnmoved(s.shared.runs, s.threads, t, after.threads[t]);
    }
  }

  /** Thread r is a run of key in a phase between winning its slot and freeing it. */
  ghost predicate IsOwner(s: State, r: Tid, key: Key) {
    r in s.threads && s.threads[r].key == key && Owns(s.threads[r].phase)
  }

  /** Every key reads as busy exactly while one run owns it, and no key has two. */
  ghost predicate OneOwnerEach(s: State) {
    && (forall key :: key in s.shared.runs <==> exists r :: IsOwner(s, r, key))
    && (forall r, q, key :: IsOwner(s, r, key) && IsOwner(s, q, key) ==> r == q)
  }

  lemma MatchedIsOneOwnerEach(s: State)
    requires SlotsOK(s)
    ensures OneOwnerEach(s)
  {
    forall key | key in s.shared.runs ensures IsOwner(s, s.shared.runs[key], key) {
      assert HoldsSlot(s.shared.runs, s.shared.runs[key], key);
    }
  }

  /** A step that clears the slots finds none taken. */
  ghost predicate QuietCancel(s: State, l: Label) {
    l.Go? && l.t in s.threads && s.threads[l.t].phase.CancelingAll? ==> s.shared.runs == map[]
  }

  ghost predicate QuietCancels(ls: seq<Label>) {
    ls == [] || (QuietCancels(ls[..|ls| - 1]) && QuietCancel(After(INITIAL, ls[..|ls| - 1]), ls[|ls| - 1]))
  }

  /** At every moment of the history, every busy key has its one owner. */
  ghost predicate AlwaysOneOwnerEach(ls: seq<Label>) {
    OneOwnerEach(After(INITIAL, ls)) && (ls == [] || AlwaysOneOwnerEach(ls[..|ls| - 1]))
  }

  lemma QuietStepKeepsSlots(s: State, l: Label)
    requires SlotsOK(s) && Enabled(s, l) && QuietCancel(s, l)
    ensures SlotsOK(Next(s, l))
  {
    hide SlotsOK;
    if l.Go? && s.threads[l.t].phase.CancelingAll? {
      ClearingMatchesIff(s, l.t, l.ok);
    } else {
      SlotsKept(s, l);
    }
  }

  lemma LoudCancelBreaks(s: State, l: Label)
    requires SlotsOK(s) && Enabled(s, l) && !QuietCancel(s, l)
    ensures !OneOwnerEach(Next(s, l))
  {
    var k :| k in s.shared.runs;
    var owner := s.shared.runs[k];
    assert HoldsSlot(s.shared.runs, owner, k) && Owns(s.threads[owner].phase);
    assert owner != l.t && Next(s, l).threads[owner] == s.threads[owner];
    assert IsOwner(Next(s, l), owner, k) && k !in Next(s, l).shared.runs;
  }

  lemma {:induction false} QuietCancelsKeepSlots(ls: seq<Label>)
    requires AllEnabled(INITIAL, ls) && QuietCancels(ls)
    ensures SlotsOK(After(INITIAL, ls)) && AlwaysOneOwnerEach(ls)
  {
    hide Next, SlotsOK, OneOwnerEach, QuietCancel;
    if ls != [] {
      QuietCancelsKeepSlots(ls[..|ls| - 1]);
      QuietStepKeepsSlots(After(INITIAL, ls[..|ls| - 1]), ls[|ls| - 1]);
    } else {
      assert SlotsOK(INITIAL) by { NobodyAtFirst(); }
    }
    MatchedIsOneOwnerEach(After(INITIAL, ls));
  }

  lemma NobodyAtFirst()
    ensures SlotsOK(INITIAL)
  {
  }

  /** Throughout a history every busy key has its one owner, exactly if each cancel-all
      in it finds no key busy. */
  lemma {:induction false} OneOwnerEachExactly(ls: seq<Label>)
    requires AllEnabled(INITIAL, ls)
    ensures AlwaysOneOwnerEach(ls) <==> QuietCancels(ls)
  {
    hide Next, SlotsOK, OneOwnerEach, QuietCancel;
    if QuietCancels(ls) {
      QuietCancelsKeepSlots(ls);
    } else {
      var before := ls[..|ls| - 1];
      OneOwnerEachExactly(before);
      if QuietCancels(before) {
        QuietCancelsKeepSlots(before);
        LoudCancelBreaks(After(INITIAL, before), ls[|ls| - 1]);
      }
    }
  }

  /** In every interleaving whose cancel-alls find no key busy, no two runs of one key own
      its slot, so none execute turns or hold sessions open at once; and the key reads as
      busy exactly while its one run owns the slot, which is then that run's. */
  lemma OneRunPerKey(ls: seq<Label>, t: Tid, u: Tid, key: Key)
    requires AllEnabled(INITIAL, ls) && QuietCancels(ls)
    ensures var s := After(INITIAL, ls);
            && (IsOwner(s, t, key) && IsOwner(s, u, key) ==> t == u)
            && (t in s.threads && HoldsSession(s.threads[t].phase) ==> IsOwner(s, t, s.threads[t].key))
            && (IsOwner(s, t, key) <==> t in s.threads && s.threads[t].key == key && HoldsSlot(s.shared.runs, t, key))
            && (key in s.shared.runs <==> exists r :: IsOwner(s, r, key))
  {
    hide Next;
    QuietCancelsKeepSlots(ls);
    MatchedIsOneOwnerEach(After(INITIAL, ls));
  }

  // ---------- one turn or compaction per session, in every interleaving ----------

  predicate BegunOn(threads: map<Tid, Thread>, t: Tid, x: Session) {
    t in threads && Begun(threads[t].phase) && threads[t].session == x
  }

  /** The coordinator's set is exactly the sessions between a begin and its end, each
      held by one thread. */
  ghost predicate CoordinatorOK(active: set<Session>, threads: map<Tid, Thread>) {
    && (forall x :: x in active <==> exists t :: BegunOn(threads, t, x))
    && (forall t, u, x :: BegunOn(threads, t, x) && BegunOn(threads, u, x) ==> t == u)
  }

  lemma CoordinatorMoves(active: set<Session>, threads: map<Tid, Thread>, t: Tid, th: Thread, active2: set<Session>)
    requires CoordinatorOK(active, threads)
    requires if t in threads
             then threads[t].session == th.session && Admits(active, threads[t].phase, th.phase, th.session, active2)
             else !Begun(th.phase) && active2 == active
    ensures CoordinatorOK(active2, threads[t := th])
  {
    var after := threads[t := th];
    forall u, x | u != t ensures BegunOn(after, u, x) <==> BegunOn(threads, u, x) {
    }
    forall x ensures x in active2 <==> exists u :: BegunOn(after, u, x) {
      if x in active2 {
        if Begun(th.phase) && th.session == x {
          assert BegunOn(after, t, x);
        } else {
          var u :| BegunOn(threads, u, x);
          assert u != t;
          assert BegunOn(after, u, x);
        }
      }
      if exists u :: BegunOn(after, u, x) {
        var u :| BegunOn(after, u, x);
        if u != t {
          assert BegunOn(threads, u, x);
          assert t in threads && Begun(threads[t].phase) && th.session == x ==> BegunOn(threads, t, x);
        }
      }
    }
    forall u, v, x | BegunOn(after, u, x) && BegunOn(after, v, x) ensures u == v {
      assert u != t ==> BegunOn(threads, u, x);
      assert v != t ==> BegunOn(threads, v, x);
    }
  }

  lemma CoordinatorKept(s: State, l: Label)
    requires CoordinatorOK(s.active, s.threads) && Enabled(s, l)
    ensures CoordinatorOK(Next(s, l).active, Next(s, l).threads)
  {
    hide CoordinatorOK, Next;
    StepShape(s, l);
    if !(l.Park? || l.Fold?) {
      CoordinatorMoves(s.active, s.threads, Mover(l), Next(s, l).threads[Mover(l)], Next(s, l).active);
    }
  }

  /** At most one history-writing turn or compaction per session, whatever is
      canceled, and even while two runs of one key are alive. */
  lemma {:induction false} OneTurnPerSession(ls: seq<Label>)
    requires AllEnabled(INITIAL, ls)
    ensures CoordinatorOK(After(INITIAL, ls).active, After(INITIAL, ls).threads)
  {
    if ls != [] {
      hide Next;
      OneTurnPerSession(ls[..|ls| - 1]);
      CoordinatorKept(After(INITIAL, ls[..|ls| - 1]), ls[|ls| - 1]);
    }
  }
}
