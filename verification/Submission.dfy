/** Whose work is whose, over every interleaving: what a submitted prompt, an event, a
    cancel and a compaction each come to, and what a run tells of its turns. */
module Submissions {
  import opened Outcome
  import opened Protocol
  import opened Callbacks
  import opened Exclusion
  import opened Deliveries

  // ---------- each thread does the work it was started for ----------

  /** A thread as the request that started it lets it be: under that request's key and
      session, and with its prompt, or an event, as the work its run opens with. */
  ghost predicate Follows(th: Thread, l: Label) {
    match l
    case Submit(_, key, session, p) =>
      && th.key == key && th.session == session
      && (if Submitting(th.phase) then th.phase.prompt == p && th.opening == None
          else if th.phase.Ended? then th.opening in {None, Some(PromptWork(p))}
          else (Owns(th.phase) || th.phase.Finishing?) && th.opening == Some(PromptWork(p)))
    case StartEvent(_, key, session) =>
      && th.key == key && th.session == session
      && (if Delivering(th.phase) then th.opening == None
          else if th.phase.Ended? then th.opening.Some? ==> th.opening.value.EventWork?
          else (Owns(th.phase) || th.phase.Finishing?) && th.opening.Some? && th.opening.value.EventWork?)
    case Cancel(_, key) =>
      && th.key == key && th.opening == None
      && (th.phase.Canceling? || th.phase.Ended? || (th.phase.Dropping? && th.phase.keys == {key} && !th.phase.live))
    case CancelAll(_) =>
      th.opening == None && (th.phase.CancelingAll? || th.phase.Ended? || (th.phase.Dropping? && th.phase.live))
    case Compact(_, session) =>
      && th.session == session && th.opening == None
      && (th.phase.CompactStart? || th.phase.Compacting? || th.phase.Ended?)
    case _ => false
  }

  /** A submit keeps its key, session and prompt until it ends or opens a run with it. */
  lemma SubmitGoesOn(s: State, t: Tid, ok: bool)
    requires t in s.threads && Submitting(s.threads[t].phase)
    ensures t in SubmitStep(s, t, ok).threads
    ensures var th, th2 := s.threads[t], SubmitStep(s, t, ok).threads[t];
            && th2.key == th.key && th2.session == th.session
            && (if th2.phase.Opening? then th2.opening == Some(PromptWork(th.phase.prompt))
                else th2.opening == th.opening && (th2.phase.Ended? || (Submitting(th2.phase) && th2.phase.prompt == th.phase.prompt)))
  {
    hide WithQueue, SetQueue, Queue, LedgerOf;
  }

  lemma SubmitFollows(s: State, t: Tid, ok: bool, l: Label)
    requires t in s.threads && Submitting(s.threads[t].phase) && Follows(s.threads[t], l)
    ensures t in SubmitStep(s, t, ok).threads && Follows(SubmitStep(s, t, ok).threads[t], l)
  {
    hide SubmitStep;
    SubmitGoesOn(s, t, ok);
  }

  lemma EventFollows(s: State, t: Tid, ok: bool, l: Label)
    requires t in s.threads && Delivering(s.threads[t].phase) && Follows(s.threads[t], l)
    ensures t in EventStep(s, t, ok).threads && Follows(EventStep(s, t, ok).threads[t], l)
  {
    hide WithQueue, SetQueue, Queue, LedgerOf;
  }

  /** A run goes on as one, under the same key, session and opening. */
  lemma RunGoesOn(s: State, t: Tid, ok: bool)
    requires t in s.threads && (Owns(s.threads[t].phase) || s.threads[t].phase.Finishing?)
    ensures t in RunStep(s, t, ok).threads
    ensures var th, th2 := s.threads[t], RunStep(s, t, ok).threads[t];
            && th2.key == th.key && th2.session == th.session && th2.opening == th.opening
            && (Owns(th2.phase) || th2.phase.Finishing? || th2.phase.Ended?)
  {
    hide WithoutSlot, TakeHead, Queue;
    if s.threads[t].phase.Draining? && Queue(s.shared, s.threads[t].key) != [] {
      TakeHeadSparesThreads(s, t, s.threads[t].key);
    }
  }

  lemma RunFollows(s: State, t: Tid, ok: bool, l: Label)
    requires t in s.threads && (Owns(s.threads[t].phase) || s.threads[t].phase.Finishing?) && Follows(s.threads[t], l)
    ensures t in RunStep(s, t, ok).threads && Follows(RunStep(s, t, ok).threads[t], l)
  {
    hide RunStep;
    RunGoesOn(s, t, ok);
  }

  lemma OtherFollows(s: State, t: Tid, ok: bool, l: Label)
    requires t in s.threads && Enabled(s, Go(t, ok)) && !Submitting(s.threads[t].phase) && !Delivering(s.threads[t].phase)
    requires !Owns(s.threads[t].phase) && !s.threads[t].phase.Finishing? && Follows(s.threads[t], l)
    ensures t in OtherStep(s, t, ok).threads && Follows(OtherStep(s, t, ok).threads[t], l)
  {
  }

  lemma MoverFollows(s: State, next: Label, l: Label)
    requires Enabled(s, next) && !Spawns(next) && !next.Park? && !next.Fold?
    requires Mover(next) in s.threads && Follows(s.threads[Mover(next)], l)
    ensures Mover(next) in Next(s, next).threads && Follows(Next(s, next).threads[Mover(next)], l)
  {
    match next {
      case Go(t, ok) =>
        hide Follows, SubmitStep, EventStep, RunStep, OtherStep;
        var p := s.threads[t].phase;
        if Submitting(p) {
          SubmitFollows(s, t, ok, l);
        } else if Delivering(p) {
          EventFollows(s, t, ok, l);
        } else if Owns(p) || p.Finishing? {
          RunFollows(s, t, ok, l);
        } else {
          OtherFollows(s, t, ok, l);
        }
      case Drop(t, key) => DropFollows(s, t, key, l);
    }
  }

  lemma DropFollows(s: State, t: Tid, key: Key, l: Label)
    requires Enabled(s, Drop(t, key)) && Follows(s.threads[t], l)
    ensures var s2 := Next(s, Drop(t, key)); t in s2.threads && Follows(s2.threads[t], l)
  {
    hide DropQueue;
    DropSparesThreads(s, t, key);
  }

  lemma DropSparesThreads(s: State, t: Tid, key: Key)
    ensures DropQueue(s, t, key).threads == s.threads
  {
  }

  lemma SpawnFollows(s: State, l: Label)
    requires Enabled(s, l) && Spawns(l)
    ensures Mover(l) in Next(s, l).threads && Follows(Next(s, l).threads[Mover(l)], l)
  {
  }

  lemma FollowsKept(s: State, next: Label, t: Tid, l: Label)
    requires Enabled(s, next) && t in s.threads && Follows(s.threads[t], l)
    ensures t in Next(s, next).threads && Follows(Next(s, next).threads[t], l)
  {
    hide Next, Follows;
    StepShape(s, next);
    if !Spawns(next) && !next.Park? && !next.Fold? && t == Mover(next) {
      MoverFollows(s, next, l);
    }
  }

  /** In every interleaving, the thread a request started is there ever after, and is as
      that request lets it be: a submitted prompt is what its own run opens with. */
  lemma {:induction false} RequestsAreFollowed(ls: seq<Label>, i: nat)
    requires AllEnabled(INITIAL, ls) && i < |ls| && Spawns(ls[i])
    ensures Mover(ls[i]) in After(INITIAL, ls).threads && Follows(After(INITIAL, ls).threads[Mover(ls[i])], ls[i])
  {
    hide Next, Follows;
    var before, last := ls[..|ls| - 1], ls[|ls| - 1];
    if i < |before| {
      RequestsAreFollowed(before, i);
      FollowsKept(After(INITIAL, before), last, Mover(ls[i]), ls[i]);
    } else {
      SpawnFollows(After(INITIAL, before), last);
    }
  }

  /** And there is no thread without a request that started it. */
  lemma {:induction false} ThreadsWereRequested(ls: seq<Label>, t: Tid) returns (i: nat)
    requires AllEnabled(INITIAL, ls) && t in After(INITIAL, ls).threads
    ensures i < |ls| && Spawns(ls[i]) && Mover(ls[i]) == t && Follows(After(INITIAL, ls).threads[t], ls[i])
  {
    hide Next, Follows;
    var before, last := ls[..|ls| - 1], ls[|ls| - 1];
    var s := After(INITIAL, before);
    StepShape(s, last);
    if t in s.threads {
      i := ThreadsWereRequested(before, t);
    } else {
      i := |ls| - 1;
    }
    RequestsAreFollowed(ls, i);
  }

  /** What a run opens with and what a thread puts in a queue are the prompt it was
      submitted with, under the key it was submitted for. */
  lemma OwnPromptOnly(ls: seq<Label>, t: Tid, key: Key, session: Session, p: Prompt, next: Label)
    requires AllEnabled(INITIAL, ls) && Submit(t, key, session, p) in ls && Enabled(After(INITIAL, ls), next)
    ensures var s := After(INITIAL, ls);
            && t in s.threads && s.threads[t].key == key && s.threads[t].session == session
            && s.threads[t].opening in {None, Some(PromptWork(p))}
            && (Owns(s.threads[t].phase) ==> s.threads[t].opening == Some(PromptWork(p)))
            && (next.Go? && next.t == t && TrafficOf(s, next).Accepts? ==> TrafficOf(s, next) == Accepts(key, p))
  {
    hide Next;
    var i :| 0 <= i < |ls| && ls[i] == Submit(t, key, session, p);
    RequestsAreFollowed(ls, i);
  }

  /** Only submits put prompts into queues. */
  lemma AcceptedWereSubmitted(ls: seq<Label>, next: Label, key: Key, p: Prompt) returns (session: Session)
    requires AllEnabled(INITIAL, ls) && Enabled(After(INITIAL, ls), next)
    requires TrafficOf(After(INITIAL, ls), next) == Accepts(key, p)
    ensures next.Go? && Submit(next.t, key, session, p) in ls
  {
    hide Next;
    var s := After(INITIAL, ls);
    var i := ThreadsWereRequested(ls, next.t);
    session := ls[i].session;
  }

  /** A submit joins a queue exactly when it finds its key busy, at its check or when it
      would reserve, and opens a run exactly when it would reserve and finds it idle; the
      slot is then its own. It ends without a run only queued, refused, or with no host. */
  lemma SubmitDecides(s: State, t: Tid, ok: bool)
    requires Enabled(s, Go(t, ok)) && Submitting(s.threads[t].phase)
    ensures var before, s2 := s.threads[t], Next(s, Go(t, ok));
            && t in s2.threads
            && (before.phase.Checking? || before.phase.Reserving? ==>
                  (s2.threads[t].phase == Queueing(before.phase.prompt) <==> before.key in s.shared.runs))
            && (s2.threads[t].phase.Opening? <==> before.phase.Reserving? && before.key !in s.shared.runs)
            && (s2.threads[t].phase.Opening? ==> HoldsSlot(s2.shared.runs, t, before.key))
            && (before.phase.Queueing? ==> (TrafficOf(s, Go(t, ok)).Accepts? <==> |Queue(s.shared, before.key)| < 10))
            && (s2.threads[t].phase.Ended? ==>
                  || TrafficOf(s, Go(t, ok)) == Accepts(before.key, before.phase.prompt)
                  || (before.phase.Queueing? && |Queue(s.shared, before.key)| >= 10)
                  || (before.phase.Resolving? && !ok))
  {
  }

  // ---------- who takes and who drops ----------

  /** Some request started the thread that took or dropped a prompt of the key: a run of
      that key, a cancel of that key, or a cancel-all. */
  ghost predicate CalledFor(ls: seq<Label>, key: Key, f: Fate) {
    match f
    case Taken(t) => exists i :: 0 <= i < |ls| && (ls[i].Submit? || ls[i].StartEvent?) && ls[i].t == t && ls[i].key == key
    case Dropped(t) => exists i :: 0 <= i < |ls| && ((ls[i].Cancel? && ls[i].t == t && ls[i].key == key) || ls[i] == CancelAll(t))
  }

  lemma CalledForLonger(ls: seq<Label>, l: Label, key: Key, f: Fate)
    requires CalledFor(ls, key, f)
    ensures CalledFor(ls + [l], key, f)
  {
    var i :| 0 <= i < |ls| && match f
      case Taken(t) => (ls[i].Submit? || ls[i].StartEvent?) && ls[i].t == t && ls[i].key == key
      case Dropped(t) => (ls[i].Cancel? && ls[i].t == t && ls[i].key == key) || ls[i] == CancelAll(t);
    assert (ls + [l])[i] == ls[i];
  }

  lemma RemoverWasCalled(ls: seq<Label>, next: Label, key: Key)
    requires AllEnabled(INITIAL, ls) && Enabled(After(INITIAL, ls), next)
    ensures var tr := TrafficOf(After(INITIAL, ls), next);
            && (tr.Takes? ==> CalledFor(ls, tr.key, Taken(tr.who)))
            && (tr.Drops? ==> CalledFor(ls, tr.key, Dropped(tr.who)))
  {
    hide Next;
    var s := After(INITIAL, ls);
    var tr := TrafficOf(s, next);
    if tr.Takes? || tr.Drops? {
      var i := ThreadsWereRequested(ls, tr.who);
    }
  }

  /** Every prompt that left a key's queue was taken by a run started for that key, or
      dropped by a cancel of that key or a cancel-all. */
  lemma {:induction false} FatesWereCalledFor(ls: seq<Label>, key: Key)
    requires AllEnabled(INITIAL, ls)
    ensures forall k :: 0 <= k < |LedgerOf(After(INITIAL, ls), key).processed| ==>
              CalledFor(ls, key, LedgerOf(After(INITIAL, ls), key).processed[k].1)
  {
    if ls != [] {
      hide Next, TrafficOf, CalledFor, Queue;
      var before, l := ls[..|ls| - 1], ls[|ls| - 1];
      var s, s2 := After(INITIAL, before), After(INITIAL, ls);
      FatesWereCalledFor(before, key);
      RemoverWasCalled(before, l, key);
      StepFlows(s, l);
      assert ls == before + [l];
      forall k | 0 <= k < |LedgerOf(s2, key).processed| ensures CalledFor(ls, key, LedgerOf(s2, key).processed[k].1) {
        CalledForLonger(before, l, key, LedgerOf(s2, key).processed[k].1);
      }
    }
  }

  // ---------- a cancel empties what it came for ----------

  /** What thread t, a cancel, has still to drop of the keys it came for. */
  ghost predicate StillToDrop(th: Thread, key: Key) {
    match th.phase
    case Canceling => key == th.key
    case CancelingAll => true
    case Dropping(keys, _) => key in keys
    case _ => false
  }

  ghost predicate Cancels(l: Label, key: Key) {
    l.CancelAll? || (l.Cancel? && l.key == key)
  }

  lemma DroppingStep(s: State, next: Label, t: Tid, l: Label, key: Key)
    requires Enabled(s, next) && t in s.threads && Cancels(l, key) && Follows(s.threads[t], l) && StillToDrop(s.threads[t], key)
    requires !Spawns(next) && !next.Park? && !next.Fold? && Mover(next) == t
    ensures t in Next(s, next).threads
    ensures StillToDrop(Next(s, next).threads[t], key) || Queue(Next(s, next).shared, key) == []
  {
    hide SubmitStep, EventStep, RunStep, LedgerOf;
  }

  lemma StillDropping(s: State, next: Label, t: Tid, l: Label, key: Key)
    requires Enabled(s, next) && t in s.threads && Cancels(l, key) && Follows(s.threads[t], l) && StillToDrop(s.threads[t], key)
    ensures t in Next(s, next).threads
    ensures StillToDrop(Next(s, next).threads[t], key) || Queue(Next(s, next).shared, key) == []
  {
    hide Next, Follows, StillToDrop, Queue;
    StepShape(s, next);
    if !Spawns(next) && !next.Park? && !next.Fold? && t == Mover(next) {
      DroppingStep(s, next, t, l, key);
    }
  }

  /** By the time a cancel of a key, or a cancel-all, has ended, every prompt accepted for
      that key before it was called has left the queue. */
  lemma {:induction false} CancelDrains(s: State, l: Label, ls: seq<Label>, key: Key)
    requires LedgersOK(s) && Cancels(l, key) && Enabled(s, l) && AllEnabled(Next(s, l), ls)
    ensures var now := After(Next(s, l), ls);
            && l.t in now.threads && Follows(now.threads[l.t], l)
            && (StillToDrop(now.threads[l.t], key) || LedgerOf(s, key).accepted <= Prompts(LedgerOf(now, key).processed))
  {
    if ls == [] {
      SpawnFollows(s, l);
    } else {
      hide Next, Follows, StillToDrop, Balanced, Queue, LedgerOf;
      var first, before, last := Next(s, l), ls[..|ls| - 1], ls[|ls| - 1];
      var mid := After(first, before);
      CancelDrains(s, l, before, key);
      LedgersKept(s, l);
      PromptsAreConserved(first, before, key);
      LedgersKept(mid, last);
      FollowsKept(mid, last, l.t, l);
      if StillToDrop(mid.threads[l.t], key) {
        StillDropping(mid, last, l.t, l, key);
        if Queue(Next(mid, last).shared, key) == [] {
          assert Balanced(LedgerOf(Next(mid, last), key), Queue(Next(mid, last).shared, key));
          BalancedEmpty(LedgerOf(Next(mid, last), key));
        }
      }
    }
  }

  // ---------- what a refusal by the host leaves ----------

  /** A host that cannot be resolved ends the request with nothing reserved, queued or
      popped. */
  lemma UnresolvedLeavesNothing(s: State, t: Tid)
    requires Enabled(s, Go(t, false)) && (s.threads[t].phase.Resolving? || s.threads[t].phase.EventResolving?)
    ensures var s2 := Next(s, Go(t, false));
            && s2.shared == s.shared && s2.ledgers == s.ledgers && s2.inboxes == s.inboxes && s2.active == s.active
            && t in s2.threads && s2.threads[t].phase.Ended? && s2.threads[t].opening == s.threads[t].opening
  {
  }

  /** A session that cannot be opened ends its run with nothing told: the next step frees
      the slot and touches no queue, event or turn. One that can is the first thing told. */
  lemma UnopenedFreesItsSlot(s: State, t: Tid, ok: bool)
    requires Enabled(s, Go(t, false)) && s.threads[t].phase.Opening?
    ensures var s1, key := Next(s, Go(t, false)), s.threads[t].key;
            && Enabled(s1, Go(t, ok))
            && var s2 := Next(s1, Go(t, ok));
               && key !in s2.shared.runs && (forall k :: k != key ==> (k in s2.shared.runs <==> k in s.shared.runs))
               && s2.shared.queues == s.shared.queues && s2.ledgers == s.ledgers && s2.inboxes == s.inboxes && s2.active == s.active
               && t in s2.threads && s2.threads[t].phase.Ended? && s2.threads[t].log == s.threads[t].log
    ensures var s2 := Next(s, Go(t, true));
            t in s2.threads && s2.threads[t].log == s.threads[t].log + [SessionOpened] && s2.shared == s.shared
  {
    hide TakeHead, Queue;
    assert s.threads[t].log + [] == s.threads[t].log;
  }

  /** A background event goes on from its check exactly if its key is idle, and opens a run
      exactly if it still is when it would reserve and an event is parked. */
  lemma EventDecides(s: State, t: Tid, ok: bool)
    requires Enabled(s, Go(t, ok)) && Delivering(s.threads[t].phase)
    ensures var before, s2 := s.threads[t], Next(s, Go(t, ok));
            && t in s2.threads
            && (before.phase.EventChecking? ==> s2.threads[t].phase == if before.key in s.shared.runs then Ended else EventResolving)
            && (before.phase.EventResolving? ==> (s2.threads[t].phase.EventReserving? <==> ok))
            && (s2.threads[t].phase.Opening? <==>
                before.phase.EventReserving? && before.key !in s.shared.runs && Parked(InboxOf(s, before.key)) != [])
  {
  }

  /** The events parked for a key in a history, in order. */
  function ParkedIn(ls: seq<Label>, key: Key): seq<Protocol.Event> {
    if ls == [] then []
    else
      var l := ls[|ls| - 1];
      ParkedIn(ls[..|ls| - 1], key) + if l.Park? && l.key == key then [l.event] else []
  }

  /** Nothing arrives anywhere. */
  ghost predicate NothingArrives(s: State, s2: State) {
    forall k :: InboxOf(s2, k).arrived == InboxOf(s, k).arrived
  }

  lemma SubmitArrives(s: State, t: Tid, ok: bool)
    requires t in s.threads
    ensures NothingArrives(s, SubmitStep(s, t, ok))
  {
    hide Queue, LedgerOf, SetQueue, WithQueue;
  }

  lemma EventArrives(s: State, t: Tid, ok: bool)
    requires t in s.threads
    ensures NothingArrives(s, EventStep(s, t, ok))
  {
    hide WithQueue, Parked;
  }

  lemma RunArrives(s: State, t: Tid, ok: bool)
    requires t in s.threads
    ensures NothingArrives(s, RunStep(s, t, ok))
  {
    hide Queue, WithoutSlot, TakeHead;
    if s.threads[t].phase.Draining? && Queue(s.shared, s.threads[t].key) != [] {
      TakeHeadSparesThreads(s, t, s.threads[t].key);
    }
  }

  lemma OtherArrives(s: State, t: Tid, ok: bool)
    requires t in s.threads
    ensures NothingArrives(s, OtherStep(s, t, ok))
  {
  }

  lemma StepArrives(s: State, l: Label, key: Key)
    requires Enabled(s, l)
    ensures InboxOf(Next(s, l), key).arrived == InboxOf(s, key).arrived + if l.Park? && l.key == key then [l.event] else []
  {
    hide SubmitStep, EventStep, RunStep, OtherStep, Queue, LedgerOf, SetQueue;
    match l {
      case Go(t, ok) =>
        SubmitArrives(s, t, ok);
        EventArrives(s, t, ok);
        RunArrives(s, t, ok);
        OtherArrives(s, t, ok);
      case _ =>
    }
  }

  /** What has arrived for a key is what was parked for it. */
  lemma {:induction false} ArrivedWereParked(ls: seq<Label>, key: Key)
    requires AllEnabled(INITIAL, ls)
    ensures InboxOf(After(INITIAL, ls), key).arrived == ParkedIn(ls, key)
  {
    if ls != [] {
      hide Next;
      ArrivedWereParked(ls[..|ls| - 1], key);
      StepArrives(After(INITIAL, ls[..|ls| - 1]), ls[|ls| - 1], key);
    }
  }
}
