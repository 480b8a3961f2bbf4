/** The scheduler's objects, each method one critical section, and how each moves the
    state that the protocol's steps are written over. */
module Scheduler {
  import opened Outcome
  import opened Protocol
  import opened Callbacks

  class MessageQueue {
    var items: seq<Prompt>
    const max: nat

    constructor (max: int)
      ensures items == [] && this.max == if max <= 0 then MAX_QUEUED else max
    {
      items := [];
      this.max := if max <= 0 then MAX_QUEUED else max;
    }

    /** The 1-based position, or None when the queue is at its cap. */
    method Enqueue(text: Prompt) returns (position: Option<nat>)
      modifies this
      ensures position.None? <==> |old(items)| >= max
      ensures position.None? ==> items == old(items)
      ensures position.Some? ==> items == old(items) + [text] && position.value == |items|
    {
      if |items| >= max {
        return None;
      }
      items := items + [text];
      position := Some(|items|);
    }

    method Dequeue() returns (oldest: Option<Prompt>)
      modifies this
      ensures oldest.None? <==> old(items) == []
      ensures old(items) == (if oldest.None? then [] else [oldest.value]) + items
    {
      if |items| == 0 {
        return None;
      }
      oldest := Some(items[0]);
      items := items[1..];
    }

    method DropLast() returns (newest: Option<Prompt>)
      modifies this
      ensures newest.None? <==> old(items) == []
      ensures old(items) == items + (if newest.None? then [] else [newest.value])
    {
      if |items| == 0 {
        return None;
      }
      newest := Some(items[|items| - 1]);
      items := items[..|items| - 1];
    }

    method Drop() returns (n: nat)
      modifies this
      ensures items == [] && n == |old(items)|
    {
      n := |items|;
      items := [];
    }
  }

  class TurnCoordinator {
    var active: set<Session>

    constructor ()
      ensures active == {}
    {
      active := {};
    }

    method Begin(session: Session) returns (begun: bool)
      modifies this
      ensures begun <==> session !in old(active)
      ensures active == old(active) + {session}
      ensures forall s: State, t :: Runs(s, old(active), t, session) && (s.threads[t].phase == Turning(false) || s.threads[t].phase.CompactStart?) ==>
                Next(s, Go(t, true)).active == active
    {
      hide Next;
      ghost var before := active;
      forall s: State, t | Runs(s, before, t, session) && (s.threads[t].phase == Turning(false) || s.threads[t].phase.CompactStart?)
        ensures Next(s, Go(t, true)).active == before + {session}
      {
        ActiveAfterGo(s, before, t, session, true);
      }
      if session in active {
        return false;
      }
      active := active + {session};
      begun := true;
    }

    method End(session: Session)
      modifies this
      ensures active == old(active) - {session}
      ensures forall s: State, t, ok :: Runs(s, old(active), t, session) && (s.threads[t].phase == Turning(true) || s.threads[t].phase.Compacting?) ==>
                Next(s, Go(t, ok)).active == active
    {
      hide Next;
      ghost var before := active;
      forall s: State, t, ok | Runs(s, before, t, session) && (s.threads[t].phase == Turning(true) || s.threads[t].phase.Compacting?)
        ensures Next(s, Go(t, ok)).active == before - {session}
      {
        ActiveAfterGo(s, before, t, session, ok);
      }
      active := active - {session};
    }
  }

  class RunScheduler {
    var runs: map<Key, Tid>
    var queues: map<Key, MessageQueue>

    ghost predicate NoneShared()
      reads this
    {
      forall j, k :: j in queues && k in queues && j != k ==> queues[j] != queues[k]
    }

    /** Every key has its own queue, bounded by the default cap. */
    ghost predicate Valid()
      reads this, queues.Values
    {
      NoneShared() && (forall k :: k in queues ==> queues[k].max == MAX_QUEUED && |queues[k].items| <= MAX_QUEUED)
    }

    ghost function View(): Shared
      reads this, queues.Values
    {
      Shared(runs, map k | k in queues :: queues[k].items)
    }

    /** No key's queue object is ever replaced. */
    twostate predicate KeepsQueues()
      reads this
    {
      forall k :: k in old(queues) ==> k in queues && queues[k] == old(queues[k])
    }

    constructor ()
      ensures Valid() && fresh(this) && View() == INITIAL.shared
    {
      runs := map[];
      queues := map[];
    }

    method Busy(key: Key) returns (busy: bool)
      requires Valid()
      ensures busy <==> key in View().runs
    {
      busy := key in runs;
    }

    /** What waits behind the key's run, oldest first. */
    method Queued(key: Key) returns (waiting: seq<Prompt>)
      requires Valid()
      ensures waiting == Queue(View(), key)
    {
      if key in queues {
        waiting := queues[key].items;
      } else {
        waiting := [];
      }
    }

    method QueueLocked(key: Key) returns (q: MessageQueue)
      requires Valid()
      modifies this`queues
      ensures Valid() && KeepsQueues()
      ensures View() == WithQueue(old(View()), key)
      ensures key in queues && q == queues[key]
      ensures key !in old(queues) ==> fresh(q)
    {
      if key in queues {
        return queues[key];
      }
      q := new MessageQueue(MAX_QUEUED);
      assert forall k :: k in queues ==> queues[k] != q;
      queues := queues[key := q];
      assert View() == WithQueue(old(View()), key);
    }

    method ReserveLocked(key: Key, t: Tid) returns (q: MessageQueue)
      requires Valid()
      modifies this
      ensures Valid() && KeepsQueues()
      ensures View() == WithSlot(old(View()), key, t)
      ensures key in queues && q == queues[key]
    {
      hide WithQueue;
      runs := runs[key := t];
      assert Valid() && View() == old(View()).(runs := old(View()).runs[key := t]);
      hide Valid, View;
      q := QueueLocked(key);
    }

    /** Takes the slot if the key is idle; either way the queue returned is the key's own. */
    method Reserve(key: Key, t: Tid) returns (q: MessageQueue, started: bool)
      requires Valid()
      modifies this
      ensures Valid() && KeepsQueues()
      ensures started <==> key !in old(runs)
      ensures View() == if started then WithSlot(old(View()), key, t) else WithQueue(old(View()), key)
      ensures key in queues && q == queues[key]
      ensures forall s: State, ok :: Stands(s, old(View()), t, key) && s.threads[t].phase.Reserving? ==>
                Next(s, Go(t, ok)).shared == View()
    {
      hide Next;
      ghost var before := View();
      forall s: State, ok | Stands(s, before, t, key) && s.threads[t].phase.Reserving?
        ensures Next(s, Go(t, ok)).shared == if key in before.runs then WithQueue(before, key) else WithSlot(before, key, t)
      {
        SharedAfterGo(s, before, t, key, ok);
      }
      if key in runs {
        q := QueueLocked(key);
        return q, false;
      }
      q := ReserveLocked(key, t);
      started := true;
    }

    /** Takes the slot for a background event, popping the oldest one parked, if the key is
        idle and an event is there. */
    method ReserveForEvent(key: Key, t: Tid, parked: seq<Event>) returns (event: Option<Event>)
      requires Valid()
      modifies this
      ensures Valid() && KeepsQueues()
      ensures event == if key in old(runs) || parked == [] then None else Some(parked[0])
      ensures View() == if event.None? then old(View()) else WithSlot(old(View()), key, t)
      ensures forall s: State, ok ::
                Stands(s, old(View()), t, key) && s.threads[t].phase.EventReserving? && Parked(InboxOf(s, key)) == parked ==>
                  Next(s, Go(t, ok)).shared == View()
    {
      hide Next;
      ghost var before := View();
      forall s: State, ok | Stands(s, before, t, key) && s.threads[t].phase.EventReserving? && Parked(InboxOf(s, key)) == parked
        ensures Next(s, Go(t, ok)).shared == if key in before.runs || parked == [] then before else WithSlot(before, key, t)
      {
        SharedAfterGo(s, before, t, key, ok);
      }
      if key in runs || parked == [] {
        return None;
      }
      var _ := ReserveLocked(key, t);
      event := Some(parked[0]);
    }

    /** The lookup half of an enqueue, under the lock; the queue's own lock covers the rest. */
    method QueueIfBusy(key: Key) returns (q: Option<MessageQueue>)
      requires Valid()
      modifies this`queues
      ensures Valid() && KeepsQueues()
      ensures q.Some? <==> key in old(runs)
      ensures View() == if key in old(runs) then WithQueue(old(View()), key) else old(View())
      ensures q.Some? ==> key in queues && q.value == queues[key]
      ensures forall s: State, t, ok :: Stands(s, old(View()), t, key) && s.threads[t].phase.Checking? ==>
                Next(s, Go(t, ok)).shared == View()
    {
      hide Next;
      ghost var before := View();
      forall s: State, t, ok | Stands(s, before, t, key) && s.threads[t].phase.Checking?
        ensures Next(s, Go(t, ok)).shared == if key in before.runs then WithQueue(before, key) else before
      {
        SharedAfterGo(s, before, t, key, ok);
      }
      if key !in runs {
        return None;
      }
      var found := QueueLocked(key);
      q := Some(found);
    }

    /** Appends to one of this scheduler's queues, as a submitter that found its key busy. */
    method EnqueueBehind(key: Key, text: Prompt) returns (position: Option<nat>)
      requires Valid() && key in queues
      modifies queues[key]
      ensures Valid() && KeepsQueues() && runs == old(runs) && queues == old(queues)
      ensures position.None? <==> |Queue(old(View()), key)| >= MAX_QUEUED
      ensures View() == if position.None? then old(View()) else SetQueue(old(View()), key, Queue(old(View()), key) + [text])
      ensures forall s: State, t, ok :: Stands(s, old(View()), t, key) && s.threads[t].phase == Queueing(text) ==>
                Next(s, Go(t, ok)).shared == View()
    {
      hide Next;
      ghost var before := View();
      forall s: State, t, ok | Stands(s, before, t, key) && s.threads[t].phase == Queueing(text)
        ensures Next(s, Go(t, ok)).shared ==
                if |Queue(before, key)| >= MAX_QUEUED then before else SetQueue(before, key, Queue(before, key) + [text])
      {
        SharedAfterGo(s, before, t, key, ok);
      }
      position := queues[key].Enqueue(text);
      assert position.None? ==> View().queues == before.queues;
    }

    /** Takes the oldest prompt of one of this scheduler's queues: between turns, or inside
        one at an iteration boundary. */
    method TakeNext(key: Key) returns (next: Option<Prompt>)
      requires Valid() && key in queues
      modifies queues[key]
      ensures Valid() && KeepsQueues() && runs == old(runs) && queues == old(queues)
      ensures old(queues[key].items) == (if next.None? then [] else [next.value]) + queues[key].items
      ensures next.None? <==> old(queues[key].items) == []
      ensures View() == if next.None? then old(View()) else SetQueue(old(View()), key, Queue(old(View()), key)[1..])
      ensures forall s: State, t, ok :: Stands(s, old(View()), t, key) && s.threads[t].phase.Draining? ==>
                Next(s, Go(t, ok)).shared == View()
      ensures forall s: State, t :: Stands(s, old(View()), t, key) && Enabled(s, Fold(t)) ==> Next(s, Fold(t)).shared == View()
    {
      hide Next;
      ghost var before := View();
      forall s: State, t, ok | Stands(s, before, t, key) && s.threads[t].phase.Draining?
        ensures Next(s, Go(t, ok)).shared == if Queue(before, key) == [] then before else SetQueue(before, key, Queue(before, key)[1..])
      {
        SharedAfterGo(s, before, t, key, ok);
      }
      forall s: State, t | Stands(s, before, t, key) && Enabled(s, Fold(t))
        ensures Queue(before, key) != [] && Next(s, Fold(t)).shared == SetQueue(before, key, Queue(before, key)[1..])
      {
        SharedAfterFold(s, before, t, key);
      }
      next := queues[key].Dequeue();
      assert next.None? ==> View().queues == before.queues;
    }

    method Release(key: Key)
      requires Valid()
      modifies this`runs
      ensures Valid() && KeepsQueues() && View() == WithoutSlot(old(View()), key)
      ensures runs == old(runs) - {key}
      ensures forall s: State, t, ok ::
                Stands(s, old(View()), t, key) && (s.threads[t].phase.OpenFailed? || s.threads[t].phase.Releasing?) ==>
                  Next(s, Go(t, ok)).shared == View()
    {
      hide Next;
      ghost var before := View();
      forall s: State, t, ok | Stands(s, before, t, key) && (s.threads[t].phase.OpenFailed? || s.threads[t].phase.Releasing?)
        ensures Next(s, Go(t, ok)).shared == WithoutSlot(before, key)
      {
        SharedAfterGo(s, before, t, key, ok);
      }
      runs := runs - {key};
    }

    /** Discards one queue, if the key has one. */
    method DropQueue(key: Key)
      requires Valid()
      modifies if key in queues then {queues[key]} else {}
      ensures Valid() && KeepsQueues() && runs == old(runs) && queues == old(queues)
      ensures View() == if key in queues then SetQueue(old(View()), key, []) else old(View())
      ensures forall s: State, t :: s.shared == old(View()) && Enabled(s, Drop(t, key)) ==> Next(s, Drop(t, key)).shared == View()
    {
      hide Next;
      ghost var before := View();
      forall s: State, t | s.shared == before && Enabled(s, Drop(t, key))
        ensures Next(s, Drop(t, key)).shared == if key in before.queues then SetQueue(before, key, []) else before
      {
        SharedAfterDrop(s, before, t, key);
      }
      if key in queues {
        var _ := queues[key].Drop();
      }
    }

    /** Discards the key's queue, and names the run to cancel if there is one. */
    method Cancel(key: Key) returns (run: Option<Tid>)
      requires Valid()
      modifies if key in queues then {queues[key]} else {}
      ensures Valid() && KeepsQueues() && runs == old(runs) && queues == old(queues)
      ensures View() == if key in queues then SetQueue(old(View()), key, []) else old(View())
      ensures run == if key in runs then Some(runs[key]) else None
    {
      run := if key in runs then Some(runs[key]) else None;
      DropQueue(key);
    }

    /** The half of a cancel-all that holds the lock: clears the slot table, and names the
        runs to cancel and the queues it came for. */
    method ClearSlots() returns (canceled: set<Tid>, captured: set<Key>)
      requires Valid()
      modifies this`runs
      ensures Valid() && KeepsQueues() && queues == old(queues)
      ensures View() == old(View()).(runs := map[])
      ensures canceled == old(runs).Values && captured == queues.Keys
      ensures forall s: State, t, key, ok :: Stands(s, old(View()), t, key) && s.threads[t].phase.CancelingAll? ==>
                Next(s, Go(t, ok)).shared == View()
    {
      hide Next;
      ghost var before := View();
      forall s: State, t, key, ok | Stands(s, before, t, key) && s.threads[t].phase.CancelingAll?
        ensures Next(s, Go(t, ok)).shared == before.(runs := map[])
      {
        SharedAfterGo(s, before, t, key, ok);
      }
      canceled, captured := runs.Values, queues.Keys;
      runs := map[];
    }

    /** Left alone, a cancel-all empties the slot table and every queue, and names the runs
        to cancel. */
    method CancelAll() returns (canceled: set<Tid>)
      requires Valid()
      modifies this`runs, queues.Values
      ensures Valid() && KeepsQueues() && queues == old(queues)
      ensures View().runs == map[] && View().queues.Keys == old(View()).queues.Keys
      ensures forall k :: k in queues ==> Queue(View(), k) == []
      ensures canceled == old(runs).Values
    {
      hide Next, Enabled, Stands;
      var left;
      canceled, left := ClearSlots();
      while left != {}
        invariant left <= queues.Keys && queues == old(queues) && runs == map[] && Valid()
        invariant forall k :: k in queues && k !in left ==> queues[k].items == []
        decreases left
      {
        var key :| key in left;
        ghost var before := View();
        ViewHolds();
        DropQueue(key);
        ViewHolds();
        left := left - {key};
      }
    }

    lemma OwnQueue(key: Key)
      requires NoneShared() && key in queues
      ensures forall k :: k in queues && k != key ==> queues[k] != queues[key]
    {
    }

    lemma ViewHolds()
      ensures View().runs == runs && View().queues.Keys == queues.Keys
      ensures forall k :: k in queues ==> View().queues[k] == queues[k].items
    {
    }

    lemma QueueIs(sh: Shared, key: Key)
      ensures key in sh.queues ==> Queue(sh, key) == sh.queues[key]
    {
    }

    lemma ViewDrained(before: Shared, key: Key)
      requires key in queues && queues[key].items == [] && runs == before.runs - {key}
      requires before.queues.Keys == queues.Keys
      requires forall k :: k in queues && k != key ==> queues[k].items == before.queues[k]
      ensures View() == SetQueue(WithoutSlot(before, key), key, [])
    {
    }

    lemma DrainedUnfolds(log: seq<Entry>, q: seq<Prompt>, ok: bool, outcome: nat -> bool, n: nat)
      ensures var said := if ok then log + [TurnDone] else log;
              log + Drained(q, ok, outcome, n) ==
              if q == [] then said + [SessionClosed] + [SlotReleased, Done(ok)]
              else (if ok then said else said + [TurnError]) + [Dequeued(q[0])] + Drained(q[1..], outcome(n), outcome, n + 1)
    {
    }

    /** A run's loop from its opened session on; outcome says how each turn came out. */
    method RunLoop(key: Key, outcome: nat -> bool) returns (log: seq<Entry>)
      requires Valid() && key in queues
      modifies this`runs, queues[key]
      ensures Valid() && KeepsQueues() && queues == old(queues)
      ensures View() == SetQueue(WithoutSlot(old(View()), key), key, [])
      ensures log == [OnStart] + Drained(Queue(old(View()), key), outcome(0), outcome, 1)
    {
      hide View, Drained, NoneShared, Next, Enabled, Stands, Queue, SetQueue, WithoutSlot;
      ghost var before := View();
      ViewHolds();
      OwnQueue(key);
      var queue := queues[key];
      var released, done := false, false;
      log := [OnStart];
      var ok, turns := outcome(0), 1;
      while !done
        invariant queues == old(queues) && Valid() && released == done
        invariant runs == if released then old(runs) - {key} else old(runs)
        invariant forall k :: k in queues && k != key ==> queues[k].items == old(queues[k].items)
        invariant done ==> queue.items == [] && log == [OnStart] + Drained(old(queue.items), outcome(0), outcome, 1)
        invariant !done ==> log + Drained(queue.items, ok, outcome, turns) == [OnStart] + Drained(old(queue.items), outcome(0), outcome, 1)
        decreases !done, |queue.items|
      {
        DrainedUnfolds(log, queue.items, ok, outcome, turns);
        if ok {
          log := log + [TurnDone];
        }
        var next := TakeNext(key);
        if next.None? {
          log := log + [SessionClosed];
          if !released {
            released := true;
            Release(key);
          }
          log := log + [SlotReleased, Done(ok)];
          done := true;
        } else {
          if !ok {
            log := log + [TurnError];
          }
          log := log + [Dequeued(next.value)];
          ok := outcome(turns);
          turns := turns + 1;
        }
      }
      assert Queue(before, key) == old(queue.items) by { QueueIs(before, key); }
      ViewDrained(before, key);
    }
  }

  // ---------- the objects' methods are the protocol's steps ----------

  /** A thread working for the given session, in a state whose coordinator holds active. */
  ghost predicate Runs(s: State, active: set<Session>, t: Tid, session: Session) {
    s.active == active && t in s.threads && s.threads[t].session == session
  }

  lemma ActiveAfterGo(s: State, active: set<Session>, t: Tid, session: Session, ok: bool)
    requires Runs(s, active, t, session) && Enabled(s, Go(t, ok))
    ensures var p, after := s.threads[t].phase, Next(s, Go(t, ok)).active;
            && (p.CompactStart? || (p == Turning(false) && ok) ==> after == active + {session})
            && (p.Compacting? || p == Turning(true) ==> after == active - {session})
  {
    hide WithQueue, WithSlot, WithoutSlot, SetQueue, Queue, TakeHead;
  }

  lemma SharedAfterFold(s: State, sh: Shared, t: Tid, key: Key)
    requires Stands(s, sh, t, key) && Enabled(s, Fold(t))
    ensures Queue(sh, key) != [] && Next(s, Fold(t)).shared == SetQueue(sh, key, Queue(sh, key)[1..])
  {
  }

  lemma SharedAfterDrop(s: State, sh: Shared, t: Tid, key: Key)
    requires s.shared == sh && Enabled(s, Drop(t, key))
    ensures Next(s, Drop(t, key)).shared == if key in sh.queues then SetQueue(sh, key, []) else sh
  {
  }

  /** A thread of the given key, in a state whose shared part is sh. */
  ghost predicate Stands(s: State, sh: Shared, t: Tid, key: Key) {
    s.shared == sh && t in s.threads && s.threads[t].key == key
  }

  /** What a thread's own step makes of the shared state, phase by phase. */
  lemma SharedAfterGo(s: State, sh: Shared, t: Tid, key: Key, ok: bool)
    requires Stands(s, sh, t, key) && Enabled(s, Go(t, ok))
    ensures var p, after := s.threads[t].phase, Next(s, Go(t, ok)).shared;
            && (p.Checking? ==> after == if key in sh.runs then WithQueue(sh, key) else sh)
            && (p.Queueing? ==> after == if |Queue(sh, key)| >= MAX_QUEUED then sh else SetQueue(sh, key, Queue(sh, key) + [p.prompt]))
            && (p.Reserving? ==> after == if key in sh.runs then WithQueue(sh, key) else WithSlot(sh, key, t))
            && (p.EventReserving? ==>
                  after == if key in sh.runs || Parked(InboxOf(s, key)) == [] then sh else WithSlot(sh, key, t))
            && (p.OpenFailed? || p.Releasing? ==> after == WithoutSlot(sh, key))
            && (p.Draining? ==> after == if Queue(sh, key) == [] then sh else SetQueue(sh, key, Queue(sh, key)[1..]))
            && (p.CancelingAll? ==> after == sh.(runs := map[]))
            && (p.Canceling? ==> after == sh)
  {
    hide WithQueue, WithSlot, WithoutSlot, SetQueue, Queue, LedgerOf, InboxOf, Parked;
  }

  /** No other step touches what the scheduler's lock and its queues guard. */
  lemma OtherStepsStandStill(s: State, l: Label)
    requires Enabled(s, l) && !l.Fold? && !l.Drop?
    requires l.Go? ==>
               var p := s.threads[l.t].phase;
               && !p.Checking? && !p.Queueing? && !p.Reserving? && !p.EventReserving? && !p.OpenFailed?
               && !p.Releasing? && !p.Draining? && !p.CancelingAll?
    ensures Next(s, l).shared == s.shared
  {
    hide WithQueue, WithSlot, WithoutSlot, SetQueue, Queue, LedgerOf, InboxOf, Parked, TakeHead;
  }

  /** What a run's loop tells its surface while nobody else touches the queue: a turn
      came out as ok, the prompts in q follow, and outcome says how turn n on come out. */
  ghost function Drained(q: seq<Prompt>, ok: bool, outcome: nat -> bool, n: nat): seq<Entry>
    decreases |q|
  {
    LastTurn(ok) +
    if q == [] then [SessionClosed, SlotReleased, Done(ok)]
    else (if ok then [] else [TurnError]) + [Dequeued(q[0])] + Drained(q[1..], outcome(n), outcome, n + 1)
  }

  /** The report of each turn but the last, and the prompt dequeued after it. */
  ghost function Reports(q: seq<Prompt>, ok: bool, outcome: nat -> bool, n: nat): seq<Entry>
    decreases |q|
  {
    if q == [] then [] else [if ok then TurnDone else TurnError, Dequeued(q[0])] + Reports(q[1..], outcome(n), outcome, n + 1)
  }

  lemma {:induction false} RoundsPrepend(r: seq<Entry>, report: Entry, next: Prompt)
    requires Rounds(r) && (report.TurnDone? || report.TurnError?)
    ensures Rounds([report, Dequeued(next)] + r)
    decreases |r|
  {
    var all := [report, Dequeued(next)] + r;
    if r == [] {
      assert all[..|all| - 2] == [];
    } else {
      RoundsPrepend(r[..|r| - 2], report, next);
      assert all[..|all| - 2] == [report, Dequeued(next)] + r[..|r| - 2];
    }
  }

  function Farewell(ok: bool): seq<Entry> {
    LastTurn(ok) + [SessionClosed, SlotReleased, Done(ok)]
  }

  lemma {:induction false} ReportsAreRounds(q: seq<Prompt>, ok: bool, outcome: nat -> bool, n: nat)
    ensures Rounds(Reports(q, ok, outcome, n))
    decreases |q|
  {
    if q != [] {
      hide Rounds;
      ReportsAreRounds(q[1..], outcome(n), outcome, n + 1);
      RoundsPrepend(Reports(q[1..], outcome(n), outcome, n + 1), if ok then TurnDone else TurnError, q[0]);
    }
  }

  lemma {:induction false} ReportsThenFarewell(q: seq<Prompt>, ok: bool, outcome: nat -> bool, n: nat)
    ensures Drained(q, ok, outcome, n) ==
            Reports(q, ok, outcome, n) + Farewell(if q == [] then ok else outcome(n + |q| - 1))
    decreases |q|
  {
    if q != [] {
      hide Farewell, LastTurn;
      ReportsThenFarewell(q[1..], outcome(n), outcome, n + 1);
      Regroup(ok, Dequeued(q[0]), Reports(q[1..], outcome(n), outcome, n + 1), Farewell(outcome(n + |q| - 1)));
    }
  }

  lemma Regroup(ok: bool, next: Entry, more: seq<Entry>, tail: seq<Entry>)
    ensures LastTurn(ok) + ((if ok then [] else [TurnError]) + [next] + (more + tail))
         == [if ok then TurnDone else TurnError, next] + more + tail
  {
  }

  /** Left alone, the loop tells a whole story: every prompt that waited follows a
      reported turn, and the last outcome decides how it ends. */
  lemma DrainedIsAStory(q: seq<Prompt>, ok: bool, outcome: nat -> bool, n: nat)
    ensures Rounds(Reports(q, ok, outcome, n))
    ensures [SessionOpened, OnStart] + Drained(q, ok, outcome, n) ==
            Story(Reports(q, ok, outcome, n), if q == [] then ok else outcome(n + |q| - 1))
  {
    hide Drained, Reports, Rounds, LastTurn;
    ReportsAreRounds(q, ok, outcome, n);
    ReportsThenFarewell(q, ok, outcome, n);
  }
}
