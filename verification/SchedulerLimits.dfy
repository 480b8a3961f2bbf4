/** Two things the scheduler does not promise, each shown by an interleaving. */
module SchedulerLimits {
  import opened Protocol
  import opened Exclusion

  lemma Then(s: State, ls: seq<Label>, l: Label) returns (more: seq<Label>)
    requires AllEnabled(s, ls) && Enabled(After(s, ls), l)
    ensures AllEnabled(s, more) && After(s, more) == Next(After(s, ls), l)
  {
    hide Next, Enabled;
    more := ls + [l];
    assert more[..|more| - 1] == ls;
  }

  /** Where a thread stands, and what its steps depend on. */
  datatype Stand = Stand(phase: Phase, shared: Shared, active: set<Session>)

  ghost predicate At(s: State, t: Tid, w: Stand) {
    && t in s.threads && s.threads[t].phase == w.phase && s.threads[t].key == "k" && s.threads[t].session == "s"
    && s.shared == w.shared && s.active == w.active
  }

  ghost predicate SameOthers(s: State, s2: State, t: Tid) {
    s2.threads.Keys == s.threads.Keys && forall u :: u in s.threads && u != t ==> s2.threads[u] == s.threads[u]
  }

  /** The steps of a submit, and of a run with nothing queued whose every call succeeds. */
  predicate Leads(t: Tid, w: Stand, w2: Stand) {
    match w.phase
    case Checking(p) =>
      if "k" in w.shared.runs then w2 == w.(phase := Queueing(p), shared := WithQueue(w.shared, "k"))
      else w2 == w.(phase := Resolving(p))
    case Queueing(p) => Queue(w.shared, "k") == [] && w2 == w.(phase := Ended, shared := SetQueue(w.shared, "k", [p]))
    case Resolving(p) => w2 == w.(phase := Reserving(p))
    case Reserving(p) => "k" !in w.shared.runs && w2 == w.(phase := Opening, shared := WithSlot(w.shared, "k", t))
    case Opening => w2 == w.(phase := Starting)
    case Starting => w2 == w.(phase := Turning(false))
    case Turning(begun) =>
      if begun then w2 == w.(phase := TurnOver(true), active := w.active - {"s"})
      else "s" !in w.active && w2 == w.(phase := Turning(true), active := w.active + {"s"})
    case TurnOver(ok) => w2 == w.(phase := Draining(ok))
    case Draining(ok) => Queue(w.shared, "k") == [] && w2 == w.(phase := Closing(ok))
    case Closing(ok) => w2 == w.(phase := Releasing(ok))
    case Releasing(ok) => w2 == w.(phase := Finishing(ok), shared := WithoutSlot(w.shared, "k"))
    case Finishing(ok) => w2 == w.(phase := Ended)
    case _ => false
  }

  lemma Leading(s: State, t: Tid, w: Stand, w2: Stand)
    requires At(s, t, w) && Leads(t, w, w2)
    ensures Enabled(s, Go(t, true)) && At(Next(s, Go(t, true)), t, w2) && SameOthers(s, Next(s, Go(t, true)), t)
  {
    hide WithSlot, WithoutSlot, WithQueue, Queue, TakeHead, SetQueue;
    assert w.phase.Queueing? ==> [] + [w.phase.prompt] == [w.phase.prompt];
  }

  lemma Advance(ls: seq<Label>, t: Tid, w: Stand, w2: Stand) returns (more: seq<Label>)
    requires AllEnabled(INITIAL, ls) && At(After(INITIAL, ls), t, w) && Leads(t, w, w2)
    ensures AllEnabled(INITIAL, more) && At(After(INITIAL, more), t, w2)
    ensures SameOthers(After(INITIAL, ls), After(INITIAL, more), t)
  {
    hide Next, Enabled, At, Leads, SameOthers, After, AllEnabled;
    Leading(After(INITIAL, ls), t, w, w2);
    more := Then(INITIAL, ls, Go(t, true));
  }

  /** A submitter of an idle key wins its slot. */
  lemma WinSlot(ls: seq<Label>, t: Tid, w: Stand) returns (more: seq<Label>)
    requires AllEnabled(INITIAL, ls) && At(After(INITIAL, ls), t, w) && w.phase.Checking? && "k" !in w.shared.runs
    ensures AllEnabled(INITIAL, more)
    ensures At(After(INITIAL, more), t, Stand(Opening, WithSlot(w.shared, "k", t), w.active))
    ensures SameOthers(After(INITIAL, ls), After(INITIAL, more), t)
  {
    hide Next, Enabled, At, After, AllEnabled, WithSlot;
    var p := w.phase.prompt;
    more := Advance(ls, t, w, w.(phase := Resolving(p)));
    more := Advance(more, t, w.(phase := Resolving(p)), w.(phase := Reserving(p)));
    more := Advance(more, t, w.(phase := Reserving(p)), Stand(Opening, WithSlot(w.shared, "k", t), w.active));
  }

  const HELD := Shared(map["k" := 0], map["k" := []])
  const FREED := Shared(map[], map["k" := []])

  lemma RunBegins(ls: seq<Label>) returns (more: seq<Label>)
    requires AllEnabled(INITIAL, ls) && At(After(INITIAL, ls), 0, Stand(Opening, HELD, {}))
    ensures AllEnabled(INITIAL, more) && At(After(INITIAL, more), 0, Stand(Turning(true), HELD, {"s"}))
    ensures SameOthers(After(INITIAL, ls), After(INITIAL, more), 0)
  {
    hide Next, Enabled, At, After, AllEnabled, Queue;
    more := Advance(ls, 0, Stand(Opening, HELD, {}), Stand(Starting, HELD, {}));
    more := Advance(more, 0, Stand(Starting, HELD, {}), Stand(Turning(false), HELD, {}));
    more := Advance(more, 0, Stand(Turning(false), HELD, {}), Stand(Turning(true), HELD, {"s"}));
  }

  /** A run that has just won its slot goes through its one turn past its last dequeue. */
  lemma RunOneTurn(ls: seq<Label>) returns (more: seq<Label>)
    requires AllEnabled(INITIAL, ls) && At(After(INITIAL, ls), 0, Stand(Opening, HELD, {}))
    ensures AllEnabled(INITIAL, more) && At(After(INITIAL, more), 0, Stand(Closing(true), HELD, {}))
    ensures SameOthers(After(INITIAL, ls), After(INITIAL, more), 0)
  {
    hide Next, Enabled, At, After, AllEnabled;
    more := RunBegins(ls);
    more := Advance(more, 0, Stand(Turning(true), HELD, {"s"}), Stand(TurnOver(true), HELD, {}));
    more := Advance(more, 0, Stand(TurnOver(true), HELD, {}), Stand(Draining(true), HELD, {}));
    more := Advance(more, 0, Stand(Draining(true), HELD, {}), Stand(Closing(true), HELD, {}));
  }

  lemma RunWindsDown(ls: seq<Label>, queues: map<Key, seq<Prompt>>) returns (more: seq<Label>)
    requires AllEnabled(INITIAL, ls) && At(After(INITIAL, ls), 0, Stand(Closing(true), Shared(map["k" := 0], queues), {}))
    ensures AllEnabled(INITIAL, more)
    ensures At(After(INITIAL, more), 0, Stand(Ended, Shared(map[], queues), {}))
    ensures SameOthers(After(INITIAL, ls), After(INITIAL, more), 0)
  {
    hide Next, Enabled, At, After, AllEnabled;
    var held, freed := Shared(map["k" := 0], queues), Shared(map[], queues);
    more := Advance(ls, 0, Stand(Closing(true), held, {}), Stand(Releasing(true), held, {}));
    assert WithoutSlot(held, "k") == freed;
    more := Advance(more, 0, Stand(Releasing(true), held, {}), Stand(Finishing(true), freed, {}));
    more := Advance(more, 0, Stand(Finishing(true), freed, {}), Stand(Ended, freed, {}));
  }

  /** A new submitter arrives; nobody else moves. */
  lemma Arrive(ls: seq<Label>, t: Tid, p: Prompt) returns (more: seq<Label>)
    requires AllEnabled(INITIAL, ls) && t !in After(INITIAL, ls).threads
    ensures AllEnabled(INITIAL, more)
    ensures var s, s2 := After(INITIAL, ls), After(INITIAL, more);
            && At(s2, t, Stand(Checking(p), s.shared, s.active))
            && s2.threads.Keys == s.threads.Keys + {t} && forall u :: u in s.threads ==> s2.threads[u] == s.threads[u]
  {
    hide After, AllEnabled;
    more := Then(INITIAL, ls, Submit(t, "k", "s", p));
  }

  /** A run of "k" stands at its opening, having won the slot; nobody else is there. */
  lemma FirstRun() returns (ls: seq<Label>)
    ensures AllEnabled(INITIAL, ls) && At(After(INITIAL, ls), 0, Stand(Opening, HELD, {}))
    ensures After(INITIAL, ls).threads.Keys == {0}
  {
    hide After, AllEnabled, Next, Enabled;
    NoStep(INITIAL);
    ls := Arrive([], 0, "first");
    ls := WinSlot(ls, 0, Stand(Checking("first"), Shared(map[], map[]), {}));
    assert WithSlot(Shared(map[], map[]), "k", 0) == HELD;
  }

  /** Enqueueing happens outside the scheduler's lock, so a prompt can land after the
      run it was meant for stopped reading: it then waits with no run to take it. */
  lemma PromptsCanWaitWithNoRun() returns (ls: seq<Label>)
    ensures AllEnabled(INITIAL, ls)
    ensures var s := After(INITIAL, ls);
            && s.shared == Shared(map[], map["k" := ["late"]])
            && forall t :: t in s.threads ==> s.threads[t].phase.Ended?
  {
    hide After, AllEnabled, Next, Enabled, Leads;
    ls := FirstRun();
    ls := RunOneTurn(ls);
    ls := Arrive(ls, 1, "late");
    Late();
    ls := Advance(ls, 1, Stand(Checking("late"), HELD, {}), Stand(Queueing("late"), HELD, {}));
    ls := RunWindsDown(ls, map["k" := []]);
    ls := Advance(ls, 1, Stand(Queueing("late"), FREED, {}), Stand(Ended, Shared(map[], map["k" := ["late"]]), {}));
  }

  lemma Late()
    ensures Leads(1, Stand(Checking("late"), HELD, {}), Stand(Queueing("late"), HELD, {}))
    ensures Leads(1, Stand(Queueing("late"), FREED, {}), Stand(Ended, Shared(map[], map["k" := ["late"]]), {}))
  {
  }

  lemma CancelAllClears(ls: seq<Label>, t: Tid) returns (more: seq<Label>)
    requires AllEnabled(INITIAL, ls) && t !in After(INITIAL, ls).threads
    ensures AllEnabled(INITIAL, more)
    ensures var s, s2 := After(INITIAL, ls), After(INITIAL, more);
            && s2.shared == s.shared.(runs := map[]) && s2.active == s.active
            && s2.threads.Keys == s.threads.Keys + {t} && forall u :: u in s.threads ==> s2.threads[u] == s.threads[u]
  {
    hide After, AllEnabled, SubmitStep, EventStep, RunStep;
    more := Then(INITIAL, ls, CancelAll(t));
    more := Then(INITIAL, more, Go(t, true));
  }

  /** A cancel-all empties the slot table while runs still hold their slots, so a
      submit that follows it starts a second run of the key beside the first. */
  lemma CancelAllAdmitsASecondRun() returns (ls: seq<Label>)
    ensures AllEnabled(INITIAL, ls)
    ensures IsOwner(After(INITIAL, ls), 0, "k") && IsOwner(After(INITIAL, ls), 2, "k")
  {
    hide After, AllEnabled, Next, Enabled;
    ls := FirstRun();
    ls := CancelAllClears(ls, 1);
    ls := Arrive(ls, 2, "second");
    ls := WinSlot(ls, 2, Stand(Checking("second"), HELD.(runs := map[]), {}));
  }

  // ---------- every loud cancel-all can admit a second run ----------

  /** A run r owns a key that reads as idle, and u is on its way to that key's slot. */
  ghost predicate Racing(s: State, r: Tid, u: Tid, key: Key, phase: Phase) {
    && IsOwner(s, r, key) && key !in s.shared.runs
    && u in s.threads && s.threads[u].key == key && s.threads[u].phase == phase && r != u
  }

  lemma RaceOn(s: State, r: Tid, u: Tid, key: Key)
    requires Racing(s, r, u, key, Checking("p")) || Racing(s, r, u, key, Resolving("p")) || Racing(s, r, u, key, Reserving("p"))
    ensures Enabled(s, Go(u, true))
    ensures Racing(s, r, u, key, Checking("p")) ==> Racing(Next(s, Go(u, true)), r, u, key, Resolving("p"))
    ensures Racing(s, r, u, key, Resolving("p")) ==> Racing(Next(s, Go(u, true)), r, u, key, Reserving("p"))
    ensures Racing(s, r, u, key, Reserving("p")) ==>
              IsOwner(Next(s, Go(u, true)), r, key) && IsOwner(Next(s, Go(u, true)), u, key)
  {
    hide WithQueue, SetQueue, Queue, LedgerOf;
  }

  lemma RaceStarts(s: State, c: Tid, r: Tid, u: Tid, key: Key)
    requires c in s.threads && s.threads[c].phase.CancelingAll? && IsOwner(s, r, key) && u !in s.threads
    ensures Enabled(s, Go(c, true)) && Enabled(Next(s, Go(c, true)), Submit(u, key, "x", "p"))
    ensures Racing(Next(Next(s, Go(c, true)), Submit(u, key, "x", "p")), r, u, key, Checking("p"))
  {
    hide SubmitStep, EventStep, RunStep;
  }

  /** Whenever a cancel-all is about to clear a key that a run owns, a submit right after
      it starts a second run of that key. */
  lemma LoudCancelAdmitsASecondRun(s: State, c: Tid, r: Tid, u: Tid, key: Key) returns (ls: seq<Label>)
    requires c in s.threads && s.threads[c].phase.CancelingAll? && IsOwner(s, r, key) && u !in s.threads
    ensures AllEnabled(s, ls)
    ensures r != u && IsOwner(After(s, ls), r, key) && IsOwner(After(s, ls), u, key)
  {
    hide Next, Enabled, Racing, After, AllEnabled;
    assert AllEnabled(s, []) && After(s, []) == s by { NoStep(s); }
    RaceStarts(s, c, r, u, key);
    ls := Then(s, [], Go(c, true));
    ls := Then(s, ls, Submit(u, key, "x", "p"));
    RaceOn(After(s, ls), r, u, key);
    ls := Then(s, ls, Go(u, true));
    RaceOn(After(s, ls), r, u, key);
    ls := Then(s, ls, Go(u, true));
    RaceOn(After(s, ls), r, u, key);
    ls := Then(s, ls, Go(u, true));
  }

  lemma NoStep(s: State)
    ensures AllEnabled(s, []) && After(s, []) == s
  {
  }
}
