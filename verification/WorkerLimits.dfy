/** Two things the claim protocol does not promise, each shown by an interleaving and
    then told exactly: when a report ends a run another worker claimed, and when a
    claimed run is never executed, or never ended, by any worker. */
module WorkerLimits {
  import opened Outcome
  import opened Workers

  lemma Then(s: State, ls: seq<Label>, l: Label) returns (more: seq<Label>)
    requires AllEnabled(s, ls) && Enabled(After(s, ls), l)
    ensures more == ls + [l] && AllEnabled(s, more) && After(s, more) == Next(After(s, ls), l)
  {
    hide Next, Enabled;
    more := ls + [l];
    assert more[..|more| - 1] == ls;
  }

  lemma NoStep(s: State)
    ensures AllEnabled(s, []) && After(s, []) == s
  {
  }

  lemma Begin() returns (ls: seq<Label>)
    ensures AllEnabled(INITIAL, ls) && After(INITIAL, ls) == INITIAL
  {
    ls := [];
  }

  /** A worker fetches the run and claims it; its claim is accepted. */
  lemma ClaimAccepted() returns (ls: seq<Label>)
    ensures AllEnabled(INITIAL, ls)
    ensures var s := After(INITIAL, ls);
            s == State(Running, map[1 := Claiming], map[], map[1 := Accepted], [1], {}, {}, {})
  {
    hide After, AllEnabled;
    ls := Begin();
    ls := Then(INITIAL, ls, Dispatch);
    ls := Then(INITIAL, ls, Start(1));
    ls := Then(INITIAL, ls, Fetch(1, true, false, false));
    ls := Then(INITIAL, ls, Serve(1));
  }

  /** An accepted claim whose answer is lost leaves the run running with nobody running
      it; the worker exits nonzero, but a restart could only be told it is claimed. */
  lemma LostClaimStrandsTheRun() returns (ls: seq<Label>)
    ensures AllEnabled(INITIAL, ls)
    ensures var s := After(INITIAL, ls);
            && s.status == Running && s.executed == {} && s.inflight == map[]
            && s.workers == map[1 := Exited(Some(Other)), 2 := Exited(Some(AlreadyClaimed))]
  {
    hide After, AllEnabled;
    ls := ClaimAccepted();
    ls := Then(INITIAL, ls, GiveUp(1));
    ls := Then(INITIAL, ls, Start(2));
    ls := Then(INITIAL, ls, Fetch(2, true, false, false));
  }

  /** A worker that never claimed can end the run another worker executes: it fetched
      the run while it was still waiting, was told a plugin is missing, and its report
      of that is served after the other's claim. */
  lemma RefusalEndsAnothersRun() returns (ls: seq<Label>)
    ensures AllEnabled(INITIAL, ls)
    ensures var s := After(INITIAL, ls);
            && s.status == Failed && s.claimers == [1]
            && At(s, 1, Executing) && At(s, 2, Reporting(Failed, Some(RunFailed)))
  {
    hide After, AllEnabled;
    ls := RefusedThenClaimed();
    ls := Then(INITIAL, ls, Receive(1));
    ls := Then(INITIAL, ls, Secrets(1, true));
    ls := Then(INITIAL, ls, Prepare(1, true));
    ls := Then(INITIAL, ls, Serve(2));
  }

  lemma Refused() returns (ls: seq<Label>)
    ensures AllEnabled(INITIAL, ls)
    ensures After(INITIAL, ls) ==
            State(Scheduled, map[2 := Reporting(Failed, Some(RunFailed))], map[2 := End(Failed)], map[], [], {2}, {}, {})
  {
    hide After, AllEnabled;
    ls := Begin();
    ls := Then(INITIAL, ls, Dispatch);
    ls := Then(INITIAL, ls, Start(2));
    ls := Then(INITIAL, ls, Fetch(2, true, false, true));
  }

  lemma RefusedThenClaimed() returns (ls: seq<Label>)
    ensures AllEnabled(INITIAL, ls)
    ensures var s := After(INITIAL, ls);
            && s.status == Running && s.claimers == [1] && s.inflight == map[2 := End(Failed)]
            && s.replies == map[1 := Accepted]
            && s.workers == map[1 := Claiming, 2 := Reporting(Failed, Some(RunFailed))]
  {
    hide After, AllEnabled;
    ls := Refused();
    ls := Then(INITIAL, ls, Start(1));
    ls := Then(INITIAL, ls, Fetch(1, true, false, false));
    ls := Then(INITIAL, ls, Serve(1));
  }

  // ---------- when a report ends a run its sender did not claim ----------

  lemma AlwaysSound(ls: seq<Label>)
    requires AllEnabled(INITIAL, ls)
    ensures Sound(After(INITIAL, ls))
  {
    assert Sound(INITIAL);
    hide Sound;
    SoundStays(INITIAL, ls);
  }

  /** At any moment that can be reached, serving a report ends a running run its sender did
      not claim, exactly if the sender was told at its fetch not to start and the report,
      first tried, finds the run running. */
  lemma ForeignEndExactly(s: State, w: Wid)
    requires Sound(s) && Enabled(s, Serve(w))
    ensures s.status.Running? && Terminal(Next(s, Serve(w)).status) && s.claimers != [w]
       <==> w in s.refused && s.inflight[w].End? && s.status.Running?
  {
    assert Account(s, w) && Sendable(s.inflight[w]);
  }

  /** Where no fetch is answered with a cancel or a missing plugin, every report on its way
      is that of the worker that claimed the run. */
  lemma {:induction false} NoRefusalNoForeignReport(ls: seq<Label>, w: Wid)
    requires AllEnabled(INITIAL, ls)
    requires forall l :: l in ls && l.Fetch? ==> !l.cancelRequested && !l.pluginError
    ensures After(INITIAL, ls).refused == {}
    ensures w in After(INITIAL, ls).inflight && !After(INITIAL, ls).inflight[w].Claim? ==> After(INITIAL, ls).claimers == [w]
  {
    AlwaysSound(ls);
    assert Account(After(INITIAL, ls), w);
    hide Sound, Next, Enabled;
    if ls != [] {
      NoRefusalNoForeignReport(ls[..|ls| - 1], w);
      assert ls[|ls| - 1] in ls;
      NoRefusalStep(After(INITIAL, ls[..|ls| - 1]), ls[|ls| - 1]);
    }
  }

  lemma NoRefusalStep(s: State, l: Label)
    requires Enabled(s, l) && s.refused == {} && (l.Fetch? ==> !l.cancelRequested && !l.pluginError)
    ensures Next(s, l).refused == {}
  {
  }

  // ---------- when a claimed run is never executed ----------

  /** The worker reports or is gone. */
  predicate Over(p: Phase) {
    p.Reporting? || p.Exited?
  }

  lemma {:induction false} OverStays(s: State, ls: seq<Label>, w: Wid)
    requires AllEnabled(s, ls) && w in s.workers && Over(s.workers[w]) && w !in s.executed
    ensures var now := After(s, ls); w in now.workers && Over(now.workers[w]) && w !in now.executed
  {
    if ls != [] {
      OverStays(s, ls[..|ls| - 1], w);
      OverStep(After(s, ls[..|ls| - 1]), ls[|ls| - 1], w);
    }
  }

  lemma OverStep(s: State, l: Label, w: Wid)
    requires Enabled(s, l) && w in s.workers && Over(s.workers[w]) && w !in s.executed
    ensures var now := Next(s, l); w in now.workers && Over(now.workers[w]) && w !in now.executed
  {
  }

  /** The step by which the claimer gets on with its run, if nothing goes wrong. */
  function Onward(p: Phase, w: Wid): Label {
    match p
    case Claiming => Receive(w)
    case FetchingSecrets => Secrets(w, true)
    case Preparing => Prepare(w, true)
    case _ => Execute(w, Succeeded, None)
  }

  function Progress(p: Phase): nat {
    if p.Claiming? then 3 else if p.FetchingSecrets? then 2 else if p.Preparing? then 1 else 0
  }

  lemma GetsOn(s: State, w: Wid)
    requires Sound(s) && s.claimers == [w] && w in s.workers && !Over(s.workers[w])
    ensures var p := s.workers[w];
            Enabled(s, Onward(p, w)) &&
            var now := Next(s, Onward(p, w));
            && now.status == s.status && now.claimers == s.claimers
            && (p.Executing? ==> w in now.executed && w in now.inflight && now.inflight[w] == End(Succeeded))
            && (!p.Executing? ==> w in now.workers && !Over(now.workers[w]) && Progress(now.workers[w]) < Progress(p))
  {
    assert Account(s, w) && PhaseOK(s, w, s.workers[w]);
  }

  /** The claimer can still execute its run, with nobody else moving. */
  lemma {:induction false} CanExecute(s: State, w: Wid, ls: seq<Label>) returns (more: seq<Label>)
    requires Sound(s) && AllEnabled(s, ls) && forall l :: l in ls ==> !l.ServerEnds?
    requires var now := After(s, ls); now.claimers == [w] && w in now.workers && !Over(now.workers[w])
    ensures AllEnabled(s, more) && forall l :: l in more ==> !l.ServerEnds?
    ensures var now := After(s, more);
            w in now.executed && w in now.inflight && now.inflight[w] == End(Succeeded) && now.status == After(s, ls).status
    decreases Progress(After(s, ls).workers[w])
  {
    hide Next, Enabled, Sound;
    var now := After(s, ls);
    SoundStays(s, ls);
    GetsOn(now, w);
    more := Then(s, ls, Onward(now.workers[w], w));
    if !now.workers[w].Executing? {
      more := CanExecute(s, w, more);
    }
  }

  /** At any moment after a claim was accepted and before its worker has executed the run,
      no continuation has it executed exactly if that worker already reports or is gone. */
  lemma NeverExecutedExactly(s: State, w: Wid)
    requires Sound(s) && s.claimers == [w] && w !in s.executed
    ensures w in s.workers
    ensures (forall ls :: AllEnabled(s, ls) ==> w !in After(s, ls).executed) <==> Over(s.workers[w])
  {
    assert Account(s, w);
    hide Next, Enabled, Sound;
    if Over(s.workers[w]) {
      forall ls | AllEnabled(s, ls) ensures w !in After(s, ls).executed {
        OverStays(s, ls, w);
      }
    } else {
      NoStep(s);
      var ls := CanExecute(s, w, []);
    }
  }

  // ---------- when no worker ends a claimed run ----------

  /** The claimer is gone, and no report that could end the run is on its way. */
  ghost predicate Abandoned(s: State) {
    && s.status.Running? && (forall w :: s.claimers == [w] ==> w in s.workers && s.workers[w].Exited?)
    && forall u: Wid :: u in s.inflight ==> !s.inflight[u].End?
  }

  lemma AbandonedStep(s: State, l: Label)
    requires Sound(s) && Abandoned(s) && |s.claimers| == 1 && Enabled(s, l) && !l.ServerEnds?
    ensures Abandoned(Next(s, l)) && Next(s, l).claimers == s.claimers
  {
    NobodyPastClaim(s);
  }

  lemma NobodyPastClaim(s: State)
    requires Sound(s) && Abandoned(s) && |s.claimers| == 1
    ensures s.claimers == [s.claimers[0]] && forall w :: w in s.workers ==> !Claimed(s.workers[w])
  {
    assert s.claimers == [s.claimers[0]];
    forall w | w in s.workers ensures !Claimed(s.workers[w]) {
      PhaseHolds(s, w);
    }
  }

  lemma {:induction false} AbandonedStays(s: State, ls: seq<Label>)
    requires Sound(s) && Abandoned(s) && |s.claimers| == 1 && AllEnabled(s, ls)
    requires forall l :: l in ls ==> !l.ServerEnds?
    ensures Abandoned(After(s, ls)) && After(s, ls).claimers == s.claimers
  {
    if ls != [] {
      hide Next, Enabled, Sound, Abandoned;
      AbandonedStays(s, ls[..|ls| - 1]);
      SoundStays(s, ls[..|ls| - 1]);
      assert ls[|ls| - 1] in ls;
      AbandonedStep(After(s, ls[..|ls| - 1]), ls[|ls| - 1]);
    }
  }

  /** Until the server itself ends it, a claimed run that is running stays so whatever the
      workers do, exactly if its claimer is gone and no report that could end it is on its
      way. */
  lemma NoWorkerEndsExactly(s: State, w: Wid)
    requires Sound(s) && s.claimers == [w] && s.status.Running?
    ensures w in s.workers
    ensures (forall ls :: AllEnabled(s, ls) && (forall l: Label :: l in ls ==> !l.ServerEnds?) ==> After(s, ls).status.Running?)
       <==> s.workers[w].Exited? && forall u: Wid :: u in s.inflight ==> !s.inflight[u].End?
  {
    assert Account(s, w);
    if Abandoned(s) {
      forall ls | AllEnabled(s, ls) && (forall l: Label :: l in ls ==> !l.ServerEnds?) ensures After(s, ls).status.Running? {
        AbandonedStays(s, ls);
      }
    } else {
      var ls := SomeWorkerEnds(s, w);
    }
  }

  lemma SomeWorkerEnds(s: State, w: Wid) returns (ls: seq<Label>)
    requires Sound(s) && s.claimers == [w] && s.status.Running? && !Abandoned(s)
    ensures AllEnabled(s, ls) && (forall l: Label :: l in ls ==> !l.ServerEnds?) && !After(s, ls).status.Running?
  {
    assert Account(s, w);
    NoStep(s);
    if u :| u in s.inflight && s.inflight[u].End? {
      assert Sendable(s.inflight[u]);
      ls := Then(s, [], Serve(u));
    } else {
      hide Next, Enabled, Sound;
      ls := CanExecute(s, w, []);
      SoundStays(s, ls);
      ServesOwnEnd(After(s, ls), w);
      ls := Then(s, ls, Serve(w));
    }
  }

  lemma ServesOwnEnd(s: State, w: Wid)
    requires w in s.inflight && s.inflight[w] == End(Succeeded) && s.status.Running?
    ensures Enabled(s, Serve(w)) && !Next(s, Serve(w)).status.Running?
  {
  }
}
