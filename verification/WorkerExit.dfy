/** What a worker reports is what it did, and its exit code says whether a restart could
    help, over every interleaving. */
module WorkerExits {
  import opened Outcome
  import opened Workers

  /** A worker that waits for the answer to its report has that report, and no other, on
      its way; and the error it will exit with is the one its outcome calls for. */
  ghost predicate Truthful(s: State) {
    forall w :: w in s.workers && s.workers[w].Reporting? ==>
      && EndsAs(s.workers[w].outcome, s.workers[w].error)
      && (w in s.inflight ==> s.inflight[w] in {End(s.workers[w].outcome), EndUnclaimed(s.workers[w].outcome)})
  }

  lemma ServedStaysTruthful(s: State, w: Wid)
    requires Truthful(s) && w in s.inflight
    ensures Truthful(Served(s, w))
  {
  }

  lemma ReceivedStaysTruthful(s: State, w: Wid)
    requires Truthful(s) && Enabled(s, Receive(w))
    ensures Truthful(Received(s, w))
  {
  }

  lemma StepStaysTruthful(s: State, l: Label)
    requires Truthful(s) && Enabled(s, l)
    ensures Truthful(Next(s, l))
  {
    hide Served, Received;
    match l {
      case Serve(w) => ServedStaysTruthful(s, w);
      case Receive(w) => ReceivedStaysTruthful(s, w);
      case _ =>
    }
  }

  lemma {:induction false} AlwaysTruthful(ls: seq<Label>)
    requires AllEnabled(INITIAL, ls)
    ensures Truthful(After(INITIAL, ls))
  {
    if ls != [] {
      hide Next, Enabled, Truthful;
      AlwaysTruthful(ls[..|ls| - 1]);
      StepStaysTruthful(After(INITIAL, ls[..|ls| - 1]), ls[|ls| - 1]);
    }
  }

  /** What executing the task came to is what the worker reports, and exits with once its
      report is answered; short of an answer it can only give up. */
  ghost predicate Stands(s: State, w: Wid, outcome: Status, error: Option<WorkerError>) {
    w in s.executed && w in s.workers && s.workers[w] in {Reporting(outcome, error), Exited(error), Exited(Some(Other))}
  }

  lemma StepStands(s: State, l: Label, w: Wid, outcome: Status, error: Option<WorkerError>)
    requires Enabled(s, l) && Stands(s, w, outcome, error)
    ensures Stands(Next(s, l), w, outcome, error)
  {
  }

  lemma {:induction false} ReportsWhatItDid(ls: seq<Label>, i: nat)
    requires AllEnabled(INITIAL, ls) && i < |ls| && ls[i].Execute?
    ensures Stands(After(INITIAL, ls), ls[i].w, ls[i].outcome, ls[i].error)
  {
    hide Next, Enabled, Stands;
    var before := ls[..|ls| - 1];
    if i < |before| {
      ReportsWhatItDid(before, i);
      StepStands(After(INITIAL, before), ls[|ls| - 1], ls[i].w, ls[i].outcome, ls[i].error);
    } else {
      Executed(After(INITIAL, before), ls[i]);
    }
  }

  lemma Executed(s: State, l: Label)
    requires Enabled(s, l) && l.Execute?
    ensures Stands(Next(s, l), l.w, l.outcome, l.error)
  {
  }

  /** A worker exits zero exactly if what ended it is the answer to its claim or to its
      report, or a fetch that found the run past starting: where a restart would only be
      told the same. A fetch that failed, a preparation that failed, and giving up for want
      of an answer exit with one. */
  lemma ExitsZeroExactly(ls: seq<Label>, l: Label, w: Wid)
    requires AllEnabled(INITIAL, ls) && Enabled(After(INITIAL, ls), l)
    requires w in After(INITIAL, ls).workers && !After(INITIAL, ls).workers[w].Exited?
    requires w in Next(After(INITIAL, ls), l).workers && Next(After(INITIAL, ls), l).workers[w].Exited?
    ensures l in {Receive(w), GiveUp(w)} || (l.Prepare? && l.w == w) || (l.Fetch? && l.w == w)
    ensures ExitCode(Next(After(INITIAL, ls), l).workers[w].error) == if l.Receive? || (l.Fetch? && l.ok) then 0 else 1
  {
    AlwaysTruthful(ls);
    ExitStep(After(INITIAL, ls), l, w);
  }

  lemma ExitStep(s: State, l: Label, w: Wid)
    requires Truthful(s) && Enabled(s, l) && w in s.workers && !s.workers[w].Exited?
    requires w in Next(s, l).workers && Next(s, l).workers[w].Exited?
    ensures l in {Receive(w), GiveUp(w)} || (l.Prepare? && l.w == w) || (l.Fetch? && l.w == w)
    ensures ExitCode(Next(s, l).workers[w].error) == if l.Receive? || (l.Fetch? && l.ok) then 0 else 1
  {
    hide Served;
    if l.Serve? {
      ServedSparesWorkers(s, l.w);
    }
  }

  lemma ServedSparesWorkers(s: State, w: Wid)
    requires w in s.inflight
    ensures Served(s, w).workers == s.workers
  {
  }

  /** A fetch that reads a run waiting to start claims it exactly if the server asked
      neither for its cancel nor complained of its plugins; a cancel comes before a
      complaint. */
  lemma FetchDecides(s: State, w: Wid, cancelRequested: bool, pluginError: bool)
    requires Enabled(s, Fetch(w, true, cancelRequested, pluginError)) && s.status.Scheduled?
    ensures var s2 := Next(s, Fetch(w, true, cancelRequested, pluginError));
            && w in s2.workers && w in s2.inflight && s2.status == s.status
            && (s2.workers[w].Claiming? <==> !cancelRequested && !pluginError)
            && (s2.workers[w].Claiming? <==> s2.inflight[w].Claim?)
            && (cancelRequested ==> s2.inflight[w] == End(Canceled))
            && (pluginError && !cancelRequested ==> s2.inflight[w] == End(Failed))
  {
  }

  /** Once it has asked for secrets, a worker that is refused them reports the run failed,
      and one that cannot prepare is gone without a report. */
  lemma SetUpDecides(s: State, w: Wid, ok: bool)
    ensures Enabled(s, Secrets(w, ok)) ==>
              var s2 := Next(s, Secrets(w, ok));
              && w in s2.fetchedSecrets && w in s2.workers
              && (if ok then s2.workers[w].Preparing? && s2.inflight == s.inflight
                  else s2.workers[w].Reporting? && w in s2.inflight && s2.inflight[w] == End(Failed))
    ensures Enabled(s, Prepare(w, ok)) ==>
              var s2 := Next(s, Prepare(w, ok));
              w in s2.workers && s2.inflight == s.inflight && (s2.workers[w].Executing? <==> ok) && (s2.workers[w].Exited? <==> !ok)
  {
  }
}
