/** Worker processes racing for one run: the server holds the run's status as one atomic
    cell, and every request may be delayed, refused, or answered to nobody. */
module Workers {
  import opened Outcome

  type Wid = nat

  datatype Status = Pending | Scheduled | Running | Succeeded | Failed | Canceled

  predicate Terminal(s: Status) {
    s.Succeeded? || s.Failed? || s.Canceled?
  }

  /** The run has not been claimed, nor ended. */
  predicate Waiting(s: Status) {
    s.Pending? || s.Scheduled?
  }

  /** Which status a run may move to directly. */
  predicate ValidTransition(from: Status, to: Status) {
    match from
    case Pending => to.Scheduled? || to.Canceled?
    case Scheduled => to.Running? || to.Failed? || to.Canceled?
    case Running => Terminal(to)
    case _ => false
  }

  datatype WorkerError = AlreadyClaimed | RunCanceled | RunInterrupted | RunFailed | Other

  /** What a finished worker tells its scheduler: zero where a restart cannot help. */
  function ExitCode(error: Option<WorkerError>): nat {
    match error
    case None => 0
    case Some(AlreadyClaimed) => 0
    case Some(RunCanceled) => 0
    case Some(RunInterrupted) => 0
    case Some(RunFailed) => 0
    case Some(Other) => 1
  }

  // ---------- the server's status cell ----------

  /** A request on its way to the server. An End that found the run not running is tried
      again from scheduled, unless it reports success. */
  datatype Request = Claim | End(outcome: Status) | EndUnclaimed(outcome: Status)

  datatype Reply = Accepted | Conflict | Ended

  class RunStore {
    var status: Status

    constructor ()
      ensures status == Pending
    {
      status := Pending;
    }

    /** The one atomic write: it succeeds only from the expected status. */
    method Transition(expected: Status, to: Status) returns (updated: bool)
      modifies this
      ensures updated <==> old(status) == expected
      ensures status == if updated then to else old(status)
    {
      updated := status == expected;
      if updated {
        status := to;
      }
    }

    method PatchRunning() returns (reply: Reply)
      modifies this
      ensures reply == if old(status).Scheduled? then Accepted else Conflict
      ensures status == if old(status).Scheduled? then Running else old(status)
      ensures forall s: State, w :: s.status == old(status) && w in s.inflight && s.inflight[w].Claim? ==>
                Served(s, w).status == status && Served(s, w).replies[w] == reply
    {
      var updated := Transition(Scheduled, Running);
      reply := if updated then Accepted else Conflict;
    }

    /** Whether or not it moved the run, the report is answered as accepted; undisturbed,
        it never leaves a failed or canceled run waiting to start. */
    method PatchTerminal(outcome: Status) returns (reply: Reply)
      requires Terminal(outcome)
      modifies this
      ensures reply == Ended
      ensures status == (if old(status).Running? || (old(status).Scheduled? && !outcome.Succeeded?) then outcome else old(status))
      ensures forall s: State, w :: s.status == old(status) && w in s.inflight && s.inflight[w] == End(outcome) ==>
                var first := Served(s, w);
                var both := if w in first.inflight then Served(first, w) else first;
                both.status == status && w in both.replies && both.replies[w] == reply
    {
      var updated := Transition(Running, outcome);
      if !updated && !outcome.Succeeded? {
        var _ := Transition(Scheduled, outcome);
      }
      reply := Ended;
    }
  }

  // ---------- workers ----------

  datatype Phase =
    | Fetching
    | Claiming
    | FetchingSecrets
    | Preparing
    | Executing
    | Reporting(outcome: Status, error: Option<WorkerError>)
    | Exited(error: Option<WorkerError>)

  datatype State = State(
    status: Status,
    workers: map<Wid, Phase>,
    inflight: map<Wid, Request>,
    replies: map<Wid, Reply>,
    // whose RUNNING transitions passed, who was told at its fetch not to start, and who
    // was given secrets or ran the task
    claimers: seq<Wid>,
    refused: set<Wid>,
    fetchedSecrets: set<Wid>,
    executed: set<Wid>)

  const INITIAL := State(Pending, map[], map[], map[], [], {}, {}, {})

  datatype Label =
    // the dispatcher takes the run up, and only then starts workers for it
    | Dispatch
    | Start(w: Wid)
    // the run as fetched: refused or unreadable, else with what the server said about it
    | Fetch(w: Wid, ok: bool, cancelRequested: bool, pluginError: bool)
    | Secrets(w: Wid, ok: bool)
    | Prepare(w: Wid, ok: bool)
    | Execute(w: Wid, outcome: Status, error: Option<WorkerError>)
    // the worker reads the reply to its request
    | Receive(w: Wid)
    // no reply came, or the process died
    | GiveUp(w: Wid)
    // the server handles w's request
    | Serve(w: Wid)
    // a cancel, a reaper, or a shutdown ends the run from the server's side
    | ServerEnds(to: Status)

  predicate At(s: State, w: Wid, p: Phase) {
    w in s.workers && s.workers[w] == p
  }

  /** What a run that executed may end as, and the error its worker then returns. */
  predicate EndsAs(outcome: Status, error: Option<WorkerError>) {
    match outcome
    case Succeeded => error.None?
    case Failed => error == Some(RunFailed) || error == Some(RunInterrupted)
    case Canceled => error == Some(RunCanceled)
    case _ => false
  }

  predicate Enabled(s: State, l: Label) {
    match l
    case Dispatch => s.status.Pending?
    case Start(w) => w !in s.workers && !s.status.Pending?
    case Fetch(w, _, _, _) => At(s, w, Fetching)
    case Secrets(w, _) => At(s, w, FetchingSecrets)
    case Prepare(w, _) => At(s, w, Preparing)
    case Execute(w, outcome, error) => At(s, w, Executing) && EndsAs(outcome, error)
    case Receive(w) => w in s.workers && w in s.replies && (s.workers[w].Claiming? || s.workers[w].Reporting?)
    case GiveUp(w) => w in s.workers && !s.workers[w].Exited?
    case Serve(w) => w in s.inflight
    case ServerEnds(to) => Terminal(to) && ValidTransition(s.status, to)
  }

  function Moved(s: State, w: Wid, p: Phase): State {
    s.(workers := s.workers[w := p])
  }

  /** The worker sends a request and waits for its reply. */
  function Sent(s: State, w: Wid, p: Phase, r: Request): State {
    s.(workers := s.workers[w := p], inflight := s.inflight[w := r], replies := s.replies - {w})
  }

  /** The server told the worker not to start. */
  function Told(s: State, w: Wid): State {
    s.(refused := s.refused + {w})
  }

  function Answered(s: State, w: Wid, reply: Reply): State {
    s.(inflight := s.inflight - {w}, replies := s.replies[w := reply])
  }

  function Served(s: State, w: Wid): State
    requires w in s.inflight
  {
    match s.inflight[w]
    case Claim =>
      if s.status.Scheduled?
      then Answered(s, w, Accepted).(status := Running, claimers := s.claimers + [w])
      else Answered(s, w, Conflict)
    case End(outcome) =>
      if s.status.Running? then Answered(s, w, Ended).(status := outcome)
      else if outcome.Succeeded? then Answered(s, w, Ended)
      else s.(inflight := s.inflight[w := EndUnclaimed(outcome)])
    case EndUnclaimed(outcome) =>
      if s.status.Scheduled? then Answered(s, w, Ended).(status := outcome) else Answered(s, w, Ended)
  }

  function Received(s: State, w: Wid): State
    requires w in s.workers && w in s.replies
  {
    match s.workers[w]
    case Claiming =>
      (match s.replies[w]
       case Accepted => Moved(s, w, FetchingSecrets)
       case Conflict => Moved(s, w, Exited(Some(AlreadyClaimed)))
       case Ended => s)
    case Reporting(_, error) => if s.replies[w].Ended? then Moved(s, w, Exited(error)) else s
    case _ => s
  }

  function Next(s: State, l: Label): State
    requires Enabled(s, l)
  {
    match l
    case Dispatch => s.(status := Scheduled)
    case Start(w) => Moved(s, w, Fetching)
    case Fetch(w, ok, cancelRequested, pluginError) =>
      if !ok then Moved(s, w, Exited(Some(Other)))
      else if !s.status.Scheduled? then Moved(s, w, Exited(Some(AlreadyClaimed)))
      else if cancelRequested then Sent(Told(s, w), w, Reporting(Canceled, Some(RunCanceled)), End(Canceled))
      else if pluginError then Sent(Told(s, w), w, Reporting(Failed, Some(RunFailed)), End(Failed))
      else Sent(s, w, Claiming, Claim)
    case Secrets(w, ok) =>
      var tried := s.(fetchedSecrets := s.fetchedSecrets + {w});
      if ok then Moved(tried, w, Preparing) else Sent(tried, w, Reporting(Failed, Some(RunFailed)), End(Failed))
    case Prepare(w, ok) => if ok then Moved(s, w, Executing) else Moved(s, w, Exited(Some(Other)))
    case Execute(w, outcome, error) =>
      Sent(s.(executed := s.executed + {w}), w, Reporting(outcome, error), End(outcome))
    case Receive(w) => Received(s, w)
    case GiveUp(w) => Moved(s, w, Exited(Some(Other)))
    case Serve(w) => Served(s, w)
    case ServerEnds(to) => s.(status := to)
  }

  ghost function After(s: State, ls: seq<Label>): State {
    if ls == [] then s
    else
      var before := After(s, ls[..|ls| - 1]);
      if Enabled(before, ls[|ls| - 1]) then Next(before, ls[|ls| - 1]) else before
  }

  ghost predicate AllEnabled(s: State, ls: seq<Label>) {
    ls == [] || (AllEnabled(s, ls[..|ls| - 1]) && Enabled(After(s, ls[..|ls| - 1]), ls[|ls| - 1]))
  }

  // ---------- what every step keeps ----------

  predicate Claimed(p: Phase) {
    p.FetchingSecrets? || p.Preparing? || p.Executing?
  }

  predicate IsClaimer(s: State, w: Wid) {
    s.claimers == [w]
  }

  /** Past the claim, and reporting success, is only the claimer; exit zero means the run
      is no longer waiting to start. */
  predicate PhaseOK(s: State, w: Wid, p: Phase) {
    && (Claimed(p) ==> IsClaimer(s, w))
    && (p.Exited? && ExitCode(p.error) == 0 ==> !Waiting(s.status))
    && !s.status.Pending?
  }

  predicate RequestOK(s: State, w: Wid, r: Request) {
    (r == End(Succeeded) ==> IsClaimer(s, w)) && !s.status.Pending?
  }

  predicate ReplyOK(s: State, w: Wid, r: Reply) {
    && (r.Accepted? ==> IsClaimer(s, w))
    && (!r.Accepted? ==> !Waiting(s.status))
  }

  ghost predicate Inv(s: State) {
    && (Waiting(s.status) ==> s.claimers == [])
    && |s.claimers| <= 1
    && (forall w :: w in s.workers ==> PhaseOK(s, w, s.workers[w]))
    && (forall w :: w in s.inflight ==> RequestOK(s, w, s.inflight[w]))
    && (forall w :: w in s.replies ==> ReplyOK(s, w, s.replies[w]))
    && (forall w :: w in s.fetchedSecrets || w in s.executed ==> IsClaimer(s, w))
  }

  lemma MovedKeeps(s: State, w: Wid, p: Phase)
    requires Inv(s) && PhaseOK(s, w, p)
    ensures Inv(Moved(s, w, p))
  {
  }

  lemma SentKeeps(s: State, w: Wid, p: Phase, r: Request)
    requires Inv(s) && PhaseOK(s, w, p) && RequestOK(s, w, r)
    ensures Inv(Sent(s, w, p, r))
  {
  }

  lemma AnsweredKeeps(s: State, w: Wid, r: Reply)
    requires Inv(s) && ReplyOK(s, w, r)
    ensures Inv(Answered(s, w, r))
  {
  }

  /** Ending the run, from either side, keeps everything. */
  lemma EndingKeeps(s: State, to: Status)
    requires Inv(s) && Terminal(to)
    ensures Inv(s.(status := to))
  {
  }

  lemma ToldKeeps(s: State, w: Wid)
    requires Inv(s)
    ensures Inv(Told(s, w))
  {
  }

  lemma DispatchKeeps(s: State)
    requires Inv(s) && s.status.Pending?
    ensures Inv(s.(status := Scheduled))
  {
  }

  lemma ServedKeeps(s: State, w: Wid)
    requires Inv(s) && WellFormed(s) && w in s.inflight
    ensures Inv(Served(s, w))
  {
    assert Sendable(s.inflight[w]);
    match s.inflight[w] {
      case Claim =>
        if s.status.Scheduled? {
          assert s.claimers + [w] == [w];
          ClaimKeeps(s, w);
        } else {
          AnsweredKeeps(s, w, Conflict);
        }
      case End(outcome) =>
        if s.status.Running? {
          EndingKeeps(s, outcome);
          AnsweredKeeps(s.(status := outcome), w, Ended);
        } else if outcome.Succeeded? {
          AnsweredKeeps(s, w, Ended);
        }
      case EndUnclaimed(outcome) =>
        if s.status.Scheduled? {
          EndingKeeps(s, outcome);
          AnsweredKeeps(s.(status := outcome), w, Ended);
        } else {
          AnsweredKeeps(s, w, Ended);
        }
    }
  }

  lemma ClaimKeeps(s: State, w: Wid)
    requires Inv(s) && s.status.Scheduled? && w in s.inflight && s.inflight[w].Claim?
    ensures Inv(Answered(s, w, Accepted).(status := Running, claimers := [w]))
  {
  }

  lemma ReceivedKeeps(s: State, w: Wid)
    requires Inv(s) && Enabled(s, Receive(w))
    ensures Inv(Received(s, w))
  {
    hide Inv;
    ReplyHolds(s, w);
    PhaseHolds(s, w);
    match s.workers[w] {
      case Claiming =>
        if s.replies[w].Accepted? {
          MovedKeeps(s, w, FetchingSecrets);
        } else if s.replies[w].Conflict? {
          MovedKeeps(s, w, Exited(Some(AlreadyClaimed)));
        }
      case Reporting(_, error) =>
        if s.replies[w].Ended? {
          MovedKeeps(s, w, Exited(error));
        }
      case _ =>
    }
  }

  lemma ReplyHolds(s: State, w: Wid)
    requires Inv(s) && w in s.replies
    ensures ReplyOK(s, w, s.replies[w])
  {
  }

  lemma PhaseHolds(s: State, w: Wid)
    requires Inv(s) && w in s.workers
    ensures PhaseOK(s, w, s.workers[w])
  {
  }

  lemma SecretsKeep(s: State, w: Wid, ok: bool)
    requires Inv(s) && Enabled(s, Secrets(w, ok))
    ensures Inv(Next(s, Secrets(w, ok)))
  {
    var tried := s.(fetchedSecrets := s.fetchedSecrets + {w});
    PhaseHolds(s, w);
    assert Inv(tried);
    hide Inv;
    if ok {
      MovedKeeps(tried, w, Preparing);
    } else {
      SentKeeps(tried, w, Reporting(Failed, Some(RunFailed)), End(Failed));
    }
  }

  lemma ExecuteKeeps(s: State, w: Wid, outcome: Status, error: Option<WorkerError>)
    requires Inv(s) && Enabled(s, Execute(w, outcome, error))
    ensures Inv(Next(s, Execute(w, outcome, error)))
  {
    var ran := s.(executed := s.executed + {w});
    PhaseHolds(s, w);
    assert Inv(ran);
    hide Inv;
    SentKeeps(ran, w, Reporting(outcome, error), End(outcome));
  }

  lemma StepKeeps(s: State, l: Label)
    requires Inv(s) && WellFormed(s) && Enabled(s, l)
    ensures Inv(Next(s, l))
  {
    hide Inv, WellFormed, Served, Received, Sent, Moved;
    match l {
      case Serve(w) => ServedKeeps(s, w);
      case Receive(w) => ReceivedKeeps(s, w);
      case Secrets(w, ok) => SecretsKeep(s, w, ok);
      case Execute(w, outcome, error) => ExecuteKeeps(s, w, outcome, error);
      case Dispatch => DispatchKeeps(s);
      case Start(w) => MovedKeeps(s, w, Fetching);
      case GiveUp(w) =>
        PhaseHolds(s, w);
        MovedKeeps(s, w, Exited(Some(Other)));
      case ServerEnds(to) => EndingKeeps(s, to);
      case Prepare(w, ok) =>
        PhaseHolds(s, w);
        MovedKeeps(s, w, if ok then Executing else Exited(Some(Other)));
      case Fetch(w, ok, cancelRequested, pluginError) =>
        PhaseHolds(s, w);
        if !ok {
          MovedKeeps(s, w, Exited(Some(Other)));
        } else if !s.status.Scheduled? {
          MovedKeeps(s, w, Exited(Some(AlreadyClaimed)));
        } else if cancelRequested {
          ToldKeeps(s, w);
          SentKeeps(Told(s, w), w, Reporting(Canceled, Some(RunCanceled)), End(Canceled));
        } else if pluginError {
          ToldKeeps(s, w);
          SentKeeps(Told(s, w), w, Reporting(Failed, Some(RunFailed)), End(Failed));
        } else {
          SentKeeps(s, w, Claiming, Claim);
        }
    }
  }

  /** Reports carry terminal outcomes, and none ends an unclaimed run in success. */
  predicate Sendable(r: Request) {
    match r
    case Claim => true
    case End(outcome) => Terminal(outcome)
    case EndUnclaimed(outcome) => outcome.Failed? || outcome.Canceled?
  }

  ghost predicate WellFormed(s: State) {
    forall w :: w in s.inflight ==> Sendable(s.inflight[w])
  }

  lemma StatusStep(s: State, l: Label)
    requires Enabled(s, l) && WellFormed(s)
    ensures Next(s, l).status == s.status || ValidTransition(s.status, Next(s, l).status)
    ensures WellFormed(Next(s, l))
    ensures s.claimers <= Next(s, l).claimers
  {
    hide Served, Received;
    match l {
      case Serve(w) => ServedAdvances(s, w);
      case Receive(w) => ReceivedKeepsServer(s, w);
      case _ =>
    }
  }

  lemma ServedAdvances(s: State, w: Wid)
    requires WellFormed(s) && w in s.inflight
    ensures Served(s, w).status == s.status || ValidTransition(s.status, Served(s, w).status)
    ensures WellFormed(Served(s, w)) && s.claimers <= Served(s, w).claimers
  {
  }

  lemma ReceivedKeepsServer(s: State, w: Wid)
    requires Enabled(s, Receive(w))
    ensures Received(s, w).status == s.status && Received(s, w).inflight == s.inflight && Received(s, w).claimers == s.claimers
  {
  }

  lemma {:induction false} AlwaysHolds(ls: seq<Label>)
    requires AllEnabled(INITIAL, ls)
    ensures Inv(After(INITIAL, ls)) && WellFormed(After(INITIAL, ls))
  {
    if ls != [] {
      hide Inv, WellFormed, Next, Enabled;
      AlwaysHolds(ls[..|ls| - 1]);
      StatusStep(After(INITIAL, ls[..|ls| - 1]), ls[|ls| - 1]);
      StepKeeps(After(INITIAL, ls[..|ls| - 1]), ls[|ls| - 1]);
    } else {
      assert Inv(INITIAL);
    }
  }

  /** However many workers race, in every interleaving: at most one RUNNING transition
      passes, and only the worker that made it asks for secrets or executes the task. */
  lemma OneClaimer(ls: seq<Label>, w: Wid)
    requires AllEnabled(INITIAL, ls)
    ensures var s := After(INITIAL, ls);
            && |s.claimers| <= 1
            && (w in s.fetchedSecrets || w in s.executed ==> s.claimers == [w])
            && (w in s.workers && Claimed(s.workers[w]) ==> s.claimers == [w])
  {
    hide Next, Enabled;
    AlwaysHolds(ls);
  }

  /** A worker that exits zero leaves a run that no restart could start. */
  lemma ExitZeroMeansNotScheduled(ls: seq<Label>, w: Wid)
    requires AllEnabled(INITIAL, ls) && w in After(INITIAL, ls).workers
    ensures var p := After(INITIAL, ls).workers[w];
            p.Exited? && ExitCode(p.error) == 0 ==> !Waiting(After(INITIAL, ls).status)
  {
    hide Next, Enabled;
    AlwaysHolds(ls);
  }

  function Stage(s: Status): nat {
    if s.Pending? then 0 else if s.Scheduled? then 1 else if s.Running? then 2 else 3
  }

  /** Once started a run never waits again, and once ended it never changes. */
  lemma {:induction false} StatusOnlyAdvances(s: State, ls: seq<Label>)
    requires WellFormed(s) && AllEnabled(s, ls)
    ensures WellFormed(After(s, ls)) && s.claimers <= After(s, ls).claimers
    ensures Stage(s.status) <= Stage(After(s, ls).status)
    ensures Terminal(s.status) ==> After(s, ls).status == s.status
  {
    if ls != [] {
      hide Next, Enabled;
      StatusOnlyAdvances(s, ls[..|ls| - 1]);
      StatusStep(After(s, ls[..|ls| - 1]), ls[|ls| - 1]);
    }
  }

  // ---------- whose requests are on their way ----------

  /** How worker w stands, whatever else happens: a claim in flight is that of a worker
      waiting for it or gone; a report in flight is the claimer's or that of a worker told
      not to start; one told not to start never claims; and the claimer has its answer
      coming until it reads it, and its report in flight while the run still runs. */
  ghost predicate Account(s: State, w: Wid) {
    && (w in s.inflight ==> w in s.workers && w !in s.replies)
    && (w in s.inflight && s.inflight[w].Claim? ==> (s.workers[w].Claiming? || s.workers[w].Exited?) && w !in s.refused)
    && (w in s.inflight && !s.inflight[w].Claim? ==> w in s.refused || IsClaimer(s, w))
    && (w in s.refused ==> !IsClaimer(s, w) && w in s.workers && (s.workers[w].Reporting? || s.workers[w].Exited?))
    && (IsClaimer(s, w) ==> w in s.workers && !s.workers[w].Fetching?)
    && (IsClaimer(s, w) && w in s.workers && s.workers[w].Claiming? ==> w in s.replies && s.replies[w].Accepted?)
    && (IsClaimer(s, w) && w in s.workers && s.workers[w].Reporting? && s.status.Running? ==> w in s.inflight && s.inflight[w].End?)
  }

  ghost predicate Accounted(s: State) {
    forall w :: Account(s, w)
  }

  lemma ServedAccounts(s: State, w: Wid)
    requires Inv(s) && WellFormed(s) && Accounted(s) && w in s.inflight
    ensures Accounted(Served(s, w))
  {
    assert Account(s, w) && Sendable(s.inflight[w]);
    assert s.claimers == [] ==> s.claimers + [w] == [w];
    var after := Served(s, w);
    forall u ensures Account(after, u) {
      assert Account(s, u);
    }
  }

  lemma ReceivedAccounts(s: State, w: Wid)
    requires Inv(s) && Accounted(s) && Enabled(s, Receive(w))
    ensures Accounted(Received(s, w))
  {
    forall u ensures Account(Received(s, w), u) {
      assert Account(s, u);
    }
  }

  lemma FetchAccounts(s: State, l: Label)
    requires Inv(s) && Accounted(s) && Enabled(s, l) && l.Fetch?
    ensures Accounted(Next(s, l))
  {
    forall u ensures Account(Next(s, l), u) {
      assert Account(s, u);
    }
  }

  lemma StepAccounts(s: State, l: Label)
    requires Inv(s) && WellFormed(s) && Accounted(s) && Enabled(s, l)
    ensures Accounted(Next(s, l))
  {
    match l {
      case Serve(w) => ServedAccounts(s, w);
      case Receive(w) => ReceivedAccounts(s, w);
      case Fetch(_, _, _, _) => FetchAccounts(s, l);
      case _ =>
        hide Served, Received;
        forall u ensures Account(Next(s, l), u) {
          assert Account(s, u);
        }
    }
  }

  ghost predicate Sound(s: State) {
    Inv(s) && WellFormed(s) && Accounted(s)
  }

  lemma {:induction false} SoundStays(s: State, ls: seq<Label>)
    requires Sound(s) && AllEnabled(s, ls)
    ensures Sound(After(s, ls))
  {
    if ls != [] {
      hide Inv, WellFormed, Next, Enabled, Accounted;
      var before := After(s, ls[..|ls| - 1]);
      SoundStays(s, ls[..|ls| - 1]);
      StepKeeps(before, ls[|ls| - 1]);
      StatusStep(before, ls[|ls| - 1]);
      StepAccounts(before, ls[|ls| - 1]);
    }
  }
}
