// The provisioner daemon's server: a loop that acquires and runs one job after the other, graceful shutdown, and close.

/** The server as a state machine: one event per lock region, channel operation or step of the acquire loop. */
module ProvisionerdProtocol {
  import opened Wrappers

  type Job = nat
  type Caller = nat
  type Error = string

  /** Where the acquire loop is. */
  datatype Acquire =
    | CheckExit                     // at the top, before the lock region of acquireExit
    | AwaitClient                   // past it, in the select of client
    | Acquiring                     // asking the server for the next job, up to the lock region that sets activeJob
    | RunningJob                    // activeJob is set
    | Leaving                       // returned, deferred functions not run yet
    | Signalled                     // acquireDoneCh closed
    | Gone                          // wg.Done called

  /** Where the first call of closeWithError is; the others only wait for closedCh. */
  datatype Closing =
    | NotClosing
    | FailingJob(job: Option<Job>, err: Option<Error>)   // past its lock region, with the job it saw
    | Cancelling(err: Option<Error>)                     // about to cancel closeContext
    | Waiting(err: Option<Error>)                        // in wg.Wait
    | Closed

  datatype State = State(
    shuttingDown: bool,                    // shuttingDownB, and shuttingDownCh closed with it
    closing: bool,                         // closingB
    activeJob: Option<Job>,
    closeError: Option<Error>,
    contextDone: bool,                     // closeContext is cancelled
    closedChCloses: nat,
    acquireDoneCloses: nat,
    acquire: Acquire,
    connectGone: bool,                     // the connect loop has called wg.Done
    first: Closing,
    firstCaller: Option<Caller>,
    closers: set<Caller>,                  // every caller of closeWithError past its lock region
    closeReturns: map<Caller, Option<Error>>,
    shutdowns: set<Caller>,                // Shutdown calls past their lock region
    shutdownReturns: map<Caller, bool>,    // whether they returned nil
    // History, read by no step.
    started: seq<Job>,                     // jobs in the order they were started
    failed: seq<Job>,                      // jobs failed by a close call
    closeArg: Option<Error>,               // the error passed to the first close call
    failErr: Option<Error>,                // the error it got from failing the active job
    cancelled: seq<Job>,                   // jobs cancelled by a Shutdown call
    activeAtClose: Option<Job>,            // the job active in the lock region of the first close call
    startedBefore: nat)                    // how many jobs had been started by then

  datatype Event =
    | ShutdownLock(c: Caller, cancelJob: bool)
    | ShutdownGivesUp(c: Caller)                         // its context ends first
    | ShutdownReturns(c: Caller)                         // acquireDoneCh comes first
    | CloseLock(c: Caller, err: Option<Error>)
    | FailActive(failErr: Option<Error>)
    | CancelContext
    | FinishClose
    | CloseReturns(c: Caller)
    | ExitCheck
    | GetClient
    | ClientGone                                         // client returns !ok
    | AcquireFails                                       // no job, or no provisioner for it
    | StartJob(job: Job)
    | EndJob
    | SignalAcquireDone
    | AcquireGone
    | ConnectGone

  function Init(): State {
    State(false, false, None, None, false, 0, 0, CheckExit, false, NotClosing, None, {}, map[], {}, map[], [], [],
        None, None, [],
          None, 0)
  }

  predicate Enabled(s: State, e: Event) {
    match e
    case ShutdownLock(c, _) => c !in s.shutdowns
    case ShutdownGivesUp(c) => c in s.shutdowns && c !in s.shutdownReturns
    case ShutdownReturns(c) => c in s.shutdowns && c !in s.shutdownReturns && s.acquireDoneCloses > 0
    case CloseLock(c, _) => c !in s.closers
    case FailActive(failErr) => s.first.FailingJob? && (s.first.job.None? ==> failErr.None?)
    case CancelContext => s.first.Cancelling?
    case FinishClose => s.first.Waiting? && s.acquire == Gone && s.connectGone
    case CloseReturns(c) => c in s.closers && c !in s.closeReturns && s.closedChCloses > 0
    case ExitCheck => s.acquire == CheckExit
    case GetClient => s.acquire == AwaitClient
    case ClientGone => s.acquire == AwaitClient && (s.contextDone || s.shuttingDown)
    case AcquireFails => s.acquire == Acquiring
    case StartJob(_) => s.acquire == Acquiring
    case EndJob => s.acquire == RunningJob
    case SignalAcquireDone => s.acquire == Leaving
    case AcquireGone => s.acquire == Signalled
    case ConnectGone => !s.connectGone
  }

  function Apply(s: State, e: Event): State
    requires Enabled(s, e)
  {
    match e
    case ShutdownLock(c, cancelJob) =>
      s.(shuttingDown := true, shutdowns := s.shutdowns + {c},
         cancelled := if cancelJob && s.activeJob.Some? then s.cancelled + [s.activeJob.value] else s.cancelled)
    case ShutdownGivesUp(c) => s.(shutdownReturns := s.shutdownReturns[c := false])
    case ShutdownReturns(c) => s.(shutdownReturns := s.shutdownReturns[c := true])
    case CloseLock(c, err) =>
      if s.closing then s.(closers := s.closers + {c})
      else s.(closing := true, closers := s.closers + {c}, firstCaller := Some(c),
          first := FailingJob(s.activeJob, err),
              closeArg := err, activeAtClose := s.activeJob, startedBefore := |s.started|)
    case FailActive(failErr) =>
      s.(failed := if s.first.job.Some? then s.failed + [s.first.job.value] else s.failed,
         first := Cancelling(if s.first.err.None? then failErr else s.first.err), failErr := failErr)
    case CancelContext => s.(contextDone := true, first := Waiting(s.first.err))
    case FinishClose => s.(closeError := s.first.err, closedChCloses := s.closedChCloses + 1, first := Closed)
    case CloseReturns(c) => s.(closeReturns := s.closeReturns[c := s.closeError])
    case ExitCheck => s.(acquire := if s.closing || s.shuttingDown then Leaving else AwaitClient)
    case GetClient => s.(acquire := Acquiring)
    case ClientGone => s.(acquire := Leaving)
    case AcquireFails => s.(acquire := CheckExit)
    case StartJob(job) => s.(acquire := RunningJob, activeJob := Some(job), started := s.started + [job])
    case EndJob => s.(acquire := CheckExit, activeJob := None)
    case SignalAcquireDone => s.(acquire := Signalled, acquireDoneCloses := s.acquireDoneCloses + 1)
    case AcquireGone => s.(acquire := Gone)
    case ConnectGone => s.(connectGone := true)
  }

  /** The state after the given events, if each of them was possible when it happened. */
  function Run(s: State, es: seq<Event>): Option<State>
    decreases |es|
  {
    if es == [] then Some(s)
    else if Enabled(s, es[0]) then Run(Apply(s, es[0]), es[1..])
    else None
  }

  // ----- The invariant

  predicate LoopLeft(s: State) { s.acquire == Signalled || s.acquire == Gone }

  ghost predicate Loop(s: State) {
    && (s.activeJob.Some? <==> s.acquire == RunningJob)
    && s.acquireDoneCloses == (if LoopLeft(s) then 1 else 0)
    && (s.shutdowns != {} ==> s.shuttingDown)
    && (forall c :: c in s.shutdownReturns ==> c in s.shutdowns && (s.shutdownReturns[c] ==> LoopLeft(s)))
    && (s.acquire == Leaving || LoopLeft(s) ==> s.closing || s.shuttingDown || s.contextDone)
  }

  /** The first close call's own error or, without one, what failing the active job gave. */
  function CloseResult(s: State): Option<Error> { if s.closeArg.None? then s.failErr else s.closeArg }

  ghost predicate Close(s: State) {
    && (s.closing <==> s.first != NotClosing)
    && (s.closing <==> s.firstCaller.Some?)
    && (s.closers != {} <==> s.closing)
    && (s.firstCaller.Some? ==> s.firstCaller.value in s.closers)
    && (s.contextDone <==> s.first.Waiting? || s.first.Closed?)
    && s.closedChCloses == (if s.first.Closed? then 1 else 0)
    && (s.first.Closed? ==> s.acquire == Gone && s.connectGone)
    && (s.first.FailingJob? ==> s.first.err == s.closeArg)
    && (s.first.Cancelling? || s.first.Waiting? ==> s.first.err == CloseResult(s))
    && (s.first.Closed? ==> s.closeError == CloseResult(s))
    && (forall c :: c in s.closeReturns ==> c in s.closers && s.first.Closed? && s.closeReturns[c] == s.closeError)
  }

  /** The first close call has dealt with the job it saw. */
  predicate PastFailing(s: State) { !s.first.NotClosing? && !s.first.FailingJob? }

  /** The active job is the one started last, and the job that is failed is the one that was active at the first
      close. */
  ghost predicate Jobs(s: State) {
    && (s.activeJob.Some? ==> s.started != [] && s.started[|s.started| - 1] == s.activeJob.value)
    && (s.first.FailingJob? ==> s.first.job == s.activeAtClose)
    && s.failed == (if PastFailing(s) && s.activeAtClose.Some? then [s.activeAtClose.value] else [])
    && s.startedBefore <= |s.started|
    && (s.activeAtClose.Some? ==> s.startedBefore > 0 && s.started[s.startedBefore - 1] == s.activeAtClose.value)
  }

  ghost predicate Inv(s: State) { Loop(s) && Close(s) && Jobs(s) }

  /** Steps of the acquire loop. */
  predicate OfLoop(e: Event) {
    || e.ExitCheck? || e.GetClient? || e.ClientGone? || e.AcquireFails?
    || e.StartJob? || e.EndJob? || e.SignalAcquireDone? || e.AcquireGone?
  }

  predicate OfShutdown(e: Event) { e.ShutdownLock? || e.ShutdownGivesUp? || e.ShutdownReturns? }

  /** Steps of the first close call past its lock region. */
  predicate OfFirst(e: Event) { e.FailActive? || e.CancelContext? || e.FinishClose? }

  predicate OfCallers(e: Event) { e.CloseLock? || e.CloseReturns? || e.ConnectGone? }

  lemma Groups(e: Event)
    ensures OfLoop(e) || OfShutdown(e) || OfFirst(e) || OfCallers(e)
  {
  }

  lemma LoopKeepsLoop(s: State, e: Event)
    requires Loop(s) && Enabled(s, e) && OfLoop(e)
    ensures Loop(Apply(s, e))
    ensures LoopLeft(s) ==> LoopLeft(Apply(s, e)) && !e.StartJob?
  {
  }

  lemma ShutdownKeepsLoop(s: State, e: Event)
    requires Loop(s) && Enabled(s, e) && OfShutdown(e)
    ensures Loop(Apply(s, e)) && Apply(s, e).acquire == s.acquire
  {
  }

  lemma FirstKeepsLoop(s: State, e: Event)
    requires Loop(s) && Enabled(s, e) && OfFirst(e)
    ensures Loop(Apply(s, e)) && Apply(s, e).acquire == s.acquire
  {
  }

  lemma CallersKeepLoop(s: State, e: Event)
    requires Loop(s) && Enabled(s, e) && OfCallers(e)
    ensures Loop(Apply(s, e)) && Apply(s, e).acquire == s.acquire
  {
  }

  lemma StepKeepsLoop(s: State, e: Event)
    requires Loop(s) && Enabled(s, e)
    ensures Loop(Apply(s, e))
    ensures LoopLeft(s) ==> LoopLeft(Apply(s, e)) && !e.StartJob?
  {
    Groups(e);
    if OfLoop(e) {
      LoopKeepsLoop(s, e);
    } else if OfShutdown(e) {
      ShutdownKeepsLoop(s, e);
    } else if OfFirst(e) {
      FirstKeepsLoop(s, e);
    } else {
      CallersKeepLoop(s, e);
    }
  }

  lemma LoopKeepsClose(s: State, e: Event)
    requires Loop(s) && Close(s) && Enabled(s, e) && OfLoop(e)
    ensures Close(Apply(s, e))
  {
  }

  lemma ShutdownKeepsClose(s: State, e: Event)
    requires Close(s) && Enabled(s, e) && OfShutdown(e)
    ensures Close(Apply(s, e))
  {
  }

  lemma FirstKeepsClose(s: State, e: Event)
    requires Close(s) && Enabled(s, e) && OfFirst(e)
    ensures Close(Apply(s, e))
  {
  }

  lemma CallersKeepClose(s: State, e: Event)
    requires Close(s) && Enabled(s, e) && OfCallers(e)
    ensures Close(Apply(s, e))
  {
  }

  lemma StepKeepsClose(s: State, e: Event)
    requires Loop(s) && Close(s) && Enabled(s, e)
    ensures Close(Apply(s, e))
  {
    Groups(e);
    if OfLoop(e) {
      LoopKeepsClose(s, e);
    } else if OfShutdown(e) {
      ShutdownKeepsClose(s, e);
    } else if OfFirst(e) {
      FirstKeepsClose(s, e);
    } else {
      CallersKeepClose(s, e);
    }
  }

  lemma LoopKeepsJobs(s: State, e: Event)
    requires Jobs(s) && Enabled(s, e) && OfLoop(e)
    ensures Jobs(Apply(s, e))
  {
  }

  lemma ShutdownKeepsJobs(s: State, e: Event)
    requires Jobs(s) && Enabled(s, e) && OfShutdown(e)
    ensures Jobs(Apply(s, e))
  {
  }

  lemma FirstKeepsJobs(s: State, e: Event)
    requires Jobs(s) && Enabled(s, e) && OfFirst(e)
    ensures Jobs(Apply(s, e))
  {
  }

  lemma CallersKeepJobs(s: State, e: Event)
    requires Close(s) && Jobs(s) && Enabled(s, e) && OfCallers(e)
    ensures Jobs(Apply(s, e))
  {
  }

  lemma StepKeepsJobs(s: State, e: Event)
    requires Close(s) && Jobs(s) && Enabled(s, e)
    ensures Jobs(Apply(s, e))
  {
    Groups(e);
    if OfLoop(e) {
      LoopKeepsJobs(s, e);
    } else if OfShutdown(e) {
      ShutdownKeepsJobs(s, e);
    } else if OfFirst(e) {
      FirstKeepsJobs(s, e);
    } else {
      CallersKeepJobs(s, e);
    }
  }

  lemma StepKeepsInv(s: State, e: Event)
    requires Inv(s) && Enabled(s, e)
    ensures Inv(Apply(s, e))
    ensures LoopLeft(s) ==> LoopLeft(Apply(s, e)) && !e.StartJob?
  {
    StepKeepsLoop(s, e);
    StepKeepsClose(s, e);
    StepKeepsJobs(s, e);
  }

  lemma {:induction false} RunKeepsInv(s: State, es: seq<Event>)
    requires Inv(s) && Run(s, es).Some?
    ensures Inv(Run(s, es).value)
    decreases |es|
  {
    if es != [] {
      StepKeepsInv(s, es[0]);
      RunKeepsInv(Apply(s, es[0]), es[1..]);
    }
  }

  // ----- What every run promises

  /** Jobs that a run starts. */
  function Starts(es: seq<Event>): nat {
    if es == [] then 0 else (if es[0].StartJob? then 1 else 0) + Starts(es[1..])
  }

  /** The acquire loop is past its exit check and has not started the job it went for. */
  predicate Committed(s: State) { s.acquire == AwaitClient || s.acquire == Acquiring }

  /** Acquisitions that a run finishes, with a job or without. */
  function Attempts(es: seq<Event>): nat {
    if es == [] then 0 else (if es[0].StartJob? || es[0].AcquireFails? then 1 else 0) + Attempts(es[1..])
  }

  lemma {:induction false} StartsAreAttempts(es: seq<Event>)
    ensures Starts(es) <= Attempts(es)
    decreases |es|
  {
    if es != [] {
      StartsAreAttempts(es[1..]);
    }
  }

  lemma StepSpendsStart(s: State, e: Event)
    requires (s.shuttingDown || s.closing) && Enabled(s, e)
    ensures Apply(s, e).shuttingDown || Apply(s, e).closing
    ensures (if e.StartJob? || e.AcquireFails? then 1 else 0) + (if Committed(Apply(s, e)) then 1 else 0) <=
            if Committed(s) then 1 else 0
  {
  }

  /** Once shutdown or close has set its flag, the loop starts at most the one job it had already gone for. */
  lemma AtMostOneMoreJob(s: State, es: seq<Event>)
    requires (s.shuttingDown || s.closing) && Run(s, es).Some?
    ensures Starts(es) <= Attempts(es) <= if Committed(s) then 1 else 0
  {
    StartsAreAttempts(es);
    AtMostOneAttempt(s, es);
  }

  lemma {:induction false} AtMostOneAttempt(s: State, es: seq<Event>)
    requires (s.shuttingDown || s.closing) && Run(s, es).Some?
    ensures Attempts(es) <= if Committed(s) then 1 else 0
    decreases |es|
  {
    if es != [] {
      StepSpendsStart(s, es[0]);
      AtMostOneAttempt(Apply(s, es[0]), es[1..]);
    }
  }

  /** The loop leaves at its exit check exactly when a flag is set, and whenever it gets no client. */
  lemma LoopLeavesIff(s: State)
    ensures Enabled(s, ExitCheck) ==> (Apply(s, ExitCheck).acquire == Leaving <==> s.closing || s.shuttingDown)
    ensures Enabled(s, ClientGone) ==> Apply(s, ClientGone).acquire == Leaving
  {
  }

  /** Once a Shutdown call has returned, its result stays. */
  lemma {:induction false} ResultStays(s: State, es: seq<Event>, c: Caller)
    requires c in s.shutdownReturns && Run(s, es).Some?
    ensures var r := Run(s, es).value.shutdownReturns; c in r && r[c] == s.shutdownReturns[c]
    ensures ShutdownReturns(c) !in es
    decreases |es|
  {
    if es != [] {
      ResultStays(Apply(s, es[0]), es[1..], c);
    }
  }

  /** A Shutdown call returns nil exactly if it sees the acquire loop done before its own context ends. */
  lemma {:induction false} ReturnsNilIff(s: State, es: seq<Event>, c: Caller)
    requires c !in s.shutdownReturns && Run(s, es).Some?
    ensures var r := Run(s, es).value.shutdownReturns;
            && (c in r <==> ShutdownReturns(c) in es || ShutdownGivesUp(c) in es)
            && (c in r ==> (r[c] <==> ShutdownReturns(c) in es))
    decreases |es|
  {
    if es != [] {
      var t := Apply(s, es[0]);
      assert es == [es[0]] + es[1..];
      if c in t.shutdownReturns {
        ResultStays(t, es[1..], c);
      } else {
        ReturnsNilIff(t, es[1..], c);
      }
    }
  }

  // ----- Which jobs are active and which are cancelled, from the events alone

  /** The active job after an event. */
  function ActiveAfter(active: Option<Job>, e: Event): Option<Job> {
    match e
    case StartJob(job) => Some(job)
    case EndJob => None
    case _ => active
  }

  function CancelledBy(active: Option<Job>, e: Event): seq<Job> {
    if e.ShutdownLock? && e.cancelJob && active.Some? then [active.value] else []
  }

  function ActiveAtEnd(active: Option<Job>, es: seq<Event>): Option<Job>
    decreases |es|
  {
    if es == [] then active else ActiveAtEnd(ActiveAfter(active, es[0]), es[1..])
  }

  /** The jobs active when a Shutdown that is to cancel took the lock. */
  function Cancellations(active: Option<Job>, es: seq<Event>): seq<Job>
    decreases |es|
  {
    if es == [] then [] else CancelledBy(active, es[0]) + Cancellations(ActiveAfter(active, es[0]), es[1..])
  }

  lemma StepCancels(s: State, e: Event)
    requires Enabled(s, e)
    ensures Apply(s, e).activeJob == ActiveAfter(s.activeJob, e)
    ensures Apply(s, e).cancelled == s.cancelled + CancelledBy(s.activeJob, e)
  {
    assert s.cancelled + [] == s.cancelled;
  }

  lemma Associate(a: seq<Job>, b: seq<Job>, c: seq<Job>)
    ensures (a + b) + c == a + (b + c)
    ensures a + [] == a && [] + a == a
  {
  }

  lemma {:induction false} RunCancels(s: State, es: seq<Event>)
    requires Run(s, es).Some?
    ensures Run(s, es).value.activeJob == ActiveAtEnd(s.activeJob, es)
    ensures Run(s, es).value.cancelled == s.cancelled + Cancellations(s.activeJob, es)
    decreases |es|
  {
    if es == [] {
      Associate(s.cancelled, [], []);
    } else {
      var t := Apply(s, es[0]);
      StepCancels(s, es[0]);
      RunCancels(t, es[1..]);
      Associate(s.cancelled, CancelledBy(s.activeJob, es[0]), Cancellations(t.activeJob, es[1..]));
    }
  }

  /** In every run: a Shutdown that is to cancel cancels exactly the job started last and not ended, if there is
      one; one that is not cancels none. */
  lemma ShutdownCancelsActive(es: seq<Event>)
    requires Run(Init(), es).Some?
    ensures Run(Init(), es).value.activeJob == ActiveAtEnd(None, es)
    ensures Run(Init(), es).value.cancelled == Cancellations(None, es)
  {
    RunCancels(Init(), es);
    Associate(Cancellations(None, es), [], []);
  }

  /** ... and it may start that one: the bound is exact. */
  lemma CommittedMayStart(s: State, job: Job)
    requires Committed(s)
    ensures exists es :: Run(s, es).Some? && Starts(es) == 1
  {
    var es := if s.acquire == AwaitClient then [GetClient, StartJob(job)] else [StartJob(job)];
    assert Starts([StartJob(job)]) == 1;
    if s.acquire == AwaitClient {
      var s1 := Apply(s, GetClient);
      assert Run(s1, [StartJob(job)]).Some?;
      assert es[1..] == [StartJob(job)];
    }
    assert Run(s, es).Some? && Starts(es) == 1;
  }

  /** This happens: shutdown begins, by either call, after the exit check, and one more job is started. */
  lemma OneMoreJobExample(c: Caller, job: Job, flag: Event)
    requires flag == ShutdownLock(c, false) || flag == CloseLock(c, None)
    ensures var r := Run(Init(), [ExitCheck, flag]);
            && r.Some? && (r.value.shuttingDown || r.value.closing)
            && Run(r.value, [GetClient, StartJob(job)]).Some? && Starts([GetClient, StartJob(job)]) == 1
  {
    var s1 := Apply(Init(), ExitCheck);
    var s2 := Apply(s1, flag);
    assert Run(s1, [flag]) == Some(s2);
    var s3 := Apply(s2, GetClient);
    assert Run(s3, [StartJob(job)]).Some?;
    assert [GetClient, StartJob(job)][1..] == [StartJob(job)];
    assert Starts([StartJob(job)]) == 1;
  }

  /** When Shutdown returns nil, or Close returns at all, no job is active and none is ever started again. */
  lemma QuietAfterReturn(es: seq<Event>, more: seq<Event>)
    requires Run(Init(), es).Some? && Run(Run(Init(), es).value, more).Some?
    requires var s := Run(Init(), es).value;
             (exists c :: c in s.shutdownReturns && s.shutdownReturns[c]) || s.closeReturns.Keys != {}
    ensures Run(Init(), es).value.activeJob == None
    ensures Starts(more) == 0
    ensures Run(Run(Init(), es).value, more).value.activeJob == None
  {
    RunKeepsInv(Init(), es);
    var s := Run(Init(), es).value;
    StaysGone(s, more);
  }

  lemma {:induction false} StaysGone(s: State, es: seq<Event>)
    requires Inv(s) && LoopLeft(s) && Run(s, es).Some?
    ensures Starts(es) == 0 && Run(s, es).value.activeJob == None
    decreases |es|
  {
    if es != [] {
      StepKeepsInv(s, es[0]);
      StaysGone(Apply(s, es[0]), es[1..]);
    }
  }

  /** The first close call of a run. */
  function FirstClose(es: seq<Event>): Option<Event> {
    if es == [] then None else if es[0].CloseLock? then Some(es[0]) else FirstClose(es[1..])
  }

  lemma StepKeepsFirst(s: State, e: Event)
    requires Enabled(s, e)
    ensures var t := Apply(s, e);
            if s.closing || !e.CloseLock? then t.closing == s.closing && t.firstCaller == s.firstCaller
                && t.closeArg == s.closeArg
            else t.closing && t.firstCaller == Some(e.c) && t.closeArg == e.err
  {
  }

  /** The first close call stays the first, and its error is the one that counts, whatever follows. */
  lemma {:induction false} FirstCloseStays(s: State, es: seq<Event>)
    requires Run(s, es).Some?
    ensures FirstClose(es).Some? ==> FirstClose(es).value.CloseLock?
    ensures var r, f := Run(s, es).value, FirstClose(es);
            if s.closing || f.None? then r.closing == s.closing && r.firstCaller == s.firstCaller
                && r.closeArg == s.closeArg
            else r.closing && r.firstCaller == Some(f.value.c) && r.closeArg == f.value.err
    decreases |es|
  {
    if es != [] {
      StepKeepsFirst(s, es[0]);
      FirstCloseStays(Apply(s, es[0]), es[1..]);
    }
  }

  /** However many close calls there are: the first one stays the first, the active job is failed at most once,
      closedCh is closed at most once, and all that have returned returned the first one's error or, without one,
      that of failing the job, after both background loops were gone. */
  lemma CloseOnce(es: seq<Event>)
    requires Run(Init(), es).Some?
    ensures var s, f := Run(Init(), es).value, FirstClose(es);
            && (s.closing <==> f.Some?)
            && (f.Some? ==> f.value.CloseLock? && s.firstCaller == Some(f.value.c) && s.closeArg == f.value.err)
            && |s.failed| <= 1
            && s.closedChCloses <= 1 && s.acquireDoneCloses <= 1
            && (forall c :: c in s.closeReturns ==> s.closeReturns[c] == CloseResult(s))
            && (s.closeReturns.Keys != {} ==> s.acquire == Gone && s.connectGone && s.contextDone)
  {
    RunKeepsInv(Init(), es);
    FirstCloseStays(Init(), es);
  }

  lemma {:induction false} ClosingKeepsView(s: State, es: seq<Event>)
    requires s.closing && Run(s, es).Some?
    ensures var r := Run(s, es).value;
            r.closing && r.activeAtClose == s.activeAtClose && r.startedBefore == s.startedBefore
    decreases |es|
  {
    if es != [] {
      ClosingKeepsView(Apply(s, es[0]), es[1..]);
    }
  }

  /** The job that a close fails is the one that was active in the lock region of the first close call, if any. A job
      started after that is not failed, although Close is said to mark running jobs as failed. */
  lemma FailedIsActiveAtClose(before: seq<Event>, c: Caller, err: Option<Error>, after: seq<Event>)
    requires Run(Init(), before).Some? && !Run(Init(), before).value.closing
    requires Enabled(Run(Init(), before).value, CloseLock(c, err))
    requires Run(Apply(Run(Init(), before).value, CloseLock(c, err)), after).Some?
    ensures var s := Run(Init(), before).value;
            var r := Run(Apply(s, CloseLock(c, err)), after).value;
            && r.failed == (if PastFailing(r) && s.activeJob.Some? then [s.activeJob.value] else [])
            && (r.closeReturns.Keys != {} ==> PastFailing(r))
            && (s.activeJob.Some? ==> s.started != [] && s.started[|s.started| - 1] == s.activeJob.value)
  {
    var s := Run(Init(), before).value;
    RunKeepsInv(Init(), before);
    var t := Apply(s, CloseLock(c, err));
    StepKeepsInv(s, CloseLock(c, err));
    RunKeepsInv(t, after);
    ClosingKeepsView(t, after);
  }

  /** A loop that had gone for a job when close began starts it, and close does not fail it. */
  lemma LateJobExample(c: Caller, job: Job)
    ensures var r := Run(Init(), [ExitCheck, CloseLock(c, None), GetClient, StartJob(job), FailActive(None)]);
            r.Some? && PastFailing(r.value) && r.value.activeJob == Some(job) && r.value.failed == []
  {
    var s1 := Apply(Init(), ExitCheck);
    var s2 := Apply(s1, CloseLock(c, None));
    var s3 := Apply(s2, GetClient);
    var s4 := Apply(s3, StartJob(job));
    var s5 := Apply(s4, FailActive(None));
    assert Run(s4, [FailActive(None)]) == Some(s5);
    assert Run(s3, [StartJob(job), FailActive(None)]) == Some(s5);
    assert Run(s2, [GetClient, StartJob(job), FailActive(None)]) == Some(s5);
    assert Run(s1, [CloseLock(c, None), GetClient, StartJob(job), FailActive(None)]) == Some(s5);
  }
}

/** The server's fields, changed in place; one method per lock region. */
module ProvisionerdServer {
  import opened Wrappers
  import P = ProvisionerdProtocol

  class Server {
    var shuttingDownB: bool
    var closingB: bool
    var activeJob: Option<P.Job>
    var closeError: Option<P.Error>
    var closedCh: nat              // how often it has been closed
    ghost var rest: P.State

    ghost function View(): P.State
      reads this
    {
      rest.(shuttingDown := shuttingDownB, closing := closingB, activeJob := activeJob, closeError := closeError,
            closedChCloses := closedCh)
    }

    constructor ()
      ensures View() == P.Init()
    {
      shuttingDownB, closingB, activeJob, closeError, closedCh := false, false, None, None, 0;
      rest := P.Init();
    }

    method AcquireExit() returns (exit: bool)
      requires P.Enabled(View(), P.ExitCheck)
      modifies this
      ensures View() == P.Apply(old(View()), P.ExitCheck)
      ensures exit <==> View().acquire == P.Leaving
    {
      exit := closingB || shuttingDownB;
      rest := rest.(acquire := if exit then P.Leaving else P.AwaitClient);
    }

    /** The lock region of Shutdown; the job it cancels, if any. */
    method Shutdown(c: P.Caller, cancelActiveJob: bool) returns (cancel: Option<P.Job>)
      requires P.Enabled(View(), P.ShutdownLock(c, cancelActiveJob))
      modifies this
      ensures View() == P.Apply(old(View()), P.ShutdownLock(c, cancelActiveJob))
      ensures View().cancelled == old(View().cancelled) + if cancel.Some? then [cancel.value] else []
    {
      if !shuttingDownB {
        shuttingDownB := true;
      }
      cancel := if cancelActiveJob then activeJob else None;
      rest := rest.(shutdowns := rest.shutdowns + {c},
                    cancelled := if cancel.Some? then rest.cancelled + [cancel.value] else rest.cancelled);
    }

    /** The lock region of closeWithError; the job the caller is to fail, if any. */
    method CloseWithError(c: P.Caller, err: Option<P.Error>) returns (first: bool, job: Option<P.Job>)
      requires P.Enabled(View(), P.CloseLock(c, err))
      modifies this
      ensures View() == P.Apply(old(View()), P.CloseLock(c, err))
      ensures first <==> !old(closingB)
      ensures job == if first then activeJob else None
    {
      first, job := false, None;
      if !closingB {
        first, closingB, job := true, true, activeJob;
        rest := rest.(firstCaller := Some(c), first := P.FailingJob(job, err), closeArg := err,
                      activeAtClose := job, startedBefore := |rest.started|);
      }
      rest := rest.(closers := rest.closers + {c});
    }

    /** The first close call once it has failed the job it saw, if any: the error it will return. */
    method SettleError(job: Option<P.Job>, err: Option<P.Error>,
                       failErr: Option<P.Error>) returns (settled: Option<P.Error>)
      requires P.Enabled(View(), P.FailActive(failErr)) && View().first == P.FailingJob(job, err)
      modifies this
      ensures View() == P.Apply(old(View()), P.FailActive(failErr))
      ensures View().first == P.Cancelling(settled)
    {
      settled := err;
      if job.Some? {
        if err.None? {
          settled := failErr;
        }
        rest := rest.(failed := rest.failed + [job.value]);
      }
      rest := rest.(first := P.Cancelling(settled), failErr := failErr);
    }

    /** The end of the first close call, after wg.Wait. */
    method FinishClose(err: Option<P.Error>)
      requires P.Enabled(View(), P.FinishClose) && View().first.err == err
      modifies this
      ensures View() == P.Apply(old(View()), P.FinishClose)
    {
      closeError := err;
      closedCh := closedCh + 1;
      rest := rest.(first := P.Closed);
    }

    method StartJob(job: P.Job)
      requires P.Enabled(View(), P.StartJob(job))
      modifies this
      ensures View() == P.Apply(old(View()), P.StartJob(job))
    {
      activeJob := Some(job);
      rest := rest.(acquire := P.RunningJob, started := rest.started + [job]);
    }

    method EndJob()
      requires P.Enabled(View(), P.EndJob)
      modifies this
      ensures View() == P.Apply(old(View()), P.EndJob)
    {
      activeJob := None;
      rest := rest.(acquire := P.CheckExit);
    }
  }
}
