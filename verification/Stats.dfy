// The agent's stats reporter: callbacks leave the newest network stats under a condition variable; a loop takes them
// and reports them with the lock released.

/** The reporter as a state machine: one event per stretch of code that holds the lock, and per report. */
module StatsProtocol {
  import opened Wrappers

  /** Where the loop is. It holds the lock in Checking only. */
  datatype Loop =
    | Off                           // not running
    | Checking                      // at the top of the loop
    | Sleeping                      // in Wait, in the condition's wait set
    | Locking                       // waiting for the lock: at first, after a broadcast, and after a report
    | Reporting                     // in reportLocked, lock released

  /** Values passed to the callback are numbered in the order of the calls. */
  datatype State = State(
    networkStats: Option<nat>,
    unreported: bool,
    lastInterval: int,
    programmed: Option<int>,        // the interval the stats source was last given
    ctxDone: bool,
    loop: Loop,
    // History, read by no step.
    callbacks: nat,
    taken: seq<nat>)                // values handed to reportLocked

  datatype Event =
    | Callback
    | CtxDone
    | StaleCtxDone                  // the context watcher of a loop that has returned
    | Start(interval: int)          // reportLoop, past its initial report
    | Check
    | Lock
    | ReportOk(interval: int)
    | ReportFails

  function Init(): State { State(None, false, 0, None, false, Off, 0, []) }

  predicate Enabled(s: State, e: Event) {
    match e
    case Callback => s.loop != Checking
    case CtxDone => s.loop != Checking && s.loop != Off
    case StaleCtxDone => s.loop != Checking
    case Start(_) => s.loop == Off
    case Check => s.loop == Checking && (s.unreported ==> s.networkStats.Some?)
    case Lock => s.loop == Locking
    case ReportOk(_) => s.loop == Reporting
    case ReportFails => s.loop == Reporting
  }

  function Broadcast(loop: Loop): Loop { if loop == Sleeping then Locking else loop }

  function Apply(s: State, e: Event): State
    requires Enabled(s, e)
  {
    match e
    case Callback =>
      s.(networkStats := Some(s.callbacks), unreported := true, callbacks := s.callbacks + 1, loop := Broadcast(s.loop))
    case CtxDone => s.(ctxDone := true, loop := Broadcast(s.loop))
    case StaleCtxDone => s.(loop := Broadcast(s.loop))
    case Start(interval) => s.(lastInterval := interval, programmed := Some(interval), ctxDone := false,
                            loop := Locking)
    case Check =>
      if !s.unreported && !s.ctxDone then s.(loop := Sleeping)
      else if s.ctxDone then s.(loop := Off)
      else s.(unreported := false, taken := s.taken + [s.networkStats.value], loop := Reporting)
    case Lock => s.(loop := Checking)
    case ReportOk(interval) =>
      if interval != s.lastInterval then s.(lastInterval := interval, programmed := Some(interval), loop := Locking)
      else s.(loop := Locking)
    case ReportFails => s.(loop := Off)
  }

  /** The state after the given events, if each of them was possible when it happened. */
  function Run(s: State, es: seq<Event>): Option<State>
    decreases |es|
  {
    if es == [] then Some(s)
    else if Enabled(s, es[0]) then Run(Apply(s, es[0]), es[1..])
    else None
  }

  ghost predicate Inv(s: State) {
    && s.networkStats == (if s.callbacks == 0 then None else Some(s.callbacks - 1))
    && (s.unreported ==> s.callbacks > 0)
    && (forall i, j :: 0 <= i < j < |s.taken| ==> s.taken[i] < s.taken[j])
    && (forall i :: 0 <= i < |s.taken| ==> s.taken[i] < if s.unreported then s.callbacks - 1 else s.callbacks)
    && (!s.unreported && s.callbacks > 0 ==> s.taken != [] && s.taken[|s.taken| - 1] == s.callbacks - 1)
    && (s.loop == Sleeping ==> !s.unreported && !s.ctxDone)
    && (s.loop != Off ==> s.programmed == Some(s.lastInterval))
  }

  lemma StepKeepsInv(s: State, e: Event)
    requires Inv(s) && Enabled(s, e)
    ensures Inv(Apply(s, e))
  {
  }

  lemma {:induction false} RunKeepsInv(s: State, es: seq<Event>)
    requires Inv(s) && Run(s, es).Some?
    ensures Inv(Run(s, es).value)
    decreases |es|
  {
    if es != [] {
      StepKeepsInv(s, es[0]);
      RunKeepsInv(Apply(s, es[0]), es[1..]);
    }
  }

  /** In every run, across reconnects: values are handed on in callback order, each at most once; whenever none is
      waiting, the newest has been handed on, so the loop never sleeps on an untaken value nor on an ended context;
      there is a value whenever one is marked unreported; and the source runs at the interval last asked for. */
  lemma StatsTakenInOrder(es: seq<Event>)
    requires Run(Init(), es).Some?
    ensures var s := Run(Init(), es).value;
            && (forall i :: 0 <= i < |s.taken| ==> s.taken[i] < s.callbacks)
            && (forall i, j :: 0 <= i < j < |s.taken| ==> s.taken[i] < s.taken[j])
            && (s.unreported ==> s.networkStats == Some(s.callbacks - 1) && s.callbacks - 1 !in s.taken)
            && (!s.unreported && s.callbacks > 0 ==> s.callbacks - 1 in s.taken)
            && (s.loop == Sleeping ==> !s.unreported && !s.ctxDone)
            && (s.loop != Off ==> s.programmed == Some(s.lastInterval))
  {
    RunKeepsInv(Init(), es);
  }

  // ----- The interval, and why the loop ends

  /** The interval last asked for, by the answer to the initial report or to a later one. */
  function LastAsked(interval: int, es: seq<Event>): int
    decreases |es|
  {
    if es == [] then interval
    else LastAsked(if es[0].Start? || es[0].ReportOk? then es[0].interval else interval, es[1..])
  }

  lemma {:induction false} RunKeepsInterval(s: State, es: seq<Event>)
    requires Run(s, es).Some?
    ensures Run(s, es).value.lastInterval == LastAsked(s.lastInterval, es)
    decreases |es|
  {
    if es != [] {
      RunKeepsInterval(Apply(s, es[0]), es[1..]);
    }
  }

  /** In every run, while the loop runs, the source is programmed with the interval last asked for. */
  lemma SourceHasLastInterval(es: seq<Event>)
    requires Run(Init(), es).Some? && Run(Init(), es).value.loop != Off
    ensures Run(Init(), es).value.programmed == Some(LastAsked(0, es))
  {
    RunKeepsInv(Init(), es);
    RunKeepsInterval(Init(), es);
  }

  /** Once its context has ended a loop takes nothing more; a report that is under way may still finish. */
  lemma {:induction false} NothingTakenAfterEnd(s: State, es: seq<Event>)
    requires (s.ctxDone || s.loop == Off) && Run(s, es).Some? && forall e :: e in es ==> !e.Start?
    ensures Run(s, es).value.taken == s.taken
    decreases |es|
  {
    if es != [] {
      assert es[0] in es && forall e :: e in es[1..] ==> e in es;
      NothingTakenAfterEnd(Apply(s, es[0]), es[1..]);
    }
  }

  /** Nor does it after a failed report. */
  lemma NothingTakenAfterFailure(s: State, es: seq<Event>)
    requires Enabled(s, ReportFails) && Run(Apply(s, ReportFails), es).Some? && forall e :: e in es ==> !e.Start?
    ensures Run(Apply(s, ReportFails), es).value.taken == s.taken
  {
    NothingTakenAfterEnd(Apply(s, ReportFails), es);
  }

  /** A loop only ends after its context or after a failed report. */
  lemma {:induction false} EndsForCause(s: State, es: seq<Event>)
    requires s.loop != Off && !s.ctxDone && Run(s, es).Some?
    requires CtxDone !in es && ReportFails !in es
    ensures Run(s, es).value.loop != Off && !Run(s, es).value.ctxDone
    decreases |es|
  {
    if es != [] {
      assert es[0] in es;
      EndsForCause(Apply(s, es[0]), es[1..]);
    }
  }
}

/** The reporter's fields, changed in place under the lock. */
module StatsReporter {
  import opened Wrappers
  import P = StatsProtocol

  class Reporter {
    var networkStats: Option<nat>
    var unreported: bool
    var lastInterval: int
    var ctxDone: bool                // of the running loop
    ghost var rest: P.State

    ghost function View(): P.State
      reads this
    {
      rest.(networkStats := networkStats, unreported := unreported, lastInterval := lastInterval, ctxDone := ctxDone)
    }

    constructor ()
      ensures View() == P.Init()
    {
      networkStats, unreported, lastInterval, ctxDone, rest := None, false, 0, false, P.Init();
    }

    /** callback, with the number of the value it was given. */
    method Callback(virtual: nat)
      requires P.Enabled(View(), P.Callback) && View().callbacks == virtual
      modifies this
      ensures View() == P.Apply(old(View()), P.Callback)
    {
      networkStats := Some(virtual);
      unreported := true;
      rest := rest.(callbacks := virtual + 1, loop := P.Broadcast(rest.loop));
    }

    /** The start of reportLoop, past its initial report. */
    method Start(interval: int)
      requires P.Enabled(View(), P.Start(interval))
      modifies this
      ensures View() == P.Apply(old(View()), P.Start(interval))
    {
      lastInterval := interval;
      ctxDone := false;
      rest := rest.(programmed := Some(interval), loop := P.Locking);
    }

    /** The goroutine that watches the context. */
    method ContextDone()
      requires P.Enabled(View(), P.CtxDone)
      modifies this
      ensures View() == P.Apply(old(View()), P.CtxDone)
    {
      ctxDone := true;
      rest := rest.(loop := P.Broadcast(rest.loop));
    }

    /** The same goroutine of a loop that has returned: it sets that loop's variable and wakes the new one for
        nothing. */
    method StaleContextDone()
      requires P.Enabled(View(), P.StaleCtxDone)
      modifies this
      ensures View() == P.Apply(old(View()), P.StaleCtxDone)
      ensures ctxDone == old(ctxDone) && unreported == old(unreported)
    {
      rest := rest.(loop := P.Broadcast(rest.loop));
    }

    /** The loop with the lock: it goes to sleep, leaves, or takes the stats to report. */
    method Check() returns (stats: Option<nat>)
      requires P.Enabled(View(), P.Check)
      modifies this
      ensures View() == P.Apply(old(View()), P.Check)
      ensures View().taken == old(View().taken) + if stats.Some? then [stats.value] else []
      ensures stats.Some? <==> View().loop == P.Reporting
    {
      stats := None;
      if !unreported && !ctxDone {
        rest := rest.(loop := P.Sleeping);
        return;
      }
      if ctxDone {
        rest := rest.(loop := P.Off);
        return;
      }
      stats := networkStats;
      unreported := false;
      rest := rest.(taken := rest.taken + [stats.value], loop := P.Reporting);
    }

    /** The end of reportLocked: whether the source has to be given a new interval. */
    method Reported(interval: int) returns (reprogram: bool)
      requires P.Enabled(View(), P.ReportOk(interval))
      modifies this
      ensures View() == P.Apply(old(View()), P.ReportOk(interval))
      ensures reprogram <==> interval != old(lastInterval)
    {
      reprogram := interval != lastInterval;
      if reprogram {
        lastInterval := interval;
        rest := rest.(programmed := Some(interval));
      }
      rest := rest.(loop := P.Locking);
    }
  }
}
