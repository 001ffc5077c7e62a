// The agent's lifecycle log: setters append states and leave a one-slot wake-up; a reporter goroutine, restarted on
// every reconnect, sends the states to the server in order.

/** The log and its reporter as a state machine. */
module LifecycleProtocol {
  import opened Wrappers

  type Phase = nat  // a lifecycle state

  /** Where the reporter is. */
  datatype Reporter =
    | Stopped                        // not running: not connected, or returned
    | Waiting                        // in the select on the wake-up
    | Reading                        // at the top of the inner loop
    | Sending(last: nat)             // in UpdateLifecycle, having seen `last` as the last index of the log

  datatype State = State(
    order: seq<Phase>,               // the order of lifecycle states; constant
    convertible: set<Phase>,         // states that have a wire form; constant
    states: seq<Phase>,              // the log
    lastReported: nat,
    update: bool,                    // a wake-up is buffered
    signals: nat,                    // setters between their append and their wake-up
    reporter: Reporter,
    reported: Option<Phase>,         // the one-slot channel of reported states
    // History, read by no step.
    acked: seq<Phase>,               // states acknowledged by the server
    spent: bool)                     // an update failed and no wake-up has been taken since

  datatype Event =
    | Set(x: Phase)                  // the lock region of setLifecycle
    | Signal                         // its wake-up
    | Start                          // a connection starts the reporter
    | Stop                           // the connection ends while the reporter waits
    | TakeWakeup
    | Read                           // the read lock region, and the conversion of the state to report
    | UpdateOk
    | UpdateFails
    | TakeReported                   // someone receives from the channel of reported states

  function Init(order: seq<Phase>, convertible: set<Phase>, created: Phase): State {
    State(order, convertible, [created], 0, false, 0, Stopped, None, [], false)
  }

  /** slices.Index */
  function Index(order: seq<Phase>, x: Phase): (i: int)
    ensures -1 <= i < |order|
    ensures i >= 0 ==> order[i] == x && x !in order[..i]
    ensures i < 0 ==> x !in order
  {
    if order == [] then -1
    else if order[0] == x then 0
    else var i := Index(order[1..], x); if i < 0 then -1 else i + 1
  }

  /** The setter's test: the new state comes after the last one. */
  predicate Accepts(s: State, x: Phase)
    requires s.states != []
  {
    Index(s.order, s.states[|s.states| - 1]) < Index(s.order, x)
  }

  predicate Enabled(s: State, e: Event) {
    s.states != [] && s.lastReported < |s.states| &&
    match e
    case Set(_) => true
    case Signal => s.signals > 0
    case Start => s.reporter == Stopped
    case Stop => s.reporter == Waiting
    case TakeWakeup => s.reporter == Waiting && s.update
    case Read => s.reporter == Reading
    case UpdateOk => s.reporter.Sending? && s.lastReported + 1 < |s.states|
    case UpdateFails => s.reporter.Sending?
    case TakeReported => s.reported.Some?
  }

  function Apply(s: State, e: Event): State
    requires Enabled(s, e)
  {
    match e
    case Set(x) => if Accepts(s, x) then s.(states := s.states + [x], signals := s.signals + 1) else s
    case Signal => s.(update := true, signals := s.signals - 1)
    case Start => s.(reporter := Waiting)
    case Stop => s.(reporter := Stopped)
    case TakeWakeup => s.(reporter := Reading, update := false, spent := false)
    case Read =>
      var last := |s.states| - 1;
      if last == s.lastReported then s.(reporter := Waiting)
      else if s.states[s.lastReported + 1] !in s.convertible then s.(lastReported := s.lastReported + 1)
      else s.(reporter := Sending(last))
    case UpdateOk =>
      var report := s.states[s.lastReported + 1];
      s.(acked := s.acked + [report], lastReported := s.lastReported + 1, reported := Some(report),
         reporter := if s.lastReported + 1 < s.reporter.last then Reading else Waiting)
    case UpdateFails => s.(reporter := Stopped, spent := true)
    case TakeReported => s.(reported := None)
  }

  /** The state after the given events, if each of them was possible when it happened. */
  function Run(s: State, es: seq<Event>): Option<State>
    decreases |es|
  {
    if es == [] then Some(s)
    else if Enabled(s, es[0]) then Run(Apply(s, es[0]), es[1..])
    else None
  }

  // ----- The invariant

  ghost predicate Increasing(order: seq<Phase>, states: seq<Phase>) {
    forall i, j :: 0 <= i < j < |states| ==> Index(order, states[i]) < Index(order, states[j])
  }

  ghost predicate Log(s: State) { s.lastReported < |s.states| && Increasing(s.order, s.states) }

  /** The states among ps that can be sent. */
  function Sendable(convertible: set<Phase>, ps: seq<Phase>): seq<Phase> {
    if ps == [] then []
    else Sendable(convertible, ps[..|ps| - 1]) + if ps[|ps| - 1] in convertible then [ps[|ps| - 1]] else []
  }

  ghost predicate Acked(s: State) {
    && s.lastReported < |s.states|
    && s.acked == Sendable(s.convertible, s.states[1..s.lastReported + 1])
    && (s.reported.Some? ==> s.acked != [] && s.reported.value == s.acked[|s.acked| - 1])
  }

  predicate Backlog(s: State) { s.lastReported + 1 < |s.states| }

  /** A wake-up is buffered or a setter is about to leave one. */
  predicate WakeupComing(s: State) { s.update || s.signals > 0 }

  ghost predicate Wakeups(s: State) {
    match s.reporter
    case Reading => true
    case Sending(last) =>
      && s.lastReported < last < |s.states|
      && s.states[s.lastReported + 1] in s.convertible
      && (last + 1 < |s.states| ==> WakeupComing(s))
    case _ => Backlog(s) ==> WakeupComing(s) || s.spent
  }

  ghost predicate Inv(s: State) { Log(s) && Acked(s) && Wakeups(s) }

  lemma IncreasingAppend(order: seq<Phase>, states: seq<Phase>, x: Phase)
    requires states != [] && Increasing(order, states) && Index(order, states[|states| - 1]) < Index(order, x)
    ensures Increasing(order, states + [x])
  {
  }

  lemma SendableAppend(convertible: set<Phase>, states: seq<Phase>, k: nat)
    requires k + 1 < |states|
    ensures Sendable(convertible, states[1..k + 2]) ==
            Sendable(convertible, states[1..k + 1]) + if states[k + 1] in convertible then [states[k + 1]] else []
  {
    assert states[1..k + 2][..k] == states[1..k + 1];
  }

  lemma StepKeepsLog(s: State, e: Event)
    requires Log(s) && Enabled(s, e)
    ensures Log(Apply(s, e))
  {
    if e.Set? && Accepts(s, e.x) {
      IncreasingAppend(s.order, s.states, e.x);
    } else {
      assert Apply(s, e).states == s.states;
    }
  }

  lemma SetKeepsAcked(s: State, x: Phase)
    requires Acked(s) && Enabled(s, Set(x))
    ensures Acked(Apply(s, Set(x)))
  {
    assert (s.states + [x])[1..s.lastReported + 1] == s.states[1..s.lastReported + 1];
  }

  /** Reporting or skipping the next state keeps the acknowledged states in line with the log. */
  lemma AdvanceKeepsAcked(s: State, t: State)
    requires Acked(s) && s.lastReported + 1 < |s.states|
    requires t.states == s.states && t.convertible == s.convertible && t.lastReported == s.lastReported + 1
    requires var p := s.states[s.lastReported + 1];
             if p in s.convertible then t.acked == s.acked + [p] && t.reported == Some(p)
             else t.acked == s.acked && t.reported == s.reported
    ensures Acked(t)
  {
    SendableAppend(s.convertible, s.states, s.lastReported);
    assert t.states[1..t.lastReported + 1] == s.states[1..s.lastReported + 2];
  }

  lemma StepKeepsAcked(s: State, e: Event)
    requires Inv(s) && Enabled(s, e)
    ensures Acked(Apply(s, e))
  {
    match e
    case Set(x) => SetKeepsAcked(s, x);
    case Read =>
      if Apply(s, e).lastReported != s.lastReported {
        AdvanceKeepsAcked(s, Apply(s, e));
      }
    case UpdateOk => AdvanceKeepsAcked(s, Apply(s, e));
    case _ =>
  }

  lemma SetterKeepsWakeups(s: State, e: Event)
    requires Wakeups(s) && Enabled(s, e) && (e.Set? || e.Signal?)
    ensures Wakeups(Apply(s, e))
  {
  }

  lemma ReaderKeepsWakeups(s: State, e: Event)
    requires Wakeups(s) && Enabled(s, e) && (e.TakeWakeup? || e.Read?)
    ensures Wakeups(Apply(s, e))
  {
  }

  lemma UpdateKeepsWakeups(s: State, e: Event)
    requires Wakeups(s) && Enabled(s, e) && (e.UpdateOk? || e.UpdateFails?)
    ensures Wakeups(Apply(s, e))
  {
  }

  lemma ConnectionKeepsWakeups(s: State, e: Event)
    requires Wakeups(s) && Enabled(s, e) && (e.Start? || e.Stop? || e.TakeReported?)
    ensures Wakeups(Apply(s, e))
  {
  }

  lemma StepKeepsWakeups(s: State, e: Event)
    requires Wakeups(s) && Enabled(s, e)
    ensures Wakeups(Apply(s, e))
  {
    if e.Set? || e.Signal? {
      SetterKeepsWakeups(s, e);
    } else if e.TakeWakeup? || e.Read? {
      ReaderKeepsWakeups(s, e);
    } else if e.UpdateOk? || e.UpdateFails? {
      UpdateKeepsWakeups(s, e);
    } else {
      ConnectionKeepsWakeups(s, e);
    }
  }

  lemma {:induction false} RunKeepsInv(s: State, es: seq<Event>)
    requires Inv(s) && Run(s, es).Some?
    ensures Inv(Run(s, es).value)
    decreases |es|
  {
    if es != [] {
      StepKeepsLog(s, es[0]);
      StepKeepsAcked(s, es[0]);
      StepKeepsWakeups(s, es[0]);
      RunKeepsInv(Apply(s, es[0]), es[1..]);
    }
  }

  // ----- What every run promises

  /** The log grows in the given order only, and the acknowledged states are, across all reconnects, exactly the log
      after its first entry up to the last reported index: in order, without gaps or repeats, but for states without
      a wire form. The channel of reported states never holds anything but the newest of them. */
  lemma ReportedInOrder(order: seq<Phase>, convertible: set<Phase>, created: Phase, es: seq<Event>)
    requires Run(Init(order, convertible, created), es).Some?
    ensures var s := Run(Init(order, convertible, created), es).value;
            && Increasing(s.order, s.states) && s.order == order
            && s.lastReported < |s.states|
            && s.acked == Sendable(convertible, s.states[1..s.lastReported + 1])
            && (s.reported.Some? ==> s.acked != [] && s.reported.value == s.acked[|s.acked| - 1])
  {
    RunKeepsInv(Init(order, convertible, created), es);
    RunKeepsConstants(Init(order, convertible, created), es);
  }

  lemma {:induction false} RunKeepsConstants(s: State, es: seq<Event>)
    requires Run(s, es).Some?
    ensures Run(s, es).value.order == s.order && Run(s, es).value.convertible == s.convertible
    decreases |es|
  {
    if es != [] {
      RunKeepsConstants(Apply(s, es[0]), es[1..]);
    }
  }

  // ----- Which states get into the log

  ghost predicate Duplicates(order: seq<Phase>) { exists i, j :: 0 <= i < j < |order| && order[i] == order[j] }

  /** x comes after a in the order; a state that is not in the order comes before all that are. */
  ghost predicate After(order: seq<Phase>, a: Phase, x: Phase) {
    exists j :: 0 <= j < |order| && order[j] == x && forall i :: j <= i < |order| ==> order[i] != a
  }

  /** The states passed to the setter, in order. */
  function SetsOf(es: seq<Event>): seq<Phase> {
    if es == [] then [] else (if es[0].Set? then [es[0].x] else []) + SetsOf(es[1..])
  }

  /** The records among them: those that come after the last record before. */
  ghost function Records(order: seq<Phase>, last: Phase, xs: seq<Phase>): seq<Phase>
    decreases |xs|
  {
    if xs == [] then []
    else if After(order, last, xs[0]) then [xs[0]] + Records(order, xs[0], xs[1..])
    else Records(order, last, xs[1..])
  }

  lemma IndexOf(order: seq<Phase>, j: nat)
    requires !Duplicates(order) && j < |order|
    ensures Index(order, order[j]) == j
  {
    assert order[j] in order;
  }

  lemma AfterIff(order: seq<Phase>, a: Phase, x: Phase)
    requires !Duplicates(order)
    ensures Index(order, a) < Index(order, x) <==> After(order, a, x)
  {
    forall k | 0 <= k < |order| ensures Index(order, order[k]) == k { IndexOf(order, k); }
  }

  /** The log after one event. */
  ghost function Logged(order: seq<Phase>, states: seq<Phase>, e: Event): (r: seq<Phase>)
    requires states != []
    ensures r != []
  {
    if e.Set? && After(order, states[|states| - 1], e.x) then states + [e.x] else states
  }

  lemma SetStep(s: State, e: Event)
    requires !Duplicates(s.order) && Enabled(s, e)
    ensures s.states != []
    ensures Apply(s, e).states == Logged(s.order, s.states, e) && Apply(s, e).order == s.order
  {
    if e.Set? {
      AfterIff(s.order, s.states[|s.states| - 1], e.x);
    }
  }

  lemma RecordsStep(order: seq<Phase>, last: Phase, x: Phase, xs: seq<Phase>)
    ensures Records(order, last, [x] + xs) ==
            if After(order, last, x) then [x] + Records(order, x, xs) else Records(order, last, xs)
  {
    assert ([x] + xs)[1..] == xs;
  }

  lemma Associate(a: seq<Phase>, b: seq<Phase>, c: seq<Phase>)
    ensures (a + b) + c == a + (b + c)
    ensures [] + c == c && a + [] == a
  {
  }

  /** The log grows by the records of the states that are set, each compared by its place in the order only: a state
      may skip others, and one at or before the last is ignored. */
  lemma {:induction false} LogIsRecords(s: State, es: seq<Event>)
    requires s.states != [] && !Duplicates(s.order) && Run(s, es).Some?
    ensures Run(s, es).value.states == s.states + Records(s.order, s.states[|s.states| - 1], SetsOf(es))
    decreases |es|
  {
    if es == [] {
      Associate(s.states, [], []);
    } else {
      var t := Apply(s, es[0]);
      SetStep(s, es[0]);
      LogIsRecords(t, es[1..]);
      OneMoreSet(s.order, s.states, es, t.states, Run(t, es[1..]).value.states);
    }
  }

  lemma OneMoreSet(order: seq<Phase>, before: seq<Phase>, es: seq<Event>, now: seq<Phase>, final: seq<Phase>)
    requires before != [] && es != [] && now == Logged(order, before, es[0])
    requires final == now + Records(order, now[|now| - 1], SetsOf(es[1..]))
    ensures final == before + Records(order, before[|before| - 1], SetsOf(es))
  {
    var e, rest := es[0], SetsOf(es[1..]);
    Associate([], [], rest);
    if e.Set? {
      RecordsStep(order, before[|before| - 1], e.x, rest);
      Associate(before, [e.x], Records(order, e.x, rest));
    }
  }

  /** In every run the log is the created state and the records of the states set. */
  lemma LogOfRun(order: seq<Phase>, convertible: set<Phase>, created: Phase, es: seq<Event>)
    requires !Duplicates(order) && Run(Init(order, convertible, created), es).Some?
    ensures Run(Init(order, convertible, created), es).value.states == [created] + Records(order, created, SetsOf(es))
  {
    LogIsRecords(Init(order, convertible, created), es);
  }

  /** A reporter runs: a connection has started it, and it has neither been stopped nor failed since. */
  predicate Running(running: bool, es: seq<Event>)
    decreases |es|
  {
    if es == [] then running
    else Running((running || es[0].Start?) && !es[0].Stop? && !es[0].UpdateFails?, es[1..])
  }

  lemma {:induction false} RunningIff(s: State, es: seq<Event>)
    requires Run(s, es).Some?
    ensures Run(s, es).value.reporter != Stopped <==> Running(s.reporter != Stopped, es)
    decreases |es|
  {
    if es != [] {
      RunningIff(Apply(s, es[0]), es[1..]);
    }
  }

  /** Unreported states, no reporter at work on them, and nothing to wake it. */
  predicate Stranded(s: State) {
    (s.reporter == Stopped || s.reporter == Waiting) && Backlog(s) && !WakeupComing(s)
  }

  /** Without a failed update no wake-up is ever lost. */
  lemma NoLostWakeup(order: seq<Phase>, convertible: set<Phase>, created: Phase, es: seq<Event>)
    requires Run(Init(order, convertible, created), es).Some? && UpdateFails !in es
    ensures !Stranded(Run(Init(order, convertible, created), es).value)
  {
    RunKeepsInv(Init(order, convertible, created), es);
    NothingSpent(Init(order, convertible, created), es);
  }

  lemma {:induction false} NothingSpent(s: State, es: seq<Event>)
    requires !s.spent && Run(s, es).Some? && UpdateFails !in es
    ensures !Run(s, es).value.spent
    decreases |es|
  {
    if es != [] {
      assert es[0] in es;
      NothingSpent(Apply(s, es[0]), es[1..]);
    }
  }

  /** The next state of the log is set during the run. */
  ghost predicate Advances(s: State, es: seq<Event>)
    requires Run(s, es).Some?
  {
    |Run(s, es).value.states| > |s.states|
  }

  lemma {:induction false} LogOnlyGrows(s: State, es: seq<Event>)
    requires Run(s, es).Some?
    ensures s.states <= Run(s, es).value.states
    decreases |es|
  {
    if es != [] {
      LogOnlyGrows(Apply(s, es[0]), es[1..]);
    }
  }

  /** A stranded backlog stays stranded, through any number of reconnects, until a further state is set. */
  lemma {:induction false} StrandedUntilNextState(s: State, es: seq<Event>)
    requires Stranded(s) && Run(s, es).Some? && !Advances(s, es)
    ensures Stranded(Run(s, es).value) && Run(s, es).value.acked == s.acked
    decreases |es|
  {
    if es != [] {
      LogOnlyGrows(Apply(s, es[0]), es[1..]);
      StrandedUntilNextState(Apply(s, es[0]), es[1..]);
    }
  }

  // ----- Is a failed update retried?

  /** A run in which no setter is called; those already past their append may still signal. */
  ghost predicate NoSet(es: seq<Event>) { forall i :: 0 <= i < |es| ==> !es[i].Set? }

  lemma {:induction false} NoSetKeepsLog(s: State, es: seq<Event>)
    requires NoSet(es) && Run(s, es).Some?
    ensures Run(s, es).value.states == s.states
    decreases |es|
  {
    if es != [] {
      NoSetKeepsLog(Apply(s, es[0]), es[1..]);
    }
  }

  /** Some run without a new state gets another state acknowledged. */
  ghost predicate MayBeRetried(s: State) {
    exists es :: NoSet(es) && Run(s, es).Some? && |Run(s, es).value.acked| > |s.acked|
  }

  /** A reconnect on which the wake-up is there. */
  lemma ReconnectReports(t: State)
    requires Log(t) && Backlog(t) && t.reporter == Stopped && t.update && t.states[t.lastReported + 1] in t.convertible
    ensures var r := Run(t, [Start, TakeWakeup, Read, UpdateOk]);
            r.Some? && r.value.acked == t.acked + [t.states[t.lastReported + 1]]
  {
    var s1 := Apply(t, Start);
    var s2 := Apply(s1, TakeWakeup);
    var s3 := Apply(s2, Read);
    var s4 := Apply(s3, UpdateOk);
    assert Run(s3, [UpdateOk]) == Some(s4);
    assert Run(s2, [Read, UpdateOk]) == Some(s4);
    assert Run(s1, [TakeWakeup, Read, UpdateOk]) == Some(s4);
  }

  lemma SignalThenReconnect(t: State)
    requires Log(t) && Backlog(t) && t.reporter == Stopped && WakeupComing(t)
             && t.states[t.lastReported + 1] in t.convertible
    ensures MayBeRetried(t)
  {
    var es := [Start, TakeWakeup, Read, UpdateOk];
    if t.update {
      ReconnectReports(t);
      assert NoSet(es);
    } else {
      ReconnectReports(Apply(t, Signal));
      assert ([Signal] + es)[1..] == es;
      assert NoSet([Signal] + es);
    }
  }

  /** A failed update is retried, on some reconnect without a further state, exactly when another wake-up is
      buffered or a setter is about to leave one: the update itself has spent its own. */
  lemma FailureIsRetriedIff(s: State)
    requires Inv(s) && Enabled(s, UpdateFails)
    ensures MayBeRetried(Apply(s, UpdateFails)) <==> s.update || s.signals > 0
  {
    var t := Apply(s, UpdateFails);
    if WakeupComing(t) {
      SignalThenReconnect(t);
    } else if MayBeRetried(t) {
      var es :| NoSet(es) && Run(t, es).Some? && |Run(t, es).value.acked| > |t.acked|;
      NoSetKeepsLog(t, es);
      StrandedUntilNextState(t, es);
    }
  }

  /** And it does happen: one state, its update fails, the agent reconnects. */
  lemma LostWakeupExample()
    ensures var r := Run(Init([0, 1], {0, 1}, 0), [Start, Set(1), Signal, TakeWakeup, Read, UpdateFails, Start]);
            r.Some? && r.value.reporter == Waiting && Stranded(r.value)
  {
    var s0 := Init([0, 1], {0, 1}, 0);
    var s1 := Apply(s0, Start);
    assert Index([0, 1], 0) == 0 && Index([0, 1], 1) == 1;
    var s2 := Apply(s1, Set(1));
    var s3 := Apply(s2, Signal);
    var s4 := Apply(s3, TakeWakeup);
    var s5 := Apply(s4, Read);
    var s6 := Apply(s5, UpdateFails);
    var s7 := Apply(s6, Start);
    assert Run(s6, [Start]) == Some(s7);
    assert Run(s5, [UpdateFails, Start]) == Some(s7);
    assert Run(s4, [Read, UpdateFails, Start]) == Some(s7);
    assert Run(s3, [TakeWakeup, Read, UpdateFails, Start]) == Some(s7);
    assert Run(s2, [Signal, TakeWakeup, Read, UpdateFails, Start]) == Some(s7);
    assert Run(s1, [Set(1), Signal, TakeWakeup, Read, UpdateFails, Start]) == Some(s7);
  }
}

/** The agent's fields, changed in place. */
module LifecycleAgent {
  import opened Wrappers
  import P = LifecycleProtocol

  class Agent {
    const order: seq<P.Phase>
    const convertible: set<P.Phase>
    var lifecycleStates: seq<P.Phase>
    var lifecycleLastReportedIndex: nat
    var lifecycleUpdate: bool
    var lifecycleReported: Option<P.Phase>
    ghost var rest: P.State

    ghost function View(): P.State
      reads this
    {
      rest.(order := order, convertible := convertible, states := lifecycleStates,
            lastReported := lifecycleLastReportedIndex, update := lifecycleUpdate, reported := lifecycleReported)
    }

    constructor (order: seq<P.Phase>, convertible: set<P.Phase>, created: P.Phase)
      ensures View() == P.Init(order, convertible, created)
    {
      this.order, this.convertible := order, convertible;
      lifecycleStates, lifecycleLastReportedIndex, lifecycleUpdate, lifecycleReported := [created], 0, false, None;
      rest := P.Init(order, convertible, created);
    }

    /** The lock region of setLifecycle. */
    method SetLifecycle(x: P.Phase) returns (accepted: bool)
      requires P.Enabled(View(), P.Set(x))
      modifies this
      ensures View() == P.Apply(old(View()), P.Set(x))
      ensures accepted <==> lifecycleStates == old(lifecycleStates) + [x]
    {
      var last := lifecycleStates[|lifecycleStates| - 1];
      if P.Index(order, last) >= P.Index(order, x) {
        return false;
      }
      lifecycleStates := lifecycleStates + [x];
      rest := rest.(signals := rest.signals + 1);
      accepted := true;
    }

    /** Its non-blocking send. */
    method Wake()
      requires P.Enabled(View(), P.Signal)
      modifies this
      ensures View() == P.Apply(old(View()), P.Signal)
    {
      if !lifecycleUpdate {
        lifecycleUpdate := true;
      }
      rest := rest.(signals := rest.signals - 1);
    }

    /** The reporter's read of the log: the state to send, none if it is skipped or there is nothing left to report. */
    method Read() returns (report: Option<P.Phase>)
      requires P.Enabled(View(), P.Read)
      modifies this
      ensures View() == P.Apply(old(View()), P.Read)
      ensures report.Some? <==> View().reporter.Sending?
      ensures report.Some? ==> View().reporter.last == |lifecycleStates| - 1
                               && lifecycleLastReportedIndex + 1 < |lifecycleStates|
                               && report.value == lifecycleStates[lifecycleLastReportedIndex + 1]
    {
      var lastIndex := |lifecycleStates| - 1;
      var next := lifecycleStates[lifecycleLastReportedIndex];
      if |lifecycleStates| > lifecycleLastReportedIndex + 1 {
        next := lifecycleStates[lifecycleLastReportedIndex + 1];
      }
      if lastIndex == lifecycleLastReportedIndex {
        rest := rest.(reporter := P.Waiting);
        return None;
      }
      if next !in convertible {
        lifecycleLastReportedIndex := lifecycleLastReportedIndex + 1;
        return None;
      }
      rest := rest.(reporter := P.Sending(lastIndex));
      report := Some(next);
    }

    /** The reporter after a successful update: `last` is the index it read under the lock. */
    method Reported(last: nat) returns (again: bool)
      requires P.Enabled(View(), P.UpdateOk) && View().reporter == P.Sending(last)
      modifies this
      ensures View() == P.Apply(old(View()), P.UpdateOk)
      ensures again <==> View().reporter == P.Reading
    {
      var report := lifecycleStates[lifecycleLastReportedIndex + 1];
      lifecycleLastReportedIndex := lifecycleLastReportedIndex + 1;
      // The slot is filled or, when it is full, emptied and filled again.
      lifecycleReported := Some(report);
      again := lifecycleLastReportedIndex < last;
      rest := rest.(acked := rest.acked + [report], reporter := if again then P.Reading else P.Waiting);
    }
  }
}
