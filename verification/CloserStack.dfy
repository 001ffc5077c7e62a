// The shutdown protocol of closerStack: resources are pushed on a stack and, on close, are closed
// newest first. Two senders feed one bounded channel, `done`: each closer reports that it finished,
// and a ticking countdown reports closers that took too long.

/** The part of close after its lock region: the receive loop, the ticker and one goroutine per closer. */
module ShutdownLoop {
  import opened Wrappers
  import opened Ranges

  /** What travels on `done`. The loop looks at the number only; the tag records who sent it. */
  datatype Msg = Kick(k: nat) | Finished(k: nat) | Countdown(k: nat)

  datatype Phase = Looping | Returning

  datatype Shutdown = Shutdown(
    n: nat,                 // number of stacked closers, fixed when the loop begins
    phase: Phase,
    next: int,              // closers above it have been launched
    done: seq<Msg>,         // the buffered channel
    countdown: int,         // the ticker's variable
    invoked: set<nat>,      // closer goroutines that have called Close
    finished: set<nat>,     // ... whose Close has returned
    sent: set<nat>,         // ... that have sent their index on done
    // History, read by no step.
    launches: seq<int>,     // closers in the order their goroutines were launched
    calls: seq<int>,        // closers in the order Close was called on them
    expected: int,          // the next countdown value the loop will receive
    received: nat)          // messages received by the loop

  datatype Step = Tick | Receive | Invoke(i: nat) | Finish(i: nat) | Send(i: nat)

  function Capacity(d: Shutdown): nat { 2 * d.n }

  /** From the unlock to the loop: with closers, `done` is made and kicked off and the ticker is started. */
  function Begin(n: nat): Shutdown {
    if n == 0 then Shutdown(0, Returning, -1, [], -1, {}, {}, {}, [], [], -1, 0)
    else Shutdown(n, Looping, n - 1, [Kick(n)], n - 1, {}, {}, {}, [], [], n - 1, 0)
  }

  /** The goroutine of closer i has been launched. */
  predicate Launched(d: Shutdown, i: int) { d.next < i < d.n }

  /** A send is possible only while the channel has room. The ticker and the goroutines outlive the loop. */
  predicate Enabled(d: Shutdown, e: Step) {
    match e
    case Tick => d.n > 0 && (d.countdown < 0 || |d.done| < Capacity(d))
    case Receive => d.phase == Looping && d.done != []
    case Invoke(i) => Launched(d, i) && i !in d.invoked
    case Finish(i) => i in d.invoked && i !in d.finished
    case Send(i) => i in d.finished && i !in d.sent && |d.done| < Capacity(d)
  }

  function Apply(d: Shutdown, e: Step): Shutdown
    requires Enabled(d, e)
  {
    match e
    case Tick =>
      if d.countdown < 0 then d
      else d.(done := d.done + [Countdown(d.countdown)], countdown := d.countdown - 1)
    case Receive => Received(d)
    case Invoke(i) => d.(invoked := d.invoked + {i}, calls := d.calls + [i])
    case Finish(i) => d.(finished := d.finished + {i})
    case Send(i) => d.(done := d.done + [Finished(i)], sent := d.sent + {i})
  }

  /** One iteration of the receive loop. */
  function Received(d: Shutdown): Shutdown
    requires d.done != []
  {
    var m := d.done[0];
    var d1 := d.(done := d.done[1..], received := d.received + 1,
                 expected := if m.Countdown? then d.expected - 1 else d.expected);
    if m.k == 0 then d1.(phase := Returning)
    else if m.k - 1 == d.next then d1.(next := d.next - 1, launches := d.launches + [d.next])
    else d1
  }

  // ----- The invariant

  /** a, a - 1, ..., b + 1 */
  function Down(a: int, b: int): (r: seq<int>)
    requires b <= a
  {
    seq(a - b, i requires 0 <= i => a - i)
  }

  /** The countdown values in a stretch of the channel, in order. */
  function Timers(q: seq<Msg>): seq<int> {
    if q == [] then [] else (if q[0].Countdown? then [q[0].k] else []) + Timers(q[1..])
  }

  ghost predicate Bounds(d: Shutdown) {
    && -1 <= d.next < d.n
    && -1 <= d.countdown <= d.expected < d.n
    && (d.next == d.n - 1 <==> d.received == 0)
    && (if d.received == 0 then d.expected == d.n - 1 else d.next < d.expected || d.next == -1)
    && (d.phase == Returning ==> d.next == -1)
    && (d.phase == Looping ==> d.n > 0 && d.expected >= 0)
  }

  ghost predicate Goroutines(d: Shutdown) {
    && d.sent <= d.finished <= d.invoked
    && (forall i :: i in d.invoked ==> Launched(d, i))
  }

  ghost predicate Channel(d: Shutdown) {
    && (d.n > 0 && d.received == 0 ==> d.done != [] && d.done[0] == Kick(d.n))
    && (forall j :: 0 <= j < |d.done| && d.done[j].Kick? ==> j == 0 && d.received == 0)
    && (forall j :: 0 <= j < |d.done| && d.done[j].Finished? ==> d.done[j].k in d.sent)
    && (d.n > 0 ==> |d.done| + d.received == 1 + |d.sent| + (d.n - 1 - d.countdown))
    && (d.n == 0 ==> d.done == [])
  }

  ghost predicate Timing(d: Shutdown) {
    d.countdown <= d.expected && Timers(d.done) == Down(d.expected, d.countdown)
  }

  /** Every launched closer but the lowest has finished or has had its countdown value received. */
  ghost predicate Serial(d: Shutdown) {
    && (forall i :: d.next + 1 < i < d.n ==> i in d.sent || d.expected < i)
    && (d.phase == Returning && d.n > 0 ==> 0 in d.sent || d.expected < 0)
  }

  /** Launched from the top down, and Close called at most once each; without ticks in that order too. */
  ghost predicate Order(d: Shutdown) {
    && d.next < d.n
    && d.launches == Down(d.n - 1, d.next)
    && Called(d.calls, d.invoked)
    && (d.expected == d.n - 1 ==> d.calls <= d.launches)
  }

  ghost predicate Called(calls: seq<int>, invoked: set<nat>) {
    && (forall i :: i in calls <==> i in invoked)
    && (forall j, k :: 0 <= j < k < |calls| ==> calls[j] != calls[k])
  }

  ghost predicate Inv(d: Shutdown) {
    Bounds(d) && Goroutines(d) && Channel(d) && Timing(d) && Serial(d) && Order(d)
  }

  // ----- Preservation

  lemma BeginInv(n: nat)
    ensures Inv(Begin(n))
  {
    assert Timers([Kick(n)]) == [];
  }

  lemma {:induction false} TimersConcat(p: seq<Msg>, q: seq<Msg>)
    ensures Timers(p + q) == Timers(p) + Timers(q)
    decreases |p|
  {
    if p == [] {
      assert p + q == q;
    } else {
      TimersConcat(p[1..], q);
      assert (p + q)[1..] == p[1..] + q;
    }
  }

  lemma TickKeepsInv(d: Shutdown)
    requires Inv(d) && Enabled(d, Tick)
    ensures Inv(Apply(d, Tick))
  {
    if d.countdown >= 0 {
      var m := Countdown(d.countdown);
      TimersConcat(d.done, [m]);
      assert Timers([m]) == [d.countdown];
    }
  }

  lemma SendKeepsInv(d: Shutdown, i: nat)
    requires Inv(d) && Enabled(d, Send(i))
    ensures Inv(Apply(d, Send(i)))
  {
    TimersConcat(d.done, [Finished(i)]);
    assert Timers([Finished(i)]) == [];
  }

  /** Without ticks the closers above the newly launched one have all been called, in launch order. */
  lemma InvokeExtendsLaunches(d: Shutdown, i: nat)
    requires Inv(d) && Enabled(d, Invoke(i)) && d.expected == d.n - 1
    ensures d.calls + [i] <= d.launches
  {
    var m, l := |d.calls|, |d.launches|;
    assert i == d.next + 1 == d.launches[l - 1];
    assert forall j :: 0 <= j < l - 1 ==> d.launches[j] in d.calls;
  }

  lemma CallOnce(calls: seq<int>, invoked: set<nat>, i: nat)
    requires Called(calls, invoked) && i !in invoked
    ensures Called(calls + [i], invoked + {i})
  {
  }

  lemma InvokeKeepsInv(d: Shutdown, i: nat)
    requires Inv(d) && Enabled(d, Invoke(i))
    ensures Inv(Apply(d, Invoke(i)))
  {
    CallOnce(d.calls, d.invoked, i);
    if d.expected == d.n - 1 {
      InvokeExtendsLaunches(d, i);
    }
  }

  lemma FinishKeepsInv(d: Shutdown, i: nat)
    requires Inv(d) && Enabled(d, Finish(i))
    ensures Inv(Apply(d, Finish(i)))
  {
  }

  /** What the message at the head of the channel says about the closer it names. */
  lemma Head(d: Shutdown)
    requires Inv(d) && Enabled(d, Receive)
    ensures d.done[0].Kick? ==> d.done[0].k == d.n && d.received == 0
    ensures d.done[0].Finished? ==> Launched(d, d.done[0].k) && d.done[0].k in d.sent
    ensures d.done[0].Countdown? ==> d.received > 0 && d.done[0].k == d.expected && d.countdown < d.expected
    ensures Timers(d.done[1..]) == Down(if d.done[0].Countdown? then d.expected - 1 else d.expected, d.countdown)
  {
    assert d.done[0].Countdown? ==> Timers(d.done)[0] == d.done[0].k;
    assert d.done[0].Countdown? ==> Timers(d.done[1..]) == Timers(d.done)[1..];
  }

  lemma ReceiveKeepsChannel(d: Shutdown)
    requires Inv(d) && Enabled(d, Receive)
    ensures Channel(Apply(d, Receive))
  {
    var q := d.done[1..];
    assert forall j :: 0 <= j < |q| ==> q[j] == d.done[j + 1];
  }

  lemma ReceiveKeepsOrder(d: Shutdown)
    requires Inv(d) && Enabled(d, Receive)
    ensures Order(Apply(d, Receive)) && Goroutines(Apply(d, Receive))
  {
    Head(d);
    assert d.launches + [d.next] == Down(d.n - 1, d.next - 1);
  }

  lemma ReceiveKeepsTiming(d: Shutdown)
    requires Inv(d) && Enabled(d, Receive)
    ensures Timing(Apply(d, Receive))
  {
    Head(d);
  }

  lemma ReceiveKeepsSerial(d: Shutdown)
    requires Inv(d) && Enabled(d, Receive)
    ensures Bounds(Apply(d, Receive)) && Serial(Apply(d, Receive))
  {
    Head(d);
  }

  lemma ReceiveKeepsInv(d: Shutdown)
    requires Inv(d) && Enabled(d, Receive)
    ensures Inv(Apply(d, Receive))
  {
    ReceiveKeepsChannel(d);
    ReceiveKeepsOrder(d);
    ReceiveKeepsTiming(d);
    ReceiveKeepsSerial(d);
  }

  lemma StepKeepsInv(d: Shutdown, e: Step)
    requires Inv(d) && Enabled(d, e)
    ensures Inv(Apply(d, e))
  {
    match e
    case Tick => TickKeepsInv(d);
    case Receive => ReceiveKeepsInv(d);
    case Invoke(i) => InvokeKeepsInv(d, i);
    case Finish(i) => FinishKeepsInv(d, i);
    case Send(i) => SendKeepsInv(d, i);
  }

  // ----- Runs of the loop

  /** The state after the given steps, if each of them was possible when it happened. */
  function Run(d: Shutdown, es: seq<Step>): Option<Shutdown>
    decreases |es|
  {
    if es == [] then Some(d)
    else if Enabled(d, es[0]) then Run(Apply(d, es[0]), es[1..])
    else None
  }

  lemma {:induction false} RunKeepsInv(d: Shutdown, es: seq<Step>)
    requires Inv(d) && Run(d, es).Some?
    ensures Inv(Run(d, es).value) && Run(d, es).value.n == d.n
    decreases |es|
  {
    if es != [] {
      StepKeepsInv(d, es[0]);
      RunKeepsInv(Apply(d, es[0]), es[1..]);
    }
  }

  /** How many countdown messages the loop has received. */
  function TicksReceived(d: Shutdown): int { d.n - 1 - d.expected }

  /** Closers whose goroutine is launched and whose Close has not returned. */
  function Running(d: Shutdown): set<int> {
    set i | d.next < i < d.n && i !in d.finished
  }

  /** No send on `done` ever blocks: a goroutine or tick that wants to send finds room, even after the loop is gone. */
  lemma NoSendBlocks(d: Shutdown)
    requires Inv(d)
    ensures |d.done| <= Capacity(d)
    ensures forall i :: i in d.finished && i !in d.sent ==> Enabled(d, Send(i))
    ensures d.n > 0 ==> Enabled(d, Tick)
  {
    SentBound(d, d.sent);
    forall i | i in d.finished && i !in d.sent
      ensures |d.done| < Capacity(d)
    {
      SentBound(d, d.sent + {i});
    }
  }

  lemma SentBound(d: Shutdown, some: set<nat>)
    requires Inv(d) && some <= d.finished
    ensures |some| <= d.n - 1 - d.next
  {
    RangeSize(d.next + 1, d.n);
    SubsetSize<int>(some, Range(d.next + 1, d.n));
  }

  /** At most one closer runs, plus one for each countdown message received. */
  lemma RunningBound(d: Shutdown)
    requires Inv(d)
    ensures |Running(d)| <= 1 + TicksReceived(d)
  {
    var late := Range(d.expected + 1, d.n);
    RangeSize(d.expected + 1, d.n);
    assert Running(d) <= {d.next + 1} + late;
    SubsetSize(Running(d), {d.next + 1} + late);
  }

  /** Once the loop has left, the unfinished closers are among the newest, at most one for each countdown message
      received. */
  lemma OutstandingBound(d: Shutdown)
    requires Inv(d) && d.phase == Returning
    ensures forall i :: 0 <= i <= d.expected ==> i in d.finished
    ensures |Running(d)| <= TicksReceived(d)
  {
    RangeSize(d.expected + 1, d.n);
    SubsetSize(Running(d), Range(d.expected + 1, d.n));
  }

  lemma {:induction false} TimerInChannel(q: seq<Msg>, k: int)
    requires k in Timers(q)
    ensures exists j :: 0 <= j < |q| && q[j].Countdown? && q[j].k == k
    decreases |q|
  {
    if !(q[0].Countdown? && q[0].k == k) {
      TimerInChannel(q[1..], k);
      var j :| 0 <= j < |q[1..]| && q[1..][j].Countdown? && q[1..][j].k == k;
      assert q[j + 1].Countdown? && q[j + 1].k == k;
    }
  }

  /** Hung closers cannot hold the loop: after n ticks the message that ends it is in the channel, and the loop
      receives at most 2n + 1 messages in all. */
  lemma CountdownEndsLoop(d: Shutdown)
    requires Inv(d) && d.phase == Looping
    ensures |d.done| + d.received <= 2 * d.n + 1
    ensures d.countdown < 0 ==> exists j :: 0 <= j < |d.done| && d.done[j].Countdown? && d.done[j].k == 0
  {
    SentBound(d, d.sent);
    if d.countdown < 0 {
      assert Down(d.expected, d.countdown)[d.expected] == 0;
      TimerInChannel(d.done, 0);
    }
  }

  // ----- Is every closer closed by the time the loop returns?

  /** Finish closer k, let the loop see it, and go on down to closer 0. */
  function Rounds(k: nat): seq<Step> {
    [Invoke(k), Finish(k), Send(k), Receive] + if k == 0 then [] else Rounds(k - 1)
  }

  lemma {:induction false} RunConcat(d: Shutdown, es: seq<Step>, fs: seq<Step>)
    requires Run(d, es).Some?
    ensures Run(d, es + fs) == Run(Run(d, es).value, fs)
    decreases |es|
  {
    if es == [] {
      assert es + fs == fs;
    } else {
      assert (es + fs)[1..] == es[1..] + fs;
      RunConcat(Apply(d, es[0]), es[1..], fs);
    }
  }

  /** The loop waits for closer k with nothing in the channel; closers up to k have done nothing yet. */
  ghost predicate AwaitsCloser(d: Shutdown, k: nat) {
    && d.phase == Looping && d.done == [] && d.next == k - 1 && k < d.n - 1
    && (forall i :: 0 <= i <= k ==> i !in d.invoked && i !in d.finished && i !in d.sent)
  }

  lemma OneRound(d: Shutdown, k: nat)
    requires AwaitsCloser(d, k)
    ensures var r := Run(d, [Invoke(k), Finish(k), Send(k), Receive]);
            && r.Some? && r.value.n == d.n && r.value.expected == d.expected && r.value.invoked == d.invoked + {k}
            && (if k == 0 then r.value.phase == Returning else AwaitsCloser(r.value, k - 1))
  {
    var d1 := Apply(d, Invoke(k));
    var d2 := Apply(d1, Finish(k));
    var d3 := Apply(d2, Send(k));
    var d4 := Apply(d3, Receive);
    assert Run(d3, [Receive]) == Some(d4);
    assert Run(d2, [Send(k), Receive]) == Some(d4);
    assert Run(d1, [Finish(k), Send(k), Receive]) == Some(d4);
  }

  lemma {:induction false} RoundsReturn(d: Shutdown, k: nat)
    requires AwaitsCloser(d, k) && d.n - 1 !in d.invoked
    ensures var r := Run(d, Rounds(k));
            && r.Some? && r.value.phase == Returning && r.value.n == d.n && r.value.expected == d.expected
            && d.n - 1 !in r.value.invoked
    decreases k
  {
    OneRound(d, k);
    var round := [Invoke(k), Finish(k), Send(k), Receive];
    if k == 0 {
      assert Rounds(k) == round;
    } else {
      RunConcat(d, round, Rounds(k - 1));
      RoundsReturn(Run(d, round).value, k - 1);
    }
  }

  /** The kick and one tick, received before the newest closer's goroutine has run. */
  lemma Opening(n: nat)
    requires n > 0
    ensures var r := Run(Begin(n), [Receive, Tick, Receive]);
            && r.Some? && r.value.n == n && r.value.invoked == {} && TicksReceived(r.value) == 1
            && (if n == 1 then r.value.phase == Returning else AwaitsCloser(r.value, n - 2))
  {
    var d1 := Apply(Begin(n), Receive);
    var d2 := Apply(d1, Tick);
    var d3 := Apply(d2, Receive);
    assert Run(d2, [Receive]) == Some(d3);
    assert Run(d1, [Tick, Receive]) == Some(d3);
  }

  /** One tick overtakes the newest closer: every other closer finishes, and the loop returns. */
  function OneTickRun(n: nat): seq<Step>
    requires n > 0
  {
    [Receive, Tick, Receive] + if n == 1 then [] else Rounds(n - 2)
  }

  lemma OneTickSkipsNewest(n: nat)
    requires n > 0
    ensures var r := Run(Begin(n), OneTickRun(n));
            r.Some? && r.value.phase == Returning && TicksReceived(r.value) == 1 && n - 1 !in r.value.invoked
  {
    Opening(n);
    var opening := [Receive, Tick, Receive];
    if n == 1 {
      assert OneTickRun(n) == opening;
    } else {
      RunConcat(Begin(n), opening, Rounds(n - 2));
      RoundsReturn(Run(Begin(n), opening).value, n - 2);
    }
  }

  ghost predicate AllFinished(d: Shutdown) {
    forall i :: 0 <= i < d.n ==> i in d.finished
  }

  /** A run of n closers that receives at most t ticks has closed them all if the loop has returned. */
  ghost predicate ClosedOnReturn(n: nat, t: nat, es: seq<Step>) {
    var r := Run(Begin(n), es);
    r.Some? && r.value.phase == Returning && TicksReceived(r.value) <= t ==> AllFinished(r.value)
  }

  lemma NoTicksAllFinished(d: Shutdown)
    requires Inv(d) && d.phase == Returning && (TicksReceived(d) <= 0 || d.n == 0)
    ensures AllFinished(d)
  {
  }

  /** ... and has called them strictly newest to oldest. */
  lemma QuietCalls(d: Shutdown)
    requires Inv(d) && d.phase == Returning && TicksReceived(d) <= 0
    ensures d.calls == Down(d.n - 1, -1)
  {
    NoTicksAllFinished(d);
    assert d.n > 0 ==> d.launches[d.n - 1] == 0 && 0 in d.calls;
  }

  /** The loop waits for every closer exactly when no tick can overtake one. */
  lemma ClosedOnReturnIff(n: nat, t: nat)
    ensures (forall es :: ClosedOnReturn(n, t, es)) <==> t == 0 || n == 0
  {
    if t == 0 || n == 0 {
      forall es ensures ClosedOnReturn(n, t, es) {
        var r := Run(Begin(n), es);
        if r.Some? && r.value.phase == Returning && TicksReceived(r.value) <= t {
          BeginInv(n);
          RunKeepsInv(Begin(n), es);
          NoTicksAllFinished(r.value);
        }
      }
    } else {
      var es := OneTickRun(n);
      OneTickSkipsNewest(n);
      BeginInv(n);
      RunKeepsInv(Begin(n), es);
      assert !ClosedOnReturn(n, t, es);
    }
  }
}

/** The whole stack: push, any number of concurrent close calls, and the shutdown loop of the first one. */
module CloserStackProtocol {
  import opened Wrappers
  import L = ShutdownLoop

  type Item = nat    // one id per call of push
  type Caller = nat  // one id per call of close
  type Cause = string

  datatype State = State(
    closers: seq<Item>,
    closed: bool,
    err: Cause,
    allDone: bool,                   // the allDone channel is closed
    shutdown: Option<L.Shutdown>,    // the first close call, once it is past its unlock
    pushed: set<Item>,
    refused: set<Item>,              // push found the stack closed and has yet to close the item
    refusedClosed: set<Item>,        // push has closed the refused item
    refusals: map<Item, Cause>,      // what push returned for it
    first: Option<Caller>,
    waiting: set<Caller>,            // later close calls, blocked on allDone
    returned: set<Caller>,
    closeLog: seq<Item>)             // history: every call of an item's Close, in order

  datatype Event =
    | Push(x: Item)
    | CloseRefused(x: Item)
    | PushReturns(x: Item)
    | CloseLock(c: Caller, cause: Cause)
    | Begin
    | Loop(e: L.Step)
    | SignalAllDone
    | CloseReturns(c: Caller)

  function Init(): State {
    State([], false, "", false, None, {}, {}, {}, map[], None, {}, {}, [])
  }

  predicate LoopLeft(s: State) { s.shutdown.Some? && s.shutdown.value.phase == L.Returning }

  predicate Enabled(s: State, e: Event) {
    match e
    case Push(x) => x !in s.pushed
    case CloseRefused(x) => x in s.refused
    case PushReturns(x) => x in s.refusedClosed && x !in s.refusals
    case CloseLock(c, _) => c !in s.waiting && s.first != Some(c)
    case Begin => s.closed && s.shutdown.None?
    case Loop(e) => s.shutdown.Some? && L.Enabled(s.shutdown.value, e) && (e.Invoke? ==> e.i < |s.closers|)
    case SignalAllDone => LoopLeft(s) && !s.allDone
    case CloseReturns(c) => s.allDone && c !in s.returned && (s.first == Some(c) || c in s.waiting)
  }

  function Apply(s: State, e: Event): State
    requires Enabled(s, e)
  {
    match e
    case Push(x) =>
      if s.closed then s.(pushed := s.pushed + {x}, refused := s.refused + {x})
      else s.(pushed := s.pushed + {x}, closers := s.closers + [x])
    case CloseRefused(x) =>
      s.(refused := s.refused - {x}, refusedClosed := s.refusedClosed + {x}, closeLog := s.closeLog + [x])
    case PushReturns(x) => s.(refusals := s.refusals[x := s.err])
    case CloseLock(c, cause) =>
      if s.closed then s.(waiting := s.waiting + {c})
      else s.(closed := true, err := cause, first := Some(c))
    case Begin => s.(shutdown := Some(L.Begin(|s.closers|)))
    case Loop(e) =>
      s.(shutdown := Some(L.Apply(s.shutdown.value, e)),
         closeLog := if e.Invoke? then s.closeLog + [s.closers[e.i]] else s.closeLog)
    case SignalAllDone => s.(allDone := true)
    case CloseReturns(c) => s.(returned := s.returned + {c})
  }

  /** The state after the given events, if each of them was possible when it happened. */
  function Run(s: State, es: seq<Event>): Option<State>
    decreases |es|
  {
    if es == [] then Some(s)
    else if Enabled(s, es[0]) then Run(Apply(s, es[0]), es[1..])
    else None
  }

  // ----- The invariant

  ghost predicate Flags(s: State) {
    && (s.first.Some? <==> s.closed)
    && (s.allDone ==> LoopLeft(s))
    && (s.shutdown.Some? ==> s.closed && L.Inv(s.shutdown.value) && s.shutdown.value.n == |s.closers|)
    && (s.waiting != {} || s.refused != {} || s.refusedClosed != {} ==> s.closed)
    && (s.returned != {} ==> s.allDone)
  }

  ghost predicate Items(s: State) {
    && (forall i, j :: 0 <= i < j < |s.closers| ==> s.closers[i] != s.closers[j])
    && (forall x :: x in s.pushed <==> x in s.closers || x in s.refused || x in s.refusedClosed)
    && (forall x :: x in s.closers ==> x !in s.refused && x !in s.refusedClosed)
    && s.refused !! s.refusedClosed
  }

  /** Close has been called on closer i by its goroutine. */
  ghost predicate Invoked(s: State, i: int) { s.shutdown.Some? && i in s.shutdown.value.invoked }

  ghost predicate Log(s: State) {
    && (forall j, k :: 0 <= j < k < |s.closeLog| ==> s.closeLog[j] != s.closeLog[k])
    && (forall x :: x in s.closeLog ==> x in s.pushed && x !in s.refused)
    && (forall x :: x in s.refusedClosed ==> x in s.closeLog)
    && (forall i :: 0 <= i < |s.closers| ==> (s.closers[i] in s.closeLog <==> Invoked(s, i)))
  }

  ghost predicate Refusals(s: State) {
    && s.refusals.Keys <= s.refusedClosed
    && (forall x :: x in s.refusals ==> s.refusals[x] == s.err)
  }

  ghost predicate Inv(s: State) { Flags(s) && Items(s) && Log(s) && Refusals(s) }

  lemma PushKeepsInv(s: State, x: Item)
    requires Inv(s) && Enabled(s, Push(x))
    ensures Inv(Apply(s, Push(x)))
  {
  }

  lemma CloseRefusedKeepsInv(s: State, x: Item)
    requires Inv(s) && Enabled(s, CloseRefused(x))
    ensures Inv(Apply(s, CloseRefused(x)))
  {
  }

  lemma LoopKeepsLog(s: State, e: L.Step)
    requires Items(s) && Log(s) && Enabled(s, Loop(e))
    ensures Log(Apply(s, Loop(e)))
  {
    var d, s' := s.shutdown.value, Apply(s, Loop(e));
    if e.Invoke? {
      assert !Invoked(s, e.i);
      assert forall x :: x in s'.closeLog <==> x in s.closeLog || x == s.closers[e.i];
      assert s'.shutdown.value.invoked == d.invoked + {e.i};
    } else {
      assert s'.shutdown.value.invoked == d.invoked;
    }
  }

  lemma LoopKeepsInv(s: State, e: L.Step)
    requires Inv(s) && Enabled(s, Loop(e))
    ensures Inv(Apply(s, Loop(e)))
  {
    var s' := Apply(s, Loop(e));
    assert Flags(s') by {
      L.StepKeepsInv(s.shutdown.value, e);
    }
    LoopKeepsLog(s, e);
  }

  lemma BeginKeepsInv(s: State)
    requires Inv(s) && Enabled(s, Begin)
    ensures Inv(Apply(s, Begin))
  {
    assert Flags(Apply(s, Begin)) by {
      L.BeginInv(|s.closers|);
    }
    BeginKeepsLog(s);
  }

  lemma BeginKeepsLog(s: State)
    requires Log(s) && Enabled(s, Begin)
    ensures Log(Apply(s, Begin))
  {
    assert Apply(s, Begin).shutdown.value.invoked == {};
  }

  lemma CallerKeepsInv(s: State, e: Event)
    requires Inv(s) && Enabled(s, e)
    requires e.PushReturns? || e.CloseLock? || e.SignalAllDone? || e.CloseReturns?
    ensures Inv(Apply(s, e))
  {
    var s' := Apply(s, e);
    assert s'.shutdown == s.shutdown && s'.closers == s.closers;
  }

  lemma StepKeepsInv(s: State, e: Event)
    requires Inv(s) && Enabled(s, e)
    ensures Inv(Apply(s, e))
  {
    match e
    case Push(x) => PushKeepsInv(s, x);
    case CloseRefused(x) => CloseRefusedKeepsInv(s, x);
    case Loop(e) => LoopKeepsInv(s, e);
    case Begin => BeginKeepsInv(s);
    case _ => CallerKeepsInv(s, e);
  }

  lemma {:induction false} RunKeepsInv(s: State, es: seq<Event>)
    requires Inv(s) && Run(s, es).Some?
    ensures Inv(Run(s, es).value)
    decreases |es|
  {
    if es != [] {
      StepKeepsInv(s, es[0]);
      RunKeepsInv(Apply(s, es[0]), es[1..]);
    }
  }

  // ----- The stack and the order of closing, from the events alone

  /** The items pushed before the first close call, in the order of the pushes. */
  function PushedOpen(es: seq<Event>): seq<Item> {
    if es == [] || es[0].CloseLock? then []
    else (if es[0].Push? then [es[0].x] else []) + PushedOpen(es[1..])
  }

  lemma {:induction false} StackIsPushes(s: State, es: seq<Event>)
    requires Run(s, es).Some?
    ensures Run(s, es).value.closers == s.closers + if s.closed then [] else PushedOpen(es)
    decreases |es|
  {
    if es != [] {
      var t, e := Apply(s, es[0]), es[0];
      StackIsPushes(t, es[1..]);
      StackStep(s, e);
      if !s.closed && e.Push? {
        assert s.closers + [e.x] + PushedOpen(es[1..]) == s.closers + ([e.x] + PushedOpen(es[1..]));
      }
    }
  }

  lemma StackStep(s: State, e: Event)
    requires Enabled(s, e)
    ensures var t := Apply(s, e);
            && t.closers == s.closers + (if e.Push? && !s.closed then [e.x] else [])
            && (t.closed <==> s.closed || e.CloseLock?)
  {
    assert s.closers + [] == s.closers;
  }

  /** Those entries of the log that are about stacked items. */
  function Stacked(log: seq<Item>, stack: seq<Item>): seq<Item> {
    if log == [] then []
    else Stacked(log[..|log| - 1], stack) + if log[|log| - 1] in stack then [log[|log| - 1]] else []
  }

  function ItemsAt(stack: seq<Item>, at: seq<int>): seq<Item> {
    seq(|at|, j requires 0 <= j < |at| => if 0 <= at[j] < |stack| then stack[at[j]] else 0)
  }

  /** The stacked items are closed in the order in which the shutdown calls their closers. */
  ghost predicate CallOrder(s: State) {
    Stacked(s.closeLog, s.closers) == if s.shutdown.None? then [] else ItemsAt(s.closers, s.shutdown.value.calls)
  }

  lemma StackedAppend(log: seq<Item>, x: Item, stack: seq<Item>)
    ensures Stacked(log + [x], stack) == Stacked(log, stack) + if x in stack then [x] else []
  {
    assert (log + [x])[..|log|] == log;
  }

  lemma ItemsAtAppend(stack: seq<Item>, at: seq<int>, i: nat)
    requires i < |stack|
    ensures ItemsAt(stack, at + [i]) == ItemsAt(stack, at) + [stack[i]]
  {
  }

  lemma NothingClosedYet(s: State)
    requires Inv(s) && !s.closed
    ensures s.closeLog == []
  {
    assert forall i :: 0 <= i < |s.closers| ==> s.closers[i] !in s.closeLog;
    assert forall x :: x in s.closeLog ==> x in s.closers || x in s.refusedClosed;
    SomeEntry(s.closeLog);
  }

  lemma SomeEntry(log: seq<Item>)
    ensures log == [] || exists x :: x in log
  {
    assert log == [] || log[0] in log;
  }

  lemma InvokeKeepsCallOrder(s: State, i: nat)
    requires CallOrder(s) && Enabled(s, Loop(L.Invoke(i)))
    ensures CallOrder(Apply(s, Loop(L.Invoke(i))))
  {
    StackedAppend(s.closeLog, s.closers[i], s.closers);
    ItemsAtAppend(s.closers, s.shutdown.value.calls, i);
  }

  lemma StepKeepsCallOrder(s: State, e: Event)
    requires Inv(s) && CallOrder(s) && Enabled(s, e)
    ensures CallOrder(Apply(s, e))
  {
    if e.Loop? && e.e.Invoke? {
      InvokeKeepsCallOrder(s, e.e.i);
    } else if e.CloseRefused? {
      StackedAppend(s.closeLog, e.x, s.closers);
    } else if e.Push? && !s.closed {
      NothingClosedYet(s);
    } else {
      SameLog(s, e);
    }
  }

  lemma SameLog(s: State, e: Event)
    requires Enabled(s, e) && !(e.Loop? && e.e.Invoke?) && !e.CloseRefused? && (e.Push? ==> s.closed)
    requires CallOrder(s)
    ensures CallOrder(Apply(s, e))
  {
    var t := Apply(s, e);
    assert t.closeLog == s.closeLog && t.closers == s.closers;
    if e.Begin? {
      assert t.shutdown.value.calls == [];
      assert ItemsAt(t.closers, []) == [];
    } else {
      assert t.shutdown.Some? ==> s.shutdown.Some? && t.shutdown.value.calls == s.shutdown.value.calls;
    }
  }

  lemma {:induction false} RunKeepsCallOrder(s: State, es: seq<Event>)
    requires Inv(s) && CallOrder(s) && Run(s, es).Some?
    ensures CallOrder(Run(s, es).value)
    decreases |es|
  {
    if es != [] {
      StepKeepsInv(s, es[0]);
      StepKeepsCallOrder(s, es[0]);
      RunKeepsCallOrder(Apply(s, es[0]), es[1..]);
    }
  }

  function Reversed(items: seq<Item>): seq<Item> {
    seq(|items|, i requires 0 <= i < |items| => items[|items| - 1 - i])
  }

  /** In every run the stack holds the items pushed before the first close call. */
  lemma StackInEveryRun(es: seq<Event>)
    requires Run(Init(), es).Some?
    ensures Run(Init(), es).value.closers == PushedOpen(es)
  {
    StackIsPushes(Init(), es);
    assert [] + PushedOpen(es) == PushedOpen(es);
  }

  /** A close call has returned, and the loop received no tick. */
  ghost predicate QuietReturn(s: State) {
    s.returned != {} && s.shutdown.Some? && L.TicksReceived(s.shutdown.value) <= 0
  }

  lemma QuietIsReverse(s: State)
    requires Flags(s) && CallOrder(s) && QuietReturn(s)
    ensures Stacked(s.closeLog, s.closers) == Reversed(s.closers)
  {
    L.QuietCalls(s.shutdown.value);
    assert ItemsAt(s.closers, L.Down(|s.closers| - 1, -1)) == Reversed(s.closers);
  }

  /** When a close call has returned without a tick, Close has been called on the items pushed before the first
      close call in the reverse order of their pushes. */
  lemma LastPushedIsClosedFirst(es: seq<Event>)
    requires Run(Init(), es).Some? && QuietReturn(Run(Init(), es).value)
    ensures Stacked(Run(Init(), es).value.closeLog, PushedOpen(es)) == Reversed(PushedOpen(es))
  {
    RunKeepsInv(Init(), es);
    StackInEveryRun(es);
    RunKeepsCallOrder(Init(), es);
    QuietIsReverse(Run(Init(), es).value);
  }

  // ----- What every run promises

  /** Every pushed item is on the stack, being refused, or refused and closed, and Close is called on it at most
      once. */
  ghost predicate ClosedOnce(s: State) {
    && (forall j, k :: 0 <= j < k < |s.closeLog| ==> s.closeLog[j] != s.closeLog[k])
    && (forall x :: x in s.closeLog ==> x in s.pushed)
    && (forall x :: x in s.pushed <==> x in s.closers || x in s.refused || x in s.refusedClosed)
    && (forall x :: x in s.refusedClosed ==> x in s.closeLog)
    && (forall x :: x in s.refused ==> x !in s.closeLog)
    && (forall x :: x in s.refusals ==> x in s.closeLog && s.refusals[x] == s.err)
  }

  /** Every stacked item's goroutine has been launched, newest first, and has called Close or is about to. */
  ghost predicate AllLaunched(s: State) {
    && s.allDone && LoopLeft(s)
    && s.shutdown.value.launches == L.Down(|s.closers| - 1, -1)
    && forall i :: 0 <= i < |s.closers| ==> s.closers[i] in s.closeLog || Enabled(s, Loop(L.Invoke(i)))
  }

  lemma ReturnedHasLaunched(s: State)
    requires Inv(s) && s.returned != {}
    ensures AllLaunched(s)
  {
  }

  /** In every run: the stack is the items pushed before the first close call, in order; every pushed item is on it,
      being refused, or refused and closed; Close is called on each at most once; a refused one is closed before
      push returns, with the error of the first close call; once a close call has returned, every stacked one has
      been launched, newest first, and has been closed or is about to be by its own goroutine. */
  lemma EveryItemClosedOnce(es: seq<Event>)
    requires Run(Init(), es).Some?
    ensures var s := Run(Init(), es).value;
            s.closers == PushedOpen(es) && ClosedOnce(s) && (s.returned != {} ==> AllLaunched(s))
  {
    RunKeepsInv(Init(), es);
    StackInEveryRun(es);
    if Run(Init(), es).value.returned != {} {
      ReturnedHasLaunched(Run(Init(), es).value);
    }
  }

  /** Without a tick a returned close has closed every stacked item, newest first. */
  lemma QuietShutdownIsSerial(es: seq<Event>)
    requires Run(Init(), es).Some? && QuietReturn(Run(Init(), es).value)
    ensures var s := Run(Init(), es).value;
            && (forall x :: x in s.closers ==> x in s.closeLog)
            && L.AllFinished(s.shutdown.value)
            && s.shutdown.value.calls == L.Down(|s.closers| - 1, -1)
  {
    var s := Run(Init(), es).value;
    RunKeepsInv(Init(), es);
    var d := s.shutdown.value;
    L.NoTicksAllFinished(d);
    L.QuietCalls(d);
  }

  /** In every run: no send on `done` blocks, before or after the loop has left; every launched closer but the
      latest has finished or had its countdown value received, so no more run at once than one plus the ticks
      received; once the loop has left, only the newest closers, as many as the ticks received, can be unfinished;
      and hung closers do not keep the loop from its last message. */
  lemma ShutdownIsBounded(es: seq<Event>)
    requires Run(Init(), es).Some? && Run(Init(), es).value.shutdown.Some?
    ensures var d := Run(Init(), es).value.shutdown.value;
            && |d.done| <= 2 * d.n
            && (forall i :: i in d.finished && i !in d.sent ==> |d.done| < 2 * d.n)
            && (d.countdown >= 0 ==> |d.done| < 2 * d.n)
            && (forall i :: d.next + 1 < i < d.n ==> i in d.finished || d.expected < i)
            && |L.Running(d)| <= 1 + L.TicksReceived(d)
            && (d.phase == L.Returning ==>
                  (forall i :: 0 <= i <= d.expected ==> i in d.finished) && |L.Running(d)| <= L.TicksReceived(d))
            && (d.phase == L.Looping && d.countdown < 0 ==>
                  exists j :: 0 <= j < |d.done| && d.done[j].Countdown? && d.done[j].k == 0)
  {
    RunKeepsInv(Init(), es);
    var d := Run(Init(), es).value.shutdown.value;
    L.NoSendBlocks(d);
    L.RunningBound(d);
    if d.phase == L.Returning {
      L.OutstandingBound(d);
    }
    if d.phase == L.Looping {
      L.CountdownEndsLoop(d);
    }
    assert forall i :: i in d.finished && i !in d.sent ==> L.Enabled(d, L.Send(i));
    assert d.n > 0 ==> L.Enabled(d, L.Tick);
  }

  /** The cause given by the first close call of a run. */
  function FirstCause(es: seq<Event>): Option<Cause> {
    if es == [] then None
    else if es[0].CloseLock? then Some(es[0].cause)
    else FirstCause(es[1..])
  }

  lemma {:induction false} FirstCauseIsKept(s: State, es: seq<Event>)
    requires Run(s, es).Some?
    ensures Run(s, es).value.closed <==> s.closed || FirstCause(es).Some?
    ensures Run(s, es).value.err == if s.closed || FirstCause(es).None? then s.err else FirstCause(es).value
    decreases |es|
  {
    if es != [] {
      FirstCauseIsKept(Apply(s, es[0]), es[1..]);
    }
  }
}

/** The same protocol as the program has it: fields changed in place, one method per lock region or channel step. */
module CloserStackObject {
  import opened Wrappers
  import L = ShutdownLoop
  import P = CloserStackProtocol

  /** The variables of a close call past its unlock, shared by the loop, the ticker and the closer goroutines. */
  class Shutdown {
    const n: nat
    var leaving: bool
    var next: int
    var done: seq<L.Msg>
    var countdown: int
    ghost var invoked: set<nat>
    ghost var finished: set<nat>
    ghost var sent: set<nat>
    ghost var launches: seq<int>
    ghost var calls: seq<int>
    ghost var expected: int
    ghost var received: nat

    ghost function View(): L.Shutdown
      reads this
    {
      L.Shutdown(n, if leaving then L.Returning else L.Looping, next, done, countdown, invoked, finished, sent,
                 launches, calls, expected, received)
    }

    constructor (n: nat)
      ensures View() == L.Begin(n)
    {
      this.n := n;
      next, countdown, expected := n - 1, n - 1, n - 1;
      leaving := n == 0;
      done := if n == 0 then [] else [L.Kick(n)];
      invoked, finished, sent, launches, calls, received := {}, {}, {}, [], [], 0;
    }

    /** The ticker's function. */
    method Tick()
      requires L.Enabled(View(), L.Tick)
      modifies this
      ensures View() == L.Apply(old(View()), L.Tick)
    {
      if countdown < 0 {
        return;
      }
      done := done + [L.Countdown(countdown)];
      countdown := countdown - 1;
    }

    /** One iteration of the loop over `done`; launching a goroutine returns the closer it is for. */
    method Receive() returns (launched: Option<int>)
      requires L.Enabled(View(), L.Receive)
      modifies this
      ensures View() == L.Apply(old(View()), L.Receive)
      ensures launches == old(launches) + (if launched.Some? then [launched.value] else [])
    {
      launched := None;
      var m := done[0];
      done := done[1..];
      received := received + 1;
      if m.Countdown? {
        expected := expected - 1;
      }
      if m.k == 0 {
        leaving := true;
        return;
      }
      if m.k - 1 == next {
        launched := Some(next);
        launches := launches + [next];
        next := next - 1;
      }
    }

    /** The deferred send of closer i's goroutine. */
    method SendFinished(i: nat)
      requires L.Enabled(View(), L.Send(i))
      modifies this
      ensures View() == L.Apply(old(View()), L.Send(i))
    {
      done := done + [L.Finished(i)];
      sent := sent + {i};
    }
  }

  /** The mutex-protected fields. */
  class CloserStack {
    var closers: seq<P.Item>
    var closed: bool
    var err: P.Cause
    ghost var rest: P.State

    ghost function View(): P.State
      reads this
    {
      rest.(closers := closers, closed := closed, err := err)
    }

    constructor ()
      ensures View() == P.Init()
    {
      closers, closed, err := [], false, "";
      rest := P.Init();
    }

    /** The lock region of push; the caller closes a refused item itself. */
    method Push(x: P.Item) returns (accepted: bool)
      requires P.Enabled(View(), P.Push(x))
      modifies this
      ensures View() == P.Apply(old(View()), P.Push(x))
      ensures accepted <==> !old(closed)
    {
      accepted := !closed;
      if closed {
        rest := rest.(refused := rest.refused + {x});
      } else {
        closers := closers + [x];
      }
      rest := rest.(pushed := rest.pushed + {x});
    }

    /** The lock region of close. */
    method Close(c: P.Caller, cause: P.Cause) returns (first: bool)
      requires P.Enabled(View(), P.CloseLock(c, cause))
      modifies this
      ensures View() == P.Apply(old(View()), P.CloseLock(c, cause))
      ensures first <==> !old(closed)
    {
      first := !closed;
      if closed {
        rest := rest.(waiting := rest.waiting + {c});
      } else {
        closed, err := true, cause;
        rest := rest.(first := Some(c));
      }
    }
  }
}
