// The agent's metadata reporting: one collector at a time per key feeds results to a loop that keeps the newest
// result per key and reports them in batches, one report in flight at a time.

/** Collection and reporting as a state machine. */
module MetadataProtocol {
  import opened Wrappers

  type Key = string

  /** A collected result; stamps number the collections in the order they happened. */
  datatype Sample = Sample(key: Key, stamp: nat)

  /** A goroutine inside trySingleflight.Do. */
  datatype Collector = Started | Collected(stamp: nat) | Over

  /** The goroutine that sends a batch: in the call, past it and about to send on reportError, past that; and, once
      the loop has received what it sent, done. */
  datatype Progress = Calling | Returned(ok: bool) | ErrSent(ok: bool) | Done(ok: bool)

  /** Results are named by their position among the received ones. */
  datatype Batch = Batch(items: map<Key, nat>, progress: Progress)

  /** Where a received result is. */
  datatype Place = Pending | Batched(batch: nat) | Superseded(newer: nat)

  datatype State = State(
    flight: map<Key, Collector>,         // the singleflight map, with where each goroutine is
    clock: nat,
    results: seq<Sample>,                // metadataResults, capacity 1
    updated: map<Key, nat>,              // updatedMetadata
    reportInFlight: bool,
    reportError: seq<(nat, bool)>,       // capacity 1; with the batch it is about
    ended: bool,                         // the loop has returned
    batches: seq<Batch>,                 // every batch ever sent
    // History, read by no step.
    received: seq<Sample>,
    places: seq<Place>)

  datatype Event =
    | Enter(key: Key)                    // Do: its first lock region
    | Collect(key: Key)
    | SendResult(key: Key)
    | GiveUp(key: Key)                   // skipped, or timed out
    | Leave(key: Key)                    // Do: its deferred lock region
    | ReceiveResult
    | ReportTick
    | CallReturns(batch: nat, ok: bool)
    | SendError(batch: nat)
    | ReceiveError
    | Stop                               // the context ends

  function Init(): State {
    State(map[], 0, [], map[], false, [], false, [], [], [])
  }

  predicate Enabled(s: State, e: Event) {
    match e
    case Enter(_) => true
    case Collect(key) => key in s.flight && s.flight[key] == Started
    case SendResult(key) => key in s.flight && s.flight[key].Collected? && |s.results| < 1
    case GiveUp(key) => key in s.flight && s.flight[key] != Over
    case Leave(key) => key in s.flight && s.flight[key] == Over
    case ReceiveResult => !s.ended && s.results != []
    case ReportTick => !s.ended
    case CallReturns(b, _) => b < |s.batches| && s.batches[b].progress == Calling
    case SendError(b) => b < |s.batches| && s.batches[b].progress.Returned? && |s.reportError| < 1
    case ReceiveError => !s.ended && s.reportError != [] && s.reportError[0].0 < |s.batches|
    case Stop => !s.ended
  }

  function Apply(s: State, e: Event): State
    requires Enabled(s, e)
  {
    match e
    case Enter(key) => if key in s.flight then s else s.(flight := s.flight[key := Started])
    case Collect(key) => s.(flight := s.flight[key := Collected(s.clock)], clock := s.clock + 1)
    case SendResult(key) =>
      s.(flight := s.flight[key := Over], results := s.results + [Sample(key, s.flight[key].stamp)])
    case GiveUp(key) => s.(flight := s.flight[key := Over])
    case Leave(key) => s.(flight := s.flight - {key})
    case ReceiveResult => ApplyReceive(s)
    case ReportTick => if s.updated == map[] || s.reportInFlight then s else ApplyReport(s)
    case CallReturns(b, ok) => s.(batches := s.batches[b := s.batches[b].(progress := Returned(ok))])
    case SendError(b) =>
      var ok := s.batches[b].progress.ok;
      s.(batches := s.batches[b := s.batches[b].(progress := ErrSent(ok))], reportError := s.reportError + [(b, ok)])
    case ReceiveError =>
      var (b, ok) := s.reportError[0];
      var s1 := s.(reportError := s.reportError[1..], batches := s.batches[b := s.batches[b].(progress := Done(ok))]);
      if ok then s1.(reportInFlight := false) else s1.(ended := true)
    case Stop => s.(ended := true)
  }

  /** updatedMetadata[key] = result */
  function ApplyReceive(s: State): State
    requires s.results != []
  {
    var r, n := s.results[0], |s.received|;
    var overtakes := r.key in s.updated && s.updated[r.key] < |s.places|;
    var places := if overtakes then s.places[s.updated[r.key] := Superseded(n)] else s.places;
    s.(results := s.results[1..], received := s.received + [r], updated := s.updated[r.key := n],
        places := places + [Pending])
  }

  /** All updated results go into one batch. */
  function ApplyReport(s: State): State {
    var b := |s.batches|;
    s.(batches := s.batches + [Batch(s.updated, Calling)], updated := map[], reportInFlight := true,
       places := seq(|s.places|, i requires 0 <= i < |s.places| =>
                     if s.places[i] == Pending then Batched(b) else s.places[i]))
  }

  /** The state after the given events, if each of them was possible when it happened. */
  function Run(s: State, es: seq<Event>): Option<State>
    decreases |es|
  {
    if es == [] then Some(s)
    else if Enabled(s, es[0]) then Run(Apply(s, es[0]), es[1..])
    else None
  }

  // ----- The invariant

  /** Results of one key are sent, and so received, in the order they were collected. */
  ghost predicate InOrder(samples: seq<Sample>) {
    forall i, j :: 0 <= i < j < |samples| && samples[i].key == samples[j].key ==> samples[i].stamp < samples[j].stamp
  }

  ghost predicate OlderThan(samples: seq<Sample>, key: Key, stamp: nat) {
    forall i :: 0 <= i < |samples| && samples[i].key == key ==> samples[i].stamp < stamp
  }

  ghost predicate Collection(s: State) { Stamped(s.received + s.results, s.flight, s.clock) }

  ghost predicate Stamped(samples: seq<Sample>, flight: map<Key, Collector>, clock: nat) {
    && InOrder(samples)
    && (forall i :: 0 <= i < |samples| ==> samples[i].stamp < clock)
    && (forall k :: k in flight && flight[k].Collected? ==>
       flight[k].stamp < clock && OlderThan(samples, k, flight[k].stamp))
  }

  /** Position i is where the map says the newest result of its key is. */
  ghost predicate At(received: seq<Sample>, m: map<Key, nat>, i: int)
    requires 0 <= i < |received|
  {
    received[i].key in m && m[received[i].key] == i
  }

  ghost predicate Names(received: seq<Sample>, m: map<Key, nat>) {
    forall k :: k in m ==> m[k] < |received| && received[m[k]].key == k
  }

  ghost predicate PendingPlaces(s: State) {
    && |s.places| == |s.received|
    && Names(s.received, s.updated)
    && (forall i :: 0 <= i < |s.received| ==> (At(s.received, s.updated, i) <==> s.places[i] == Pending))
  }

  ghost predicate BatchPlaces(s: State) {
    && |s.places| == |s.received|
    && (forall b :: 0 <= b < |s.batches| ==> Names(s.received, s.batches[b].items))
    && (forall i, b :: 0 <= i < |s.received| && 0 <= b < |s.batches| ==>
          (At(s.received, s.batches[b].items, i) <==> s.places[i] == Batched(b)))
    && (forall i :: 0 <= i < |s.received| && s.places[i].Batched? ==> s.places[i].batch < |s.batches|)
  }

  ghost predicate SupersededPlaces(s: State) {
    && |s.places| == |s.received|
    && (forall i :: 0 <= i < |s.received| && s.places[i].Superseded? ==>
          i < s.places[i].newer < |s.received| && s.received[s.places[i].newer].key == s.received[i].key)
  }

  ghost predicate Places(s: State) { PendingPlaces(s) && BatchPlaces(s) && SupersededPlaces(s) }

  /** A later batch, and what is pending, holds newer results. */
  ghost predicate Newer(m: map<Key, nat>, n: map<Key, nat>) {
    forall k :: k in m && k in n ==> m[k] < n[k]
  }

  ghost predicate BatchOrder(s: State) {
    && (forall b, c :: 0 <= b < c < |s.batches| ==> Newer(s.batches[b].items, s.batches[c].items))
    && (forall b :: 0 <= b < |s.batches| ==> Newer(s.batches[b].items, s.updated))
  }

  ghost predicate Reports(s: State) {
    var n := |s.batches|;
    && (forall b :: 0 <= b < n - 1 ==> s.batches[b].progress.Done?)
    && (n > 0 && !s.reportInFlight ==> s.batches[n - 1].progress.Done?)
    && (s.reportInFlight && !s.ended ==> n > 0 && !s.batches[n - 1].progress.Done?)
    && s.reportError ==
       if n > 0 && s.batches[n - 1].progress.ErrSent? then [(n - 1, s.batches[n - 1].progress.ok)] else []
  }

  ghost predicate Inv(s: State) { Collection(s) && Places(s) && BatchOrder(s) && Reports(s) }

  lemma SendKeepsStamped(samples: seq<Sample>, flight: map<Key, Collector>, clock: nat, key: Key)
    requires Stamped(samples, flight, clock) && key in flight && flight[key].Collected?
    ensures Stamped(samples + [Sample(key, flight[key].stamp)], flight[key := Over], clock)
  {
  }

  lemma StepKeepsCollection(s: State, e: Event)
    requires Collection(s) && Enabled(s, e)
    ensures Collection(Apply(s, e))
  {
    var t := Apply(s, e);
    if e.ReceiveResult? {
      assert t.received + t.results == s.received + s.results;
    } else if e.SendResult? {
      SendKeepsStamped(s.received + s.results, s.flight, s.clock, e.key);
      assert t.received + t.results == s.received + s.results + [Sample(e.key, s.flight[e.key].stamp)];
    } else {
      assert t.received == s.received && t.results == s.results;
    }
  }

  lemma ReceiveKeepsPending(s: State)
    requires PendingPlaces(s) && Enabled(s, ReceiveResult)
    ensures PendingPlaces(Apply(s, ReceiveResult))
  {
  }

  lemma ReceiveKeepsBatches(s: State)
    requires Places(s) && Enabled(s, ReceiveResult)
    ensures BatchPlaces(Apply(s, ReceiveResult))
  {
    var t := Apply(s, ReceiveResult);
    var r := s.results[0];
    assert forall i :: 0 <= i < |s.received| ==> t.received[i] == s.received[i];
    assert r.key in s.updated ==> s.places[s.updated[r.key]] == Pending by {
      if r.key in s.updated {
        assert At(s.received, s.updated, s.updated[r.key]);
      }
    }
    assert forall i :: 0 <= i < |s.received| ==>
           (t.places[i].Batched? || s.places[i].Batched? ==> t.places[i] == s.places[i]);
  }

  lemma ReceiveKeepsSuperseded(s: State)
    requires Places(s) && Enabled(s, ReceiveResult)
    ensures SupersededPlaces(Apply(s, ReceiveResult))
  {
    var t := Apply(s, ReceiveResult);
    assert forall i :: 0 <= i < |s.received| ==> t.received[i] == s.received[i];
  }

  lemma ReceiveKeepsOrder(s: State)
    requires Places(s) && BatchOrder(s) && Enabled(s, ReceiveResult)
    ensures BatchOrder(Apply(s, ReceiveResult))
  {
  }

  lemma ReportKeepsPlaces(s: State)
    requires Places(s) && Enabled(s, ReportTick)
    ensures Places(Apply(s, ReportTick))
  {
    var t := Apply(s, ReportTick);
    if t != s {
      assert PendingPlaces(t);
      assert SupersededPlaces(t);
      assert forall b :: 0 <= b < |s.batches| ==> t.batches[b] == s.batches[b];
    }
  }

  lemma ReportKeepsOrder(s: State)
    requires BatchOrder(s) && Enabled(s, ReportTick)
    ensures BatchOrder(Apply(s, ReportTick))
  {
  }

  lemma OthersKeepPlaces(s: State, e: Event)
    requires Places(s) && BatchOrder(s) && Enabled(s, e) && !e.ReceiveResult? && !e.ReportTick?
    ensures Places(Apply(s, e)) && BatchOrder(Apply(s, e))
  {
    SameBatches(s, e);
    var t := Apply(s, e);
    assert t.received == s.received && t.updated == s.updated && t.places == s.places;
  }

  lemma SameBatches(s: State, e: Event)
    requires Enabled(s, e) && !e.ReceiveResult? && !e.ReportTick?
    ensures var t := Apply(s, e);
            |t.batches| == |s.batches| && forall b :: 0 <= b < |s.batches| ==> t.batches[b].items == s.batches[b].items
  {
  }

  /** Steps that do not concern reports. */
  predicate OfCollection(e: Event) {
    e.Enter? || e.Collect? || e.SendResult? || e.GiveUp? || e.Leave? || e.ReceiveResult?
  }

  lemma CollectionKeepsReports(s: State, e: Event)
    requires Reports(s) && Enabled(s, e) && OfCollection(e)
    ensures Reports(Apply(s, e))
  {
    var t := Apply(s, e);
    assert t.batches == s.batches && t.reportError == s.reportError;
    assert t.reportInFlight == s.reportInFlight && t.ended == s.ended;
  }

  lemma TickKeepsReports(s: State, e: Event)
    requires Reports(s) && Enabled(s, e) && (e.ReportTick? || e.Stop?)
    ensures Reports(Apply(s, e))
  {
  }

  lemma CallKeepsReports(s: State, e: Event)
    requires Reports(s) && Enabled(s, e) && (e.CallReturns? || e.SendError?)
    ensures Reports(Apply(s, e))
  {
    assert e.batch == |s.batches| - 1;
  }

  lemma ErrorKeepsReports(s: State)
    requires Reports(s) && Enabled(s, ReceiveError)
    ensures Reports(Apply(s, ReceiveError))
  {
  }

  lemma StepKeepsReports(s: State, e: Event)
    requires Reports(s) && Enabled(s, e)
    ensures Reports(Apply(s, e))
  {
    if OfCollection(e) {
      CollectionKeepsReports(s, e);
    } else if e.ReportTick? || e.Stop? {
      TickKeepsReports(s, e);
    } else if e.ReceiveError? {
      ErrorKeepsReports(s);
    } else {
      CallKeepsReports(s, e);
    }
  }

  lemma StepKeepsInv(s: State, e: Event)
    requires Inv(s) && Enabled(s, e)
    ensures Inv(Apply(s, e))
  {
    StepKeepsCollection(s, e);
    StepKeepsReports(s, e);
    if e.ReceiveResult? {
      ReceiveKeepsPending(s);
      ReceiveKeepsBatches(s);
      ReceiveKeepsSuperseded(s);
      ReceiveKeepsOrder(s);
    } else if e.ReportTick? {
      ReportKeepsPlaces(s);
      ReportKeepsOrder(s);
    } else {
      OthersKeepPlaces(s, e);
    }
  }

  lemma {:induction false} RunKeepsInv(s: State, es: seq<Event>)
    requires Inv(s) && Run(s, es).Some?
    ensures Inv(Run(s, es).value)
    decreases |es|
  {
    if es != [] {
      StepKeepsInv(s, es[0]);
      RunKeepsInv(Apply(s, es[0]), es[1..]);
    }
  }

  // ----- What every run promises

  ghost predicate InBatch(s: State, i: nat, b: nat) {
    i < |s.received| && b < |s.batches| && At(s.received, s.batches[b].items, i)
  }

  /** Result i is neither pending nor in a batch, because a newer one of its key was received before it was batched. */
  ghost predicate Overtaken(s: State, i: nat) {
    && i < |s.received| && !At(s.received, s.updated, i) && (forall b: nat :: !InBatch(s, i, b))
    && exists j :: i < j < |s.received| && s.received[j].key == s.received[i].key
  }

  ghost predicate InOnePlace(s: State, i: nat) {
    && i < |s.received|
    && (At(s.received, s.updated, i) || Overtaken(s, i) || exists b: nat :: InBatch(s, i, b))
    && (At(s.received, s.updated, i) ==> forall b: nat :: !InBatch(s, i, b))
    && (forall b: nat, c: nat :: InBatch(s, i, b) && InBatch(s, i, c) ==> b == c)
  }

  lemma PlacesAreUnique(s: State, i: nat)
    requires Places(s) && i < |s.received|
    ensures InOnePlace(s, i)
  {
    assert forall b: nat :: InBatch(s, i, b) <==> b < |s.batches| && s.places[i] == Batched(b);
    match s.places[i]
    case Pending =>
    case Batched(b) => assert InBatch(s, i, b);
    case Superseded(j) => assert s.received[j].key == s.received[i].key;
  }

  /** Every received result is in exactly one place: pending, in one batch, or overtaken by a newer one of its key. */
  lemma ResultsAreConserved(es: seq<Event>)
    requires Run(Init(), es).Some?
    ensures var s := Run(Init(), es).value; forall i: nat :: i < |s.received| ==> InOnePlace(s, i)
  {
    RunKeepsInv(Init(), es);
    var s := Run(Init(), es).value;
    forall i: nat | i < |s.received| ensures InOnePlace(s, i) {
      PlacesAreUnique(s, i);
    }
  }

  /** For one key, batches are sent in the order their values were collected. */
  lemma BatchesInCollectionOrder(es: seq<Event>, b: nat, c: nat, key: Key)
    requires Run(Init(), es).Some?
    requires var s := Run(Init(), es).value;
             b < c < |s.batches| && key in s.batches[b].items && key in s.batches[c].items
    ensures var s := Run(Init(), es).value;
            var i, j := s.batches[b].items[key], s.batches[c].items[key];
            && i < |s.received| && j < |s.received| && s.received[i].key == s.received[j].key == key
            && s.received[i].stamp < s.received[j].stamp
  {
    RunKeepsInv(Init(), es);
    var s := Run(Init(), es).value;
    var i, j := s.batches[b].items[key], s.batches[c].items[key];
    assert Newer(s.batches[b].items, s.batches[c].items);
    assert Names(s.received, s.batches[b].items) && Names(s.received, s.batches[c].items);
    var all := s.received + s.results;
    assert all[i] == s.received[i] && all[j] == s.received[j];
  }

  ghost predicate InFlight(s: State, b: nat) { b < |s.batches| && !s.batches[b].progress.Done? }

  /** At most one report is in flight, and the goroutine that ends it never blocks on reportError, even once the
      loop has returned. */
  lemma OneReportInFlight(es: seq<Event>)
    requires Run(Init(), es).Some?
    ensures var s := Run(Init(), es).value;
            && (forall b: nat, c: nat :: InFlight(s, b) && InFlight(s, c) ==> b == c)
            && (forall b: nat :: b < |s.batches| && s.batches[b].progress.Returned? ==> Enabled(s, SendError(b)))
            && |s.reportError| <= 1
  {
    RunKeepsInv(Init(), es);
  }

  // ----- Collectors, results and reports, from the events alone

  /** The key is in flight after an event. */
  predicate FlyingAfter(flying: bool, key: Key, e: Event) {
    (flying || e == Enter(key)) && e != Leave(key)
  }

  predicate Flying(flying: bool, key: Key, es: seq<Event>)
    decreases |es|
  {
    if es == [] then flying else Flying(FlyingAfter(flying, key, es[0]), key, es[1..])
  }

  lemma {:induction false} RunKeepsFlying(s: State, key: Key, es: seq<Event>)
    requires Run(s, es).Some?
    ensures key in Run(s, es).value.flight <==> Flying(key in s.flight, key, es)
    decreases |es|
  {
    if es != [] {
      RunKeepsFlying(Apply(s, es[0]), key, es[1..]);
    }
  }

  /** In every run a key is in flight exactly if it has been entered since it was last left; entering it then leaves the
      collector there alone, and entering it otherwise, so after every Leave, starts a new one. */
  lemma EnterStartsIff(es: seq<Event>, key: Key)
    requires Run(Init(), es).Some?
    ensures var s := Run(Init(), es).value;
            && (key in s.flight <==> Flying(false, key, es))
            && Apply(s, Enter(key)).flight == if Flying(false, key, es) then s.flight else s.flight[key := Started]
  {
    RunKeepsFlying(Init(), key, es);
  }

  /** A collector that has sent its result or given up leaves. */
  lemma CollectorLeaves(s: State, key: Key, e: Event)
    requires Enabled(s, e) && (e == SendResult(key) || e == GiveUp(key))
    ensures Enabled(Apply(s, e), Leave(key)) && key !in Apply(Apply(s, e), Leave(key)).flight
  {
  }

  /** The outcome of a batch is that of its call. */
  ghost predicate Outcomes(s: State, es: seq<Event>) {
    forall b :: 0 <= b < |s.batches| && !s.batches[b].progress.Calling? ==>
                CallReturns(b, s.batches[b].progress.ok) in es
  }

  lemma StepKeepsOutcomes(s: State, e: Event, before: seq<Event>)
    requires Reports(s) && Outcomes(s, before) && Enabled(s, e)
    ensures Outcomes(Apply(s, e), before + [e])
  {
    var t := Apply(s, e);
    assert forall x :: x in before ==> x in before + [e];
    assert e in before + [e];
    forall b | 0 <= b < |t.batches| && !t.batches[b].progress.Calling?
      ensures CallReturns(b, t.batches[b].progress.ok) in before + [e]
    {
      if t.batches[b] != s.batches[b] {
        OutcomeMoves(s, e, b);
      }
    }
  }

  lemma OutcomeMoves(s: State, e: Event, b: nat)
    requires Reports(s) && Enabled(s, e) && b < |Apply(s, e).batches| && !Apply(s, e).batches[b].progress.Calling?
    ensures b < |s.batches|
    ensures Apply(s, e).batches[b] != s.batches[b] ==>
              var p := Apply(s, e).batches[b].progress;
              e == CallReturns(b, p.ok) || (!s.batches[b].progress.Calling? && s.batches[b].progress.ok == p.ok)
  {
  }

  lemma {:induction false} RunKeepsOutcomes(s: State, before: seq<Event>, es: seq<Event>)
    requires Inv(s) && Outcomes(s, before) && Run(s, es).Some?
    ensures Outcomes(Run(s, es).value, before + es)
    decreases |es|
  {
    if es == [] {
      assert before + es == before;
    } else {
      StepKeepsInv(s, es[0]);
      StepKeepsOutcomes(s, es[0], before);
      RunKeepsOutcomes(Apply(s, es[0]), before + [es[0]], es[1..]);
      assert before + [es[0]] + es[1..] == before + es;
    }
  }

  /** In every run the loop sees of each report exactly the outcome of its call. */
  lemma OutcomesAreReported(es: seq<Event>)
    requires Run(Init(), es).Some?
    ensures Outcomes(Run(Init(), es).value, es)
  {
    RunKeepsOutcomes(Init(), [], es);
    assert [] + es == es;
  }

  function KeysOf(samples: seq<Sample>): seq<Key> {
    seq(|samples|, i requires 0 <= i < |samples| => samples[i].key)
  }

  /** The keys of the results that collectors send, in order. */
  function SentKeys(es: seq<Event>): seq<Key> {
    if es == [] then [] else (if es[0].SendResult? then [es[0].key] else []) + SentKeys(es[1..])
  }

  lemma StepSends(s: State, e: Event)
    requires Enabled(s, e)
    ensures var t := Apply(s, e);
            KeysOf(t.received + t.results) == KeysOf(s.received + s.results) + if e.SendResult? then [e.key] else []
  {
    var t := Apply(s, e);
    if e.ReceiveResult? {
      assert t.received + t.results == s.received + s.results;
    } else if e.SendResult? {
      assert t.received + t.results == s.received + s.results + [Sample(e.key, s.flight[e.key].stamp)];
    } else {
      assert t.received == s.received && t.results == s.results;
    }
  }

  lemma Associate(a: seq<Key>, b: seq<Key>, c: seq<Key>)
    ensures (a + b) + c == a + (b + c)
    ensures a + [] == a && [] + a == a
  {
  }

  lemma {:induction false} RunSends(s: State, es: seq<Event>)
    requires Run(s, es).Some?
    ensures var t := Run(s, es).value;
            KeysOf(t.received + t.results) == KeysOf(s.received + s.results) + SentKeys(es)
    decreases |es|
  {
    var before := KeysOf(s.received + s.results);
    if es == [] {
      Associate(before, [], []);
    } else {
      StepSends(s, es[0]);
      RunSends(Apply(s, es[0]), es[1..]);
      Associate(before, if es[0].SendResult? then [es[0].key] else [], SentKeys(es[1..]));
    }
  }

  /** In every run each result that a collector sends is received, in order, or still in the channel. */
  lemma SentIsReceived(es: seq<Event>)
    requires Run(Init(), es).Some?
    ensures var s := Run(Init(), es).value; KeysOf(s.received + s.results) == SentKeys(es)
  {
    RunSends(Init(), es);
    assert KeysOf([]) == [];
    Associate(SentKeys(es), [], []);
  }

  /** A tick with no report in flight takes all that is pending into a new batch and sends it; with one in flight,
      or with nothing pending, it changes nothing. */
  lemma TickReports(s: State)
    requires Enabled(s, ReportTick)
    ensures var t := Apply(s, ReportTick);
            if s.reportInFlight || s.updated == map[] then t == s
            else t.updated == map[] && t.reportInFlight && t.batches == s.batches + [Batch(s.updated, Calling)]
  {
  }

  /** Some report has failed, and the loop has seen it. */
  ghost predicate SawFailure(s: State) { exists b :: 0 <= b < |s.batches| && s.batches[b].progress == Done(false) }

  lemma StepKeepsFailures(s: State, e: Event)
    requires Enabled(s, e) && !e.ReceiveError?
    ensures SawFailure(Apply(s, e)) <==> SawFailure(s)
    ensures Apply(s, e).ended <==> s.ended || e.Stop?
  {
    var t := Apply(s, e);
    forall b | 0 <= b < |s.batches| && s.batches[b].progress == Done(false)
      ensures b < |t.batches| && t.batches[b].progress == Done(false)
    {
    }
    forall b | 0 <= b < |t.batches| && t.batches[b].progress == Done(false)
      ensures b < |s.batches| && s.batches[b].progress == Done(false)
    {
    }
  }

  lemma ErrorShows(s: State)
    requires Reports(s) && Enabled(s, ReceiveError)
    ensures var t, ok := Apply(s, ReceiveError), s.reportError[0].1;
            && (SawFailure(t) <==> SawFailure(s) || !ok)
            && t.ended == !ok && (ok ==> !t.reportInFlight)
  {
    var t, n, ok := Apply(s, ReceiveError), |s.batches| - 1, s.reportError[0].1;
    assert s.reportError[0] == (n, s.batches[n].progress.ok);
    assert t.batches == s.batches[n := s.batches[n].(progress := Done(ok))];
    assert forall b :: 0 <= b < n ==> t.batches[b] == s.batches[b];
    assert t.batches[n].progress == Done(ok);
  }

  lemma {:induction false} RunEnds(s: State, es: seq<Event>)
    requires Inv(s) && Run(s, es).Some? && (SawFailure(s) ==> s.ended)
    ensures var t := Run(s, es).value;
            (t.ended <==> s.ended || Stop in es || SawFailure(t))
    ensures SawFailure(s) ==> SawFailure(Run(s, es).value)
    decreases |es|
  {
    if es != [] {
      var t := Apply(s, es[0]);
      StepKeepsInv(s, es[0]);
      assert es == [es[0]] + es[1..];
      if es[0].ReceiveError? {
        ErrorShows(s);
      } else {
        StepKeepsFailures(s, es[0]);
      }
      RunEnds(t, es[1..]);
    }
  }

  /** In every run the loop has ended exactly if it was stopped or has seen a report fail. */
  lemma EndsForCause(es: seq<Event>)
    requires Run(Init(), es).Some?
    ensures var s := Run(Init(), es).value; s.ended <==> Stop in es || SawFailure(s)
  {
    RunEnds(Init(), es);
  }
}

/** The loop's variables and the singleflight map, changed in place. */
module MetadataReporter {
  import opened Wrappers
  import P = MetadataProtocol

  class Reporter {
    var flight: map<P.Key, P.Collector>
    var updatedMetadata: map<P.Key, nat>
    var reportInFlight: bool
    var ended: bool
    ghost var rest: P.State

    ghost function View(): P.State
      reads this
    {
      rest.(flight := flight, updated := updatedMetadata, reportInFlight := reportInFlight, ended := ended)
    }

    constructor ()
      ensures View() == P.Init()
    {
      flight, updatedMetadata, reportInFlight, ended, rest := map[], map[], false, false, P.Init();
    }

    /** The first lock region of trySingleflight.Do. */
    method Enter(key: P.Key) returns (run: bool)
      modifies this
      ensures View() == P.Apply(old(View()), P.Enter(key))
      ensures run <==> key !in old(flight)
    {
      run := key !in flight;
      if run {
        flight := flight[key := P.Started];
      }
    }

    /** Its deferred lock region. */
    method Leave(key: P.Key)
      requires P.Enabled(View(), P.Leave(key))
      modifies this
      ensures View() == P.Apply(old(View()), P.Leave(key))
    {
      flight := flight - {key};
    }

    /** A result arrives; it is the n-th. */
    method Receive(r: P.Sample, n: nat)
      requires P.Enabled(View(), P.ReceiveResult) && View().results[0] == r && |View().received| == n
      modifies this
      ensures View() == P.Apply(old(View()), P.ReceiveResult)
    {
      rest := P.ApplyReceive(View());
      updatedMetadata := updatedMetadata[r.key := n];
    }

    /** A report tick: every pending result moves, once, into the batch to send. */
    method Report() returns (metadata: seq<(P.Key, nat)>)
      requires P.Enabled(View(), P.ReportTick)
      modifies this
      ensures View() == P.Apply(old(View()), P.ReportTick)
      ensures metadata != [] <==> old(updatedMetadata) != map[] && !old(reportInFlight)
      ensures metadata != [] ==>
                && |metadata| == |old(updatedMetadata)|
                && (forall k, v :: (k, v) in metadata <==> k in old(updatedMetadata) && old(updatedMetadata)[k] == v)
    {
      metadata := [];
      if updatedMetadata == map[] || reportInFlight {
        return;
      }
      ghost var all, next := updatedMetadata, P.ApplyReport(View());
      while updatedMetadata != map[]
        invariant updatedMetadata.Keys <= all.Keys
                  && (forall k :: k in updatedMetadata ==> updatedMetadata[k] == all[k])
        invariant |metadata| + |updatedMetadata| == |all|
        invariant forall k, v :: (k, v) in metadata <==> k in all && k !in updatedMetadata && all[k] == v
        invariant View() == old(View()).(updated := updatedMetadata)
        decreases |updatedMetadata|
      {
        var key :| key in updatedMetadata;
        metadata := metadata + [(key, updatedMetadata[key])];
        ghost var before := updatedMetadata;
        updatedMetadata := updatedMetadata - {key};
        assert updatedMetadata.Keys == before.Keys - {key};
      }
      reportInFlight := true;
      rest := next;
    }

    /** The loop receives the outcome of the report. */
    method ReportDone(ok: bool)
      requires P.Enabled(View(), P.ReceiveError) && View().reportError[0].1 == ok
      modifies this
      ensures View() == P.Apply(old(View()), P.ReceiveError)
    {
      ghost var b := rest.reportError[0].0;
      rest := rest.(reportError := rest.reportError[1..],
                    batches := rest.batches[b := rest.batches[b].(progress := P.Done(ok))]);
      if ok {
        reportInFlight := false;
      } else {
        ended := true;
      }
    }
  }
}
