// Health of workspace apps: one ticker per app checks it and updates two shared maps under a lock; a report ticker
// posts the health map when it has changed.

module AppHealth {
  import opened Wrappers

  type AppId = nat

  datatype Health = Disabled | Initializing | Healthy | Unhealthy

  datatype App = App(id: AppId, health: Health, url: string, interval: int, threshold: int)

  predicate ShouldStartTicker(app: App) { app.url != "" && app.interval > 0 && app.threshold > 0 }

  /** The maps start with every app whose health is not disabled; other entries appear when a check writes them. */
  function InitialHealth(apps: seq<App>): map<AppId, Health> {
    if apps == [] then map[]
    else
      var rest, app := InitialHealth(apps[..|apps| - 1]), apps[|apps| - 1];
      if app.health == Disabled then rest else rest[app.id := app.health]
  }

  /** An app has an entry if it is not disabled: its own health, or that of the last app with its id. */
  lemma {:induction false} InitialHealthOf(apps: seq<App>, i: nat)
    requires i < |apps| && apps[i].health != Disabled
    requires forall j :: i < j < |apps| ==> apps[j].id != apps[i].id
    ensures apps[i].id in InitialHealth(apps) && InitialHealth(apps)[apps[i].id] == apps[i].health
    decreases |apps|
  {
    if i < |apps| - 1 {
      InitialHealthOf(apps[..|apps| - 1], i);
    }
  }

  lemma {:induction false} DisabledHaveNone(apps: seq<App>, id: AppId)
    requires forall i :: 0 <= i < |apps| && apps[i].id == id ==> apps[i].health == Disabled
    ensures id !in InitialHealth(apps)
    decreases |apps|
  {
    if apps != [] {
      DisabledHaveNone(apps[..|apps| - 1], id);
    }
  }

  datatype Maps = Maps(failures: map<AppId, int>, health: map<AppId, Health>)

  /** Reading a missing entry gives zero. */
  function Failures(m: Maps, id: AppId): int { if id in m.failures then m.failures[id] else 0 }

  function HealthOf(m: Maps, id: AppId): Option<Health> { if id in m.health then Some(m.health[id]) else None }

  /** The outcome of one check of an app. */
  datatype Check = Check(app: App, ok: bool)

  function AfterCheck(m: Maps, c: Check): Maps {
    var id := c.app.id;
    if c.ok then Maps(m.failures[id := 0], m.health[id := Healthy])
    else if Failures(m, id) < c.app.threshold then m.(failures := m.failures[id := Failures(m, id) + 1])
    else m.(health := m.health[id := Unhealthy])
  }

  /** The maps after a run of checks of all apps, in any interleaving. */
  function AfterChecks(m: Maps, cs: seq<Check>): Maps {
    if cs == [] then m else AfterCheck(AfterChecks(m, cs[..|cs| - 1]), cs[|cs| - 1])
  }

  // ----- What a run of checks means for one app

  /** The outcomes of one app's checks, in order. */
  function Outcomes(cs: seq<Check>, id: AppId): seq<bool> {
    if cs == [] then []
    else Outcomes(cs[..|cs| - 1], id) + if cs[|cs| - 1].app.id == id then [cs[|cs| - 1].ok] else []
  }

  /** Failures since the last success. */
  function Trailing(os: seq<bool>): nat {
    if os == [] || os[|os| - 1] then 0 else 1 + Trailing(os[..|os| - 1])
  }

  function Min(a: int, b: int): int { if a < b then a else b }

  function ExpectedHealth(initial: Option<Health>, os: seq<bool>, threshold: int): Option<Health> {
    if Trailing(os) > threshold then Some(Unhealthy)
    else if true in os then Some(Healthy)
    else initial
  }

  /** What the maps say about an app that has had the given outcomes. */
  ghost predicate Tracks(m: Maps, app: App, initial: Option<Health>, os: seq<bool>) {
    && Failures(m, app.id) == Min(app.threshold, Trailing(os))
    && HealthOf(m, app.id) == ExpectedHealth(initial, os, app.threshold)
  }

  lemma CheckTracks(m: Maps, app: App, initial: Option<Health>, os: seq<bool>, ok: bool)
    requires app.threshold > 0 && Tracks(m, app, initial, os)
    ensures Tracks(AfterCheck(m, Check(app, ok)), app, initial, os + [ok])
  {
    assert (os + [ok])[..|os|] == os;
    assert true in os + [ok] <==> true in os || ok;
  }

  /** Whatever the interleaving with other apps, an app's counter is its trailing failures up to the threshold, and
      its health depends on its own outcomes only. */
  lemma {:induction false} HealthOfApp(initial: map<AppId, Health>, cs: seq<Check>, app: App)
    requires ShouldStartTicker(app)
    requires forall c :: c in cs && c.app.id == app.id ==> c.app == app
    ensures Tracks(AfterChecks(Maps(map[], initial), cs), app, HealthOf(Maps(map[], initial), app.id),
            Outcomes(cs, app.id))
    decreases |cs|
  {
    if cs != [] {
      var rest, c := cs[..|cs| - 1], cs[|cs| - 1];
      HealthOfApp(initial, rest, app);
      assert c in cs;
      if c.app.id == app.id {
        CheckTracks(AfterChecks(Maps(map[], initial), rest), app, HealthOf(Maps(map[], initial), app.id),
                    Outcomes(rest, app.id), c.ok);
      } else {
        assert Outcomes(cs, app.id) == Outcomes(rest, app.id);
      }
    }
  }

  // ----- Reporting

  method HealthChanged(last: map<AppId, Health>, now: map<AppId, Health>) returns (changed: bool)
    ensures changed <==> exists id :: id in now && (id !in last || last[id] != now[id])
  {
    var left := now.Keys;
    while left != {}
      invariant left <= now.Keys
      invariant forall id :: id in now && id !in left ==> id in last && last[id] == now[id]
      decreases |left|
    {
      var id :| id in left;
      if id !in last {
        return true;
      }
      if last[id] != now[id] {
        return true;
      }
      left := left - {id};
    }
    changed := false;
  }

  method CopyHealth(h1: map<AppId, Health>) returns (h2: map<AppId, Health>)
    ensures h2 == h1
  {
    h2 := map[];
    var left := h1.Keys;
    while left != {}
      invariant left <= h1.Keys && h2.Keys == h1.Keys - left
      invariant forall id :: id in h2 ==> h2[id] == h1[id]
      decreases |left|
    {
      var id :| id in left;
      h2 := h2[id := h1[id]];
      left := left - {id};
    }
  }
}

/** Posting the health map, as a state machine together with the checks. */
module HealthReports {
  import opened Wrappers
  import opened AppHealth

  /** Where the report ticker is. */
  datatype Phase = Idle | Copying | Posting

  datatype State = State(
    maps: Maps,
    last: map<AppId, Health>,        // lastHealth
    phase: Phase,
    server: map<AppId, Health>,      // what the server last accepted
    // History, read by no step.
    failed: bool)                    // the last finished post failed

  datatype Event =
    | Checked(check: Check)
    | Tick                           // the comparison
    | Copy
    | Posted(ok: bool)

  /** The server knows the health that the apps came with. */
  function Init(apps: seq<App>): State {
    State(Maps(map[], InitialHealth(apps)), InitialHealth(apps), Idle, InitialHealth(apps), false)
  }

  predicate Enabled(s: State, e: Event) {
    match e
    case Checked(_) => true
    case Tick => s.phase == Idle
    case Copy => s.phase == Copying
    case Posted(_) => s.phase == Posting
  }

  /** What healthChanged says. */
  predicate Changed(last: map<AppId, Health>, now: map<AppId, Health>) {
    exists id :: id in now && (id !in last || last[id] != now[id])
  }

  function Apply(s: State, e: Event): State
    requires Enabled(s, e)
  {
    match e
    case Checked(c) => s.(maps := AfterCheck(s.maps, c))
    case Tick => if Changed(s.last, s.maps.health) then s.(phase := Copying) else s
    case Copy => s.(last := s.maps.health, phase := Posting)
    case Posted(ok) => s.(phase := Idle, failed := !ok, server := if ok then s.last else s.server)
  }

  /** The state after the given events, if each of them was possible when it happened. */
  function Run(s: State, es: seq<Event>): Option<State>
    decreases |es|
  {
    if es == [] then Some(s)
    else if Enabled(s, es[0]) then Run(Apply(s, es[0]), es[1..])
    else None
  }

  /** Entries are never removed, so a copy has no entry that the map lacks; and the last copy is what the server
      has, unless it is being posted or its post failed. */
  ghost predicate Inv(s: State) {
    && s.last.Keys <= s.maps.health.Keys
    && (s.phase != Posting && !s.failed ==> s.server == s.last)
  }

  lemma {:induction false} RunKeepsInv(s: State, es: seq<Event>)
    requires Inv(s) && Run(s, es).Some?
    ensures Inv(Run(s, es).value)
    decreases |es|
  {
    if es != [] {
      RunKeepsInv(Apply(s, es[0]), es[1..]);
    }
  }

  lemma ChangedIff(last: map<AppId, Health>, now: map<AppId, Health>)
    requires last.Keys <= now.Keys
    ensures Changed(last, now) <==> last != now
  {
    if !Changed(last, now) {
      assert last == now;
    }
  }

  /** The last post of a run was not accepted. */
  predicate LastFailed(failed: bool, es: seq<Event>)
    decreases |es|
  {
    if es == [] then failed else LastFailed(if es[0].Posted? then !es[0].ok else failed, es[1..])
  }

  lemma {:induction false} FailedIff(s: State, es: seq<Event>)
    requires Run(s, es).Some?
    ensures Run(s, es).value.failed <==> LastFailed(s.failed, es)
    decreases |es|
  {
    if es != [] {
      FailedIff(Apply(s, es[0]), es[1..]);
    }
  }

  /** In every run: between reports, if the last post was accepted, a health map that has not changed since is what
      the server has. */
  lemma ServerIsCurrent(apps: seq<App>, es: seq<Event>)
    requires Run(Init(apps), es).Some? && !LastFailed(false, es)
    ensures var s := Run(Init(apps), es).value;
            && (s.phase != Posting ==> s.server == s.last)
            && (s.phase == Idle && !Changed(s.last, s.maps.health) ==> s.server == s.maps.health)
  {
    RunKeepsInv(Init(apps), es);
    FailedIff(Init(apps), es);
    var s := Run(Init(apps), es).value;
    ChangedIff(s.last, s.maps.health);
  }

  // ----- Is a failed post repeated?

  /** A run in which no check changes the health map. */
  ghost predicate HealthKept(s: State, es: seq<Event>)
    decreases |es|
  {
    es == []
        || (Enabled(s, es[0]) && Apply(s, es[0]).maps.health == s.maps.health && HealthKept(Apply(s, es[0]), es[1..]))
  }

  /** Some run without a change of health gets the health map to the server. */
  ghost predicate CatchesUp(s: State) {
    exists es :: HealthKept(s, es) && Run(s, es).Some? && Run(s, es).value.server == s.maps.health
  }

  lemma {:induction false} NothingPosted(s: State, es: seq<Event>)
    requires s.phase == Idle && s.last == s.maps.health && HealthKept(s, es) && Run(s, es).Some?
    ensures Run(s, es).value.server == s.server
    decreases |es|
  {
    if es != [] {
      assert !Changed(s.last, s.maps.health);
      NothingPosted(Apply(s, es[0]), es[1..]);
    }
  }

  lemma ReportsChange(s: State)
    requires s.phase == Idle && Changed(s.last, s.maps.health)
    ensures CatchesUp(s)
  {
    var es := [Tick, Copy, Posted(true)];
    var s1 := Apply(s, Tick);
    var s2 := Apply(s1, Copy);
    var s3 := Apply(s2, Posted(true));
    assert HealthKept(s3, []) && HealthKept(s2, [Posted(true)]) && HealthKept(s1, [Copy, Posted(true)]);
    assert Run(s2, [Posted(true)]) == Some(s3) && Run(s1, [Copy, Posted(true)]) == Some(s3);
    assert HealthKept(s, es) && Run(s, es) == Some(s3);
  }

  /** Between reports, the server can still get the health map, without a further change of it, exactly when it has
      it already or the map has changed since the last copy: a failed post is not repeated by itself. */
  lemma FailedPostIsRepeatedIff(s: State)
    requires Inv(s) && s.phase == Idle
    ensures CatchesUp(s) <==> s.server == s.maps.health || s.last != s.maps.health
  {
    ChangedIff(s.last, s.maps.health);
    if s.last != s.maps.health {
      ReportsChange(s);
    } else if CatchesUp(s) {
      var es :| HealthKept(s, es) && Run(s, es).Some? && Run(s, es).value.server == s.maps.health;
      NothingPosted(s, es);
    }
    if s.server == s.maps.health {
      assert HealthKept(s, []) && Run(s, []) == Some(s);
    }
  }

  /** An app gets healthy, and the post of it fails: the server keeps the old health. */
  lemma StaleServerExample(app: App)
    requires app.health == Initializing
    ensures var r := Run(Init([app]), [Checked(Check(app, true)), Tick, Copy, Posted(false)]);
            && r.Some? && r.value.server == map[app.id := Initializing] && r.value.maps.health == map[app.id := Healthy]
            && r.value.phase == Idle && !CatchesUp(r.value)
  {
    var s0 := Init([app]);
    assert [app][..0] == [];
    assert InitialHealth([app]) == map[app.id := Initializing];
    var s1 := Apply(s0, Checked(Check(app, true)));
    assert s1.maps.health[app.id] != s1.last[app.id];
    var s2 := Apply(s1, Tick);
    var s3 := Apply(s2, Copy);
    var s4 := Apply(s3, Posted(false));
    assert Run(s3, [Posted(false)]) == Some(s4);
    assert Run(s2, [Copy, Posted(false)]) == Some(s4);
    assert Run(s1, [Tick, Copy, Posted(false)]) == Some(s4);
    assert s4.server[app.id] != s4.maps.health[app.id];
    FailedPostIsRepeatedIff(s4);
  }
}

/** The shared maps, the ticker closures that update them, and the report ticker's last copy. */
module AppHealthReporter {
  import opened Wrappers
  import opened AppHealth
  import P = HealthReports

  class Reporter {
    var failures: map<AppId, int>
    var health: map<AppId, Health>
    var lastHealth: map<AppId, Health>
    ghost var rest: P.State

    ghost function View(): P.State
      reads this
    {
      rest.(maps := Maps(failures, health), last := lastHealth)
    }

    constructor (apps: seq<App>)
      ensures View() == P.Init(apps)
    {
      failures := map[];
      health := InitialHealth(apps);
      lastHealth := InitialHealth(apps);
      rest := P.Init(apps);
    }

    /** The end of a check, under the lock. */
    method Checked(app: App, ok: bool) returns (nowUnhealthy: bool)
      modifies this
      ensures View() == P.Apply(old(View()), P.Checked(Check(app, ok))) && lastHealth == old(lastHealth)
      ensures nowUnhealthy ==> app.id in health && health[app.id] == Unhealthy
    {
      nowUnhealthy := false;
      if !ok {
        var n := if app.id in failures then failures[app.id] else 0;
        if n < app.threshold {
          failures := failures[app.id := n + 1];
        } else {
          health := health[app.id := Unhealthy];
          nowUnhealthy := true;
        }
      } else {
        health := health[app.id := Healthy];
        failures := failures[app.id := 0];
      }
    }

    /** The report ticker's comparison: as no entry ever disappears, it misses no change and invents none. */
    method Compare() returns (changed: bool)
      requires P.Enabled(View(), P.Tick) && P.Inv(View())
      modifies this`rest
      ensures View() == P.Apply(old(View()), P.Tick)
      ensures changed <==> lastHealth != health
    {
      changed := HealthChanged(lastHealth, health);
      P.ChangedIff(lastHealth, health);
      if changed {
        rest := rest.(phase := P.Copying);
      }
    }

    /** Its copy, in a lock region of its own: what is posted is the health at that moment. */
    method Copy() returns (post: map<AppId, Health>)
      requires P.Enabled(View(), P.Copy)
      modifies this
      ensures View() == P.Apply(old(View()), P.Copy)
      ensures post == lastHealth == health == old(health)
    {
      lastHealth := CopyHealth(health);
      post := lastHealth;
      rest := rest.(phase := P.Posting);
    }

    /** The post is over; its error is only logged. */
    method Posted(ok: bool)
      requires P.Enabled(View(), P.Posted(ok))
      modifies this`rest
      ensures View() == P.Apply(old(View()), P.Posted(ok))
    {
      rest := rest.(phase := P.Idle, failed := !ok, server := if ok then lastHealth else rest.server);
    }
  }
}
