// The host blocks of the section: built from the user's options, the deployment's, which come from a map in any order,
// and the standard ones; and whether a second run gives the same bytes.

/** The options of one host block, and how they depend on the order of the deployment's options. */
module HostOptions {
  import opened Wrappers
  import opened OptionList

  ghost predicate AllValid(options: seq<string>) { forall x :: x in options ==> Parse(x).Ok? }

  /** The option is added if none before it took its key out. */
  ghost predicate Candidate(x: string, lower: string -> string, removed: set<string>) {
    Parse(x).Ok? && !Removes(x) && KeyOf(x, lower) !in removed
  }

  /** The keys removed once x has been added. */
  ghost function Then(x: string, lower: string -> string, removed: set<string>): set<string> {
    if Removes(x) then removed + {KeyOf(x, lower)} else removed
  }

  /** What is kept of the options when the keys in `removed` have been removed before. */
  ghost function Keep(options: seq<string>, lower: string -> string, removed: set<string>): seq<string>
    decreases |options|
  {
    if options == [] then []
    else (if Candidate(options[0], lower, removed) then [options[0]] else [])
         + Keep(options[1..], lower, Then(options[0], lower, removed))
  }

  ghost function RemovedIn(options: seq<string>, lower: string -> string): set<string> {
    set x | x in options && Removes(x) :: KeyOf(x, lower)
  }

  lemma RemovedConcat(a: seq<string>, b: seq<string>, lower: string -> string)
    ensures RemovedIn(a + b, lower) == RemovedIn(a, lower) + RemovedIn(b, lower)
  {
  }

  lemma RemovedFirst(options: seq<string>, lower: string -> string)
    requires options != []
    ensures RemovedIn(options, lower) ==
            RemovedIn(options[1..], lower) + if Removes(options[0]) then {KeyOf(options[0], lower)} else {}
  {
    assert options == [options[0]] + options[1..];
    RemovedConcat([options[0]], options[1..], lower);
  }

  lemma KeepFirst(x: string, rest: seq<string>, lower: string -> string, removed: set<string>)
    ensures Keep([x] + rest, lower, removed) ==
            (if Candidate(x, lower, removed) then [x] else []) + Keep(rest, lower, Then(x, lower, removed))
  {
    assert ([x] + rest)[1..] == rest;
  }

  lemma KeepNothing(b: seq<string>, lower: string -> string, removed: set<string>)
    ensures Keep([] + b, lower, removed) == Keep([], lower, removed) + Keep(b, lower, removed + RemovedIn([], lower))
  {
    assert [] + b == b && removed + RemovedIn([], lower) == removed;
  }

  lemma KeepConcatStep(x: string, rest: seq<string>, b: seq<string>, lower: string -> string, removed: set<string>,
                       now: set<string>)
    requires now == Then(x, lower, removed)
    requires Keep(rest + b, lower, now) == Keep(rest, lower, now) + Keep(b, lower, now + RemovedIn(rest, lower))
    ensures Keep([x] + (rest + b), lower, removed) ==
            Keep([x] + rest, lower, removed) + Keep(b, lower, removed + RemovedIn([x] + rest, lower))
  {
    RemovedThen(x, rest, lower, removed);
    KeepFirst(x, rest, lower, removed);
    KeepFirst(x, rest + b, lower, removed);
    var first := if Candidate(x, lower, removed) then [x] else [];
    Associate(first, Keep(rest, lower, now), Keep(b, lower, now + RemovedIn(rest, lower)));
  }

  lemma {:induction false} KeepConcat(a: seq<string>, b: seq<string>, lower: string -> string, removed: set<string>)
    ensures Keep(a + b, lower, removed) == Keep(a, lower, removed) + Keep(b, lower, removed + RemovedIn(a, lower))
    decreases |a|
  {
    if a == [] {
      KeepNothing(b, lower, removed);
    } else {
      var x, rest := a[0], a[1..];
      KeepConcat(rest, b, lower, Then(x, lower, removed));
      KeepConcatStep(x, rest, b, lower, removed, Then(x, lower, removed));
      assert [x] + rest == a && [x] + (rest + b) == a + b;
    }
  }

  lemma Associate(a: seq<string>, b: seq<string>, c: seq<string>)
    ensures (a + b) + c == a + (b + c)
  {
  }

  lemma RemovedThen(x: string, rest: seq<string>, lower: string -> string, removed: set<string>)
    ensures Then(x, lower, removed) + RemovedIn(rest, lower) == removed + RemovedIn([x] + rest, lower)
  {
    RemovedFirst([x] + rest, lower);
    assert ([x] + rest)[1..] == rest;
  }

  lemma KeepOne(x: string, lower: string -> string, removed: set<string>)
    ensures Keep([x], lower, removed) == if Candidate(x, lower, removed) then [x] else []
  {
    KeepFirst(x, [], lower, removed);
    assert [x] + [] == [x];
  }

  /** What addOptions adds is what is kept, one option after the other. */
  lemma {:induction false} KeptIsKeep(options: seq<string>, n: nat, lower: string -> string, removed: set<string>)
    requires n <= Valid(options)
    ensures AllValid(options[..n])
    ensures KeptOf(options, n, lower, removed) == Keep(options[..n], lower, removed)
    ensures RemovedOf(options, n, lower) == RemovedIn(options[..n], lower)
    decreases n
  {
    if n > 0 {
      var before, x := options[..n - 1], options[n - 1];
      KeptIsKeep(options, n - 1, lower, removed);
      assert options[..n] == before + [x];
      KeepConcat(before, [x], lower, removed);
      KeepOne(x, lower, removed + RemovedIn(before, lower));
      RemovedIsBefore(options, n - 1, KeyOf(x, lower), lower, removed);
    }
  }

  lemma ValidIff(options: seq<string>)
    ensures Valid(options) == |options| <==> AllValid(options)
  {
  }

  /** The options of a host block: the user's, then the deployment's, then the standard ones. */
  ghost function BlockOptions(user: seq<string>, deployment: seq<string>, standard: seq<string>,
                              lower: string -> string): seq<string>
  {
    Keep(user + deployment + standard, lower, {})
  }

  lemma AddedIsKeep(options: seq<string>, lower: string -> string, removed: set<string>)
    requires AllValid(options)
    ensures Valid(options) == |options|
    ensures KeptOf(options, |options|, lower, removed) == Keep(options, lower, removed)
    ensures RemovedOf(options, |options|, lower) == RemovedIn(options, lower)
  {
    ValidIff(options);
    KeptIsKeep(options, |options|, lower, removed);
    assert options[..|options|] == options;
  }

  lemma BlockParts(user: seq<string>, deployment: seq<string>, standard: seq<string>, lower: string -> string)
    ensures BlockOptions(user, deployment, standard, lower) ==
            Keep(user, lower, {}) + Keep(deployment, lower, RemovedIn(user, lower))
            + Keep(standard, lower, RemovedIn(user, lower) + RemovedIn(deployment, lower))
  {
    KeepConcat(user + deployment, standard, lower, {});
    KeepConcat(user, deployment, lower, {});
    RemovedConcat(user, deployment, lower);
    assert {} + RemovedIn(user, lower) == RemovedIn(user, lower);
    assert {} + RemovedIn(user + deployment, lower) == RemovedIn(user, lower) + RemovedIn(deployment, lower);
  }

  lemma BuiltIsBlock(user: seq<string>, deployment: seq<string>, standard: seq<string>, lower: string -> string)
    requires AllValid(user) && AllValid(deployment) && AllValid(standard)
    ensures Valid(user) == |user| && Valid(deployment) == |deployment| && Valid(standard) == |standard|
    ensures var r1 := {} + RemovedOf(user, |user|, lower);
            var r2 := r1 + RemovedOf(deployment, |deployment|, lower);
            BlockOptions(user, deployment, standard, lower) ==
            [] + KeptOf(user, |user|, lower, {}) + KeptOf(deployment, |deployment|, lower, r1)
                + KeptOf(standard, |standard|, lower, r2)
  {
    var r1 := {} + RemovedOf(user, |user|, lower);
    AddedIsKeep(user, lower, {});
    AddedIsKeep(deployment, lower, r1);
    AddedIsKeep(standard, lower, r1 + RemovedOf(deployment, |deployment|, lower));
    BlockParts(user, deployment, standard, lower);
    assert r1 == RemovedIn(user, lower);
    assert [] + KeptOf(user, |user|, lower, {}) == Keep(user, lower, {});
  }

  /** The handler's three loops over a fresh copy of the options. */
  method BuildBlock(user: seq<string>, deployment: seq<string>, standard: seq<string>, lower: string -> string)
    returns (r: Result<seq<string>, Invalid>)
    ensures r.Ok? <==> AllValid(user) && AllValid(deployment) && AllValid(standard)
    ensures r.Ok? ==> r.value == BlockOptions(user, deployment, standard, lower)
  {
    ValidIff(user);
    ValidIff(deployment);
    ValidIff(standard);
    var config := new Options();
    var added := config.AddOptions(user, lower);
    if added.Err? {
      return Err(added.error);
    }
    added := config.AddOptions(deployment, lower);
    if added.Err? {
      return Err(added.error);
    }
    added := config.AddOptions(standard, lower);
    if added.Err? {
      return Err(added.error);
    }
    BuiltIsBlock(user, deployment, standard, lower);
    r := Ok(config.sshOptions);
  }

  // ----- Orders of the deployment's options

  ghost predicate OrderOf(p: seq<string>, all: seq<string>) { multiset(p) == multiset(all) }

  lemma OrderHasSame(p: seq<string>, all: seq<string>)
    requires OrderOf(p, all)
    ensures forall x :: x in p <==> x in all
  {
    assert forall x :: x in p <==> x in multiset(p);
    assert forall x :: x in all <==> x in multiset(all);
    assert forall i :: 0 <= i < |p| ==> p[i] in p;
  }

  /** Some order of the options takes out the key of one that another order adds. */
  ghost predicate Conflict(options: seq<string>, lower: string -> string, removed: set<string>)
  {
    exists x, y :: x in options && y in options && Candidate(x, lower, removed) && Removes(y)
                   && KeyOf(x, lower) == KeyOf(y, lower)
  }

  /** At most one option, however often, is a candidate, and no option takes its key out. */
  ghost predicate OrderFree(options: seq<string>, lower: string -> string, removed: set<string>)
  {
    && !Conflict(options, lower, removed)
    && (forall x, y :: x in options && y in options
                       && Candidate(x, lower, removed) && Candidate(y, lower, removed) ==>
                       x == y)
  }

  ghost function Candidates(options: seq<string>, lower: string -> string, removed: set<string>): seq<string>
    decreases |options|
  {
    if options == [] then []
    else (if Candidate(options[0], lower, removed) then [options[0]] else []) + Candidates(options[1..], lower, removed)
  }

  /** Keys removed on the way do not matter while no candidate has one of them. */
  lemma {:induction false} KeepsCandidates(options: seq<string>, lower: string -> string, removed: set<string>,
                                           more: set<string>)
    requires forall x :: x in options && Candidate(x, lower, removed) ==>
               KeyOf(x, lower) !in more && KeyOf(x, lower) !in RemovedIn(options, lower)
    ensures Keep(options, lower, removed + more) == Candidates(options, lower, removed)
    decreases |options|
  {
    if options != [] {
      var x, rest := options[0], options[1..];
      RemovedFirst(options, lower);
      if Removes(x) {
        KeepsCandidates(rest, lower, removed, more + {KeyOf(x, lower)});
        assert removed + (more + {KeyOf(x, lower)}) == removed + more + {KeyOf(x, lower)};
      } else {
        KeepsCandidates(rest, lower, removed, more);
      }
    }
  }

  lemma {:induction false} CandidatesCount(options: seq<string>, lower: string -> string, removed: set<string>,
                                           x: string)
    ensures multiset(Candidates(options, lower, removed))[x] ==
            if Parse(x).Ok? && Candidate(x, lower, removed) then multiset(options)[x] else 0
    ensures x in Candidates(options, lower, removed) ==> x in options && Parse(x).Ok? && Candidate(x, lower, removed)
    decreases |options|
  {
    if options != [] {
      CandidatesCount(options[1..], lower, removed, x);
      assert options == [options[0]] + options[1..];
    }
  }

  lemma {:induction false} SameCopies(a: seq<string>, b: seq<string>)
    requires multiset(a) == multiset(b) && forall i, j :: 0 <= i < |a| && 0 <= j < |a| ==> a[i] == a[j]
    ensures a == b
  {
    assert |multiset(a)| == |a| && |multiset(b)| == |b|;
    forall i | 0 <= i < |a| ensures a[i] == b[i] {
      assert b[i] in multiset(a);
    }
  }

  lemma OrderFreeKeeps(p: seq<string>, lower: string -> string, removed: set<string>)
    requires !Conflict(p, lower, removed)
    ensures Keep(p, lower, removed) == Candidates(p, lower, removed)
  {
    forall x | x in p && Candidate(x, lower, removed) ensures KeyOf(x, lower) !in RemovedIn(p, lower) {}
    KeepsCandidates(p, lower, removed, {});
    assert removed + {} == removed;
  }

  lemma OrderFreeIsFree(all: seq<string>, p: seq<string>, lower: string -> string, removed: set<string>)
    requires OrderOf(p, all) && OrderFree(all, lower, removed)
    ensures OrderFree(p, lower, removed)
  {
    OrderHasSame(p, all);
  }

  lemma OrderFreeAgrees(all: seq<string>, p: seq<string>, q: seq<string>, lower: string -> string, removed: set<string>)
    requires OrderOf(p, all) && OrderOf(q, all) && OrderFree(all, lower, removed)
    ensures Keep(p, lower, removed) == Keep(q, lower, removed)
  {
    OrderFreeIsFree(all, p, lower, removed);
    OrderFreeIsFree(all, q, lower, removed);
    OrderFreeKeeps(p, lower, removed);
    OrderFreeKeeps(q, lower, removed);
    var a, b := Candidates(p, lower, removed), Candidates(q, lower, removed);
    forall x ensures multiset(a)[x] == multiset(b)[x] {
      CandidatesCount(p, lower, removed, x);
      CandidatesCount(q, lower, removed, x);
    }
    forall i | 0 <= i < |a| ensures a[i] in p && Parse(a[i]).Ok? && Candidate(a[i], lower, removed) {
      CandidatesCount(p, lower, removed, a[i]);
    }
    SameCopies(a, b);
  }

  lemma PullFront(all: seq<string>, x: string) returns (rest: seq<string>)
    requires x in all
    ensures multiset(all) == multiset([x] + rest)
  {
    var i :| 0 <= i < |all| && all[i] == x;
    rest := all[..i] + all[i + 1..];
    assert all == all[..i] + [x] + all[i + 1..];
  }

  lemma KeepTwo(x: string, y: string, rest: seq<string>, lower: string -> string, removed: set<string>)
    ensures var r := Then(x, lower, removed);
            Keep([x, y] + rest, lower, removed) ==
            (if Candidate(x, lower, removed) then [x] else [])
                + ((if Candidate(y, lower, r) then [y] else []) + Keep(rest, lower, Then(y, lower, r)))
  {
    assert [x, y] + rest == [x] + ([y] + rest);
    KeepFirst(x, [y] + rest, lower, removed);
    KeepFirst(y, rest, lower, Then(x, lower, removed));
  }

  /** A candidate, and another candidate or a removal of its key: their order shows. */
  lemma OrderShows(x: string, y: string, rest: seq<string>, lower: string -> string, removed: set<string>)
    requires x != y && Candidate(x, lower, removed)
    requires Candidate(y, lower, removed) || (Removes(y) && KeyOf(x, lower) == KeyOf(y, lower))
    ensures Keep([x, y] + rest, lower, removed) != Keep([y, x] + rest, lower, removed)
  {
    KeepTwo(x, y, rest, lower, removed);
    KeepTwo(y, x, rest, lower, removed);
    if !Removes(y) {
      assert Keep([x, y] + rest, lower, removed)[0] == x && Keep([y, x] + rest, lower, removed)[0] == y;
    }
  }

  /** Two different options can be put in front in both orders. */
  lemma BothOrders(all: seq<string>, x: string, y: string) returns (rest: seq<string>)
    requires x in all && y in all && x != y
    ensures OrderOf([x, y] + rest, all) && OrderOf([y, x] + rest, all)
    ensures forall z :: z in rest ==> z in all
  {
    var rest1 := PullFront(all, x);
    assert y in multiset([x] + rest1);
    rest := PullFront(rest1, y);
    assert [x, y] + rest == [x] + ([y] + rest) && [y, x] + rest == [y] + ([x] + rest);
    OrderHasSame([x, y] + rest, all);
    assert forall z :: z in rest ==> z in [x, y] + rest;
  }

  lemma NotOrderFree(all: seq<string>, lower: string -> string, removed: set<string>)
    returns (p: seq<string>, q: seq<string>)
    requires !OrderFree(all, lower, removed)
    ensures OrderOf(p, all) && OrderOf(q, all)
    ensures Keep(p, lower, removed) != Keep(q, lower, removed)
  {
    var x, y :| x in all && y in all && x != y && Candidate(x, lower, removed)
                && (Candidate(y, lower, removed) || (Removes(y) && KeyOf(x, lower) == KeyOf(y, lower)));
    var rest := BothOrders(all, x, y);
    p, q := [x, y] + rest, [y, x] + rest;
    OrderHasSame(p, all);
    OrderHasSame(q, all);
    OrderShows(x, y, rest, lower, removed);
  }

  lemma BothKept(x: string, y: string, lower: string -> string)
    requires Candidate(x, lower, {}) && Candidate(y, lower, {})
    ensures Keep([x, y], lower, {}) == [x, y]
  {
    KeepTwo(x, y, [], lower, {});
    assert [x, y] + [] == [x, y];
  }

  lemma PlainCandidate(key: string, value: string, lower: string -> string)
    requires value != "" && forall i :: 0 <= i < |key| ==> !Separator(key[i])
    ensures Candidate(key + [' '] + value, lower, {})
  {
    ParseWritten(key, ' ', value);
  }

  /** Two deployment options that add something are written in whichever order they come. */
  lemma MapOrderExample(lower: string -> string) returns (x: string, y: string)
    ensures x == "A 1" && y == "B 2" && OrderOf([y, x], [x, y])
    ensures Keep([x, y], lower, {}) == [x, y] && Keep([y, x], lower, {}) == [y, x]
  {
    x, y := "A" + [' '] + "1", "B" + [' '] + "2";
    PlainCandidate("A", "1", lower);
    PlainCandidate("B", "2", lower);
    BothKept(x, y, lower);
    BothKept(y, x, lower);
  }

  lemma {:induction false} KeptIfNoneRemoves(options: seq<string>, lower: string -> string, removed: set<string>,
                                             x: string)
    requires x in options && Candidate(x, lower, removed) && forall y :: y in options ==> !Removes(y)
    ensures x in Keep(options, lower, removed)
    decreases |options|
  {
    if x in options[1..] {
      KeptIfNoneRemoves(options[1..], lower, removed, x);
    }
  }

  lemma RemovedInOrder(p: seq<string>, all: seq<string>, lower: string -> string)
    requires OrderOf(p, all)
    ensures RemovedIn(p, lower) == RemovedIn(all, lower)
  {
    OrderHasSame(p, all);
  }

  /** The order only matters through what is kept of the deployment's options. */
  lemma BlocksAgree(user: seq<string>, all: seq<string>, p: seq<string>, q: seq<string>, standard: seq<string>,
                    lower: string -> string)
    requires OrderOf(p, all) && OrderOf(q, all)
    ensures BlockOptions(user, p, standard, lower) == BlockOptions(user, q, standard, lower) <==>
            Keep(p, lower, RemovedIn(user, lower)) == Keep(q, lower, RemovedIn(user, lower))
  {
    OrderHasSame(p, all);
    OrderHasSame(q, all);
    BlockParts(user, p, standard, lower);
    BlockParts(user, q, standard, lower);
    RemovedInOrder(p, all, lower);
    RemovedInOrder(q, all, lower);
    var r := RemovedIn(user, lower);
    Cancel(Keep(user, lower, {}), Keep(p, lower, r), Keep(q, lower, r),
        Keep(standard, lower, r + RemovedIn(all, lower)));
  }

  lemma Cancel(a: seq<string>, b: seq<string>, c: seq<string>, d: seq<string>)
    ensures a + b + d == a + c + d <==> b == c
  {
    if a + b + d == a + c + d {
      assert |b| == |c|;
      assert forall i :: 0 <= i < |b| ==> b[i] == (a + b + d)[|a| + i] && c[i] == (a + c + d)[|a| + i];
    }
  }
}
