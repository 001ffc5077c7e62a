// Collecting ssh options under their keys, and comparing two sets of options.

module OptionList {
  import opened Wrappers

  datatype Entry = Entry(key: string, value: string)

  datatype Invalid = Invalid(option: string)

  predicate Separator(c: char) { c == ' ' || c == '=' }

  /** Where the key of an option ends. */
  function KeyLength(option: string): (k: nat)
    ensures k <= |option| && (k < |option| ==> Separator(option[k]))
    ensures forall i :: 0 <= i < k ==> !Separator(option[i])
  {
    if option == "" || Separator(option[0]) then 0 else 1 + KeyLength(option[1..])
  }

  /** ParseSSHConfigOption */
  function Parse(option: string): Result<Entry, Invalid> {
    var k := KeyLength(option);
    if k == |option| then Err(Invalid(option)) else Ok(Entry(option[..k], option[k + 1..]))
  }

  /** A key and a value with any separator between them come apart again, whatever the value holds. */
  lemma ParseWritten(key: string, c: char, value: string)
    requires Separator(c) && forall i :: 0 <= i < |key| ==> !Separator(key[i])
    ensures Parse(key + [c] + value) == Ok(Entry(key, value))
  {
    var option := key + [c] + value;
    assert option[|key|] == c;
    assert forall i :: 0 <= i < |key| ==> option[i] == key[i];
    assert option[..|key|] == key && option[|key| + 1..] == value;
  }

  /** An option without a separator does not parse. */
  lemma ParseFailsIff(option: string)
    ensures Parse(option).Err? <==> forall i :: 0 <= i < |option| ==> !Separator(option[i])
  {
  }

  // ----- What a list of options amounts to

  /** The options before the first one that does not parse. */
  function Valid(options: seq<string>): (n: nat)
    ensures n <= |options| && (n < |options| ==> Parse(options[n]).Err?)
    ensures forall i :: 0 <= i < n ==> Parse(options[i]).Ok?
  {
    if options == [] || Parse(options[0]).Err? then 0 else 1 + Valid(options[1..])
  }

  function KeyOf(option: string, lower: string -> string): string
    requires Parse(option).Ok?
  {
    lower(Parse(option).value.key)
  }

  /** Option i, with an empty value, takes its key out for the options after it. */
  predicate Removes(option: string) { Parse(option).Ok? && Parse(option).value.value == "" }

  ghost predicate RemovedBefore(options: seq<string>, i: nat, key: string, lower: string -> string,
                                removed: set<string>)
    requires i <= |options|
  {
    key in removed || exists j :: 0 <= j < i && Removes(options[j]) && KeyOf(options[j], lower) == key
  }

  ghost predicate Kept(options: seq<string>, i: nat, lower: string -> string, removed: set<string>)
    requires i < |options| && Parse(options[i]).Ok?
  {
    !Removes(options[i]) && !RemovedBefore(options, i, KeyOf(options[i], lower), lower, removed)
  }

  /** Those of the first n options that are kept, in order. */
  ghost function KeptOf(options: seq<string>, n: nat, lower: string -> string, removed: set<string>): seq<string>
    requires n <= Valid(options)
  {
    if n == 0 then []
    else
      KeptOf(options, n - 1, lower, removed)
      + if Kept(options, n - 1, lower, removed) then [options[n - 1]] else []
  }

  ghost function RemovedOf(options: seq<string>, n: nat, lower: string -> string): set<string>
    requires n <= |options|
  {
    set j | 0 <= j < n && Removes(options[j]) :: KeyOf(options[j], lower)
  }

  lemma RemovedStep(options: seq<string>, i: nat, lower: string -> string)
    requires i < |options|
    ensures RemovedOf(options, i + 1, lower) ==
            RemovedOf(options, i, lower) + if Removes(options[i]) then {KeyOf(options[i], lower)} else {}
  {
  }

  lemma RemovedIsBefore(options: seq<string>, i: nat, key: string, lower: string -> string, removed: set<string>)
    requires i <= |options|
    ensures RemovedBefore(options, i, key, lower, removed) <==> key in removed + RemovedOf(options, i, lower)
  {
  }

  lemma KeptStep(options: seq<string>, i: nat, lower: string -> string, removed: set<string>, sshOptions: seq<string>)
    requires i < Valid(options)
    ensures sshOptions + KeptOf(options, i + 1, lower, removed) ==
            sshOptions + KeptOf(options, i, lower, removed)
            + if !Removes(options[i]) && KeyOf(options[i], lower) !in removed + RemovedOf(options, i, lower)
              then [options[i]] else []
  {
    RemovedIsBefore(options, i, KeyOf(options[i], lower), lower, removed);
  }

  class Options {
    var sshOptions: seq<string>
    var removedKeys: set<string>

    constructor ()
      ensures sshOptions == [] && removedKeys == {}
    {
      sshOptions, removedKeys := [], {};
    }

    method AddOption(option: string, lower: string -> string) returns (r: Result<(), Invalid>)
      modifies this
      ensures r.Ok? <==> Parse(option).Ok?
      ensures var added := Parse(option).Ok? && !Removes(option) && KeyOf(option, lower) !in old(removedKeys);
              sshOptions == old(sshOptions) + if added then [option] else []
      ensures removedKeys == old(removedKeys) + if Removes(option) then {KeyOf(option, lower)} else {}
    {
      var parsed := Parse(option);
      if parsed.Err? {
        return Err(parsed.error);
      }
      var lowerKey := lower(parsed.value.key);
      if lowerKey in removedKeys {
        return Ok(());
      }
      if parsed.value.value != "" {
        sshOptions := sshOptions + [option];
      } else {
        removedKeys := removedKeys + {lowerKey};
      }
      return Ok(());
    }

    /** The options that are kept are those whose key no option before them has removed; the first bad one ends it. */
    method AddOptions(options: seq<string>, lower: string -> string) returns (r: Result<(), Invalid>)
      modifies this
      ensures r.Ok? <==> Valid(options) == |options|
      ensures sshOptions == old(sshOptions) + KeptOf(options, Valid(options), lower, old(removedKeys))
      ensures removedKeys == old(removedKeys) + RemovedOf(options, Valid(options), lower)
    {
      assert sshOptions + [] == sshOptions;
      for i := 0 to |options|
        invariant i <= Valid(options)
        invariant sshOptions == old(sshOptions) + KeptOf(options, i, lower, old(removedKeys))
        invariant removedKeys == old(removedKeys) + RemovedOf(options, i, lower)
      {
        var step := AddOption(options[i], lower);
        if step.Err? {
          return step;
        }
        KeptStep(options, i, lower, old(removedKeys), old(sshOptions));
        RemovedStep(options, i, lower);
      }
      return Ok(());
    }
  }

  // ----- No key twice

  ghost predicate DistinctKeys(options: seq<string>, lower: string -> string)
    requires forall i :: 0 <= i < |options| ==> Parse(options[i]).Ok?
  {
    forall i, j :: 0 <= i < j < |options| ==> KeyOf(options[i], lower) != KeyOf(options[j], lower)
  }

  ghost predicate HasKey(options: seq<string>, key: string, lower: string -> string) {
    exists i :: 0 <= i < |options| && Parse(options[i]).Ok? && KeyOf(options[i], lower) == key
  }

  /** Adding an option leaves the keys distinct exactly when it adds nothing or its key is new:
      an earlier option with the same key is not replaced. */
  lemma AddKeepsDistinctIff(options: seq<string>, option: string, lower: string -> string, removed: set<string>)
    requires forall i :: 0 <= i < |options| ==> Parse(options[i]).Ok?
    requires Parse(option).Ok? && DistinctKeys(options, lower)
    ensures var added := options + if !Removes(option) && KeyOf(option, lower) !in removed then [option] else [];
            DistinctKeys(added, lower) <==>
            (Removes(option) || KeyOf(option, lower) in removed || !HasKey(options, KeyOf(option, lower), lower))
  {
    if !Removes(option) && KeyOf(option, lower) !in removed {
      var added := options + [option];
      assert added[|options|] == option;
      if i :| 0 <= i < |options| && KeyOf(options[i], lower) == KeyOf(option, lower) {
        assert added[i] == options[i];
      }
    }
  }

  /** The comment on addOptions says that an existing option with the same key is overridden; it is kept. */
  lemma DuplicateIsKept(lower: string -> string)
    ensures KeptOf(["A=1", "A=2"], Valid(["A=1", "A=2"]), lower, {}) == ["A=1", "A=2"]
  {
    var l := ["A=1", "A=2"];
    ParseWritten("A", '=', "1");
    ParseWritten("A", '=', "2");
    assert "A" + ['='] + "1" == l[0] && "A" + ['='] + "2" == l[1];
    assert l[1..][0] == l[1];
    assert Valid(l[1..][1..]) == 0 && Valid(l[1..]) == 1;
    assert KeptOf(l, 0, lower, {}) == [];
    assert KeptOf(l, 1, lower, {}) == [l[0]];
  }
}

/** slicesSortedEqual and equal */
module SortedEqual {
  import opened SshOptions

  /** The order of strings: the first difference decides, and a prefix comes first. */
  predicate Leq(a: string, b: string) {
    a == "" || (b != "" && (a[0] < b[0] || (a[0] == b[0] && Leq(a[1..], b[1..]))))
  }

  lemma {:induction false} LeqTotal(a: string, b: string)
    ensures Leq(a, b) || Leq(b, a)
  {
    if a != "" && b != "" {
      LeqTotal(a[1..], b[1..]);
    }
  }

  lemma {:induction false} LeqAntisymmetric(a: string, b: string)
    requires Leq(a, b) && Leq(b, a)
    ensures a == b
  {
    if a != "" && b != "" {
      LeqAntisymmetric(a[1..], b[1..]);
      assert a == [a[0]] + a[1..] && b == [b[0]] + b[1..];
    }
  }

  lemma {:induction false} LeqTransitive(a: string, b: string, c: string)
    requires Leq(a, b) && Leq(b, c)
    ensures Leq(a, c)
  {
    if a != "" && a[0] == b[0] == c[0] {
      LeqTransitive(a[1..], b[1..], c[1..]);
    }
  }

  ghost predicate Ordered(s: seq<string>) { forall i, j :: 0 <= i < j < |s| ==> Leq(s[i], s[j]) }

  function Insert(x: string, s: seq<string>): (r: seq<string>)
    ensures multiset(r) == multiset(s) + multiset{x}
  {
    if s == [] then [x]
    else if Leq(x, s[0]) then [x] + s
    else
      var r := [s[0]] + Insert(x, s[1..]);
      assert s == [s[0]] + s[1..];
      r
  }

  /** slices.Sort, as a value */
  function Sort(s: seq<string>): (r: seq<string>)
    ensures multiset(r) == multiset(s)
  {
    if s == [] then [] else
    assert s == [s[0]] + s[1..];
    Insert(s[0], Sort(s[1..]))
  }

  lemma OrderedCons(x: string, s: seq<string>)
    requires Ordered(s) && forall y :: y in s ==> Leq(x, y)
    ensures Ordered([x] + s)
  {
  }

  lemma {:induction false} InsertOrdered(x: string, s: seq<string>)
    requires Ordered(s)
    ensures Ordered(Insert(x, s))
    decreases |s|
  {
    if s != [] {
      LeqTotal(x, s[0]);
      forall y | y in s ensures Leq(s[0], y) || y == s[0] {}
      if Leq(x, s[0]) {
        forall y | y in s ensures Leq(x, y) {
          if y != s[0] {
            LeqTransitive(x, s[0], y);
          }
        }
        OrderedCons(x, s);
      } else {
        InsertOrdered(x, s[1..]);
        forall y | y in Insert(x, s[1..]) ensures Leq(s[0], y) {
          assert y in multiset(Insert(x, s[1..]));
        }
        OrderedCons(s[0], Insert(x, s[1..]));
      }
    }
  }

  lemma {:induction false} SortOrdered(s: seq<string>)
    ensures Ordered(Sort(s))
    decreases |s|
  {
    if s != [] {
      SortOrdered(s[1..]);
      InsertOrdered(s[0], Sort(s[1..]));
    }
  }

  lemma LeastFirst(a: seq<string>, b: seq<string>)
    requires Ordered(a) && Ordered(b) && multiset(a) == multiset(b) && a != [] && b != []
    ensures a[0] == b[0]
  {
    assert a[0] in multiset(b) && b[0] in multiset(a);
    LeqSelf(a[0]);
    assert Leq(a[0], b[0]) && Leq(b[0], a[0]);
    LeqAntisymmetric(a[0], b[0]);
  }

  lemma {:induction a} LeqSelf(a: string)
    ensures Leq(a, a)
  {
  }

  /** Only one order of the same items is sorted. */
  lemma {:induction false} OrderedUnique(a: seq<string>, b: seq<string>)
    requires Ordered(a) && Ordered(b) && multiset(a) == multiset(b)
    ensures a == b
    decreases |a|
  {
    assert |multiset(a)| == |a| && |multiset(b)| == |b|;
    if a != [] {
      LeastFirst(a, b);
      assert a == [a[0]] + a[1..] && b == [b[0]] + b[1..];
      assert multiset(a[1..]) == multiset(a) - multiset{a[0]};
      assert multiset(b[1..]) == multiset(b) - multiset{b[0]};
      OrderedUnique(a[1..], b[1..]);
    }
  }

  function SlicesSortedEqual(a: seq<string>, b: seq<string>): bool { |a| == |b| && Sort(a) == Sort(b) }

  /** The comparison disregards order and nothing else. */
  lemma SlicesSortedEqualIff(a: seq<string>, b: seq<string>)
    ensures SlicesSortedEqual(a, b) <==> multiset(a) == multiset(b)
  {
    SortOrdered(a);
    SortOrdered(b);
    if multiset(a) == multiset(b) {
      assert |multiset(a)| == |a| && |multiset(b)| == |b|;
      OrderedUnique(Sort(a), Sort(b));
    }
    assert multiset(Sort(a)) == multiset(a) && multiset(Sort(b)) == multiset(b);
  }

  function Equal(o: Options, other: Options): bool {
    if !SlicesSortedEqual(o.sshOptions, other.sshOptions) then false
    else if !SlicesSortedEqual(o.header, other.header) then false
    else
      o.waitEnum == other.waitEnum && o.userHostPrefix == other.userHostPrefix
      && o.disableAutostart == other.disableAutostart && o.headerCommand == other.headerCommand
  }

  /** Options are equal when they differ only in the order of their lists. */
  lemma EqualIff(o: Options, other: Options)
    ensures Equal(o, other) <==>
            && multiset(o.sshOptions) == multiset(other.sshOptions)
            && multiset(o.header) == multiset(other.header)
            && o.(sshOptions := [], header := []) == other.(sshOptions := [], header := [])
  {
    SlicesSortedEqualIff(o.sshOptions, other.sshOptions);
    SlicesSortedEqualIff(o.header, other.header);
  }
}
