// The host blocks of the section, in terms of what goes into them.

/** The hosts as they are written, in terms of what goes into them. */
module HostBlocks {
  import opened Wrappers
  import opened Occurrences
  import opened Sections
  import Lines
  import opened SshOptions
  import opened SshBody
  import opened SshReadBack
  import O = OptionList
  import opened HostOptions

  /** A host to be written: its name and its standard options. */
  datatype Spec = Spec(name: string, standard: seq<string>)

  ghost function HostOf(spec: Spec, user: seq<string>, deployment: seq<string>, lower: string -> string): Host {
    Host(spec.name, BlockOptions(user, deployment, spec.standard, lower))
  }

  /** The hosts, each with the deployment's options in an order of its own. */
  ghost function Hosts(specs: seq<Spec>, user: seq<string>, orders: seq<seq<string>>,
                       lower: string -> string): seq<Host>
    requires |orders| == |specs|
    decreases |specs|
  {
    var n := |specs| - 1;
    if specs == [] then []
    else Hosts(specs[..n], user, orders[..n], lower) + [HostOf(specs[n], user, orders[n], lower)]
  }

  ghost predicate ValidHost(spec: Spec, user: seq<string>, deployment: seq<string>) {
    AllValid(user) && AllValid(deployment) && AllValid(spec.standard)
  }

  /** The loop over the hosts; an option that does not parse ends it. */
  method BuildHosts(specs: seq<Spec>, user: seq<string>, orders: seq<seq<string>>, lower: string -> string)
    returns (r: Result<seq<Host>, O.Invalid>)
    requires |orders| == |specs|
    ensures r.Ok? <==> forall i :: 0 <= i < |specs| ==> ValidHost(specs[i], user, orders[i])
    ensures r.Ok? ==> r.value == Hosts(specs, user, orders, lower)
  {
    var hosts: seq<Host> := [];
    for i := 0 to |specs|
      invariant forall j :: 0 <= j < i ==> ValidHost(specs[j], user, orders[j])
      invariant hosts == Hosts(specs[..i], user, orders[..i], lower)
    {
      var block := BuildBlock(user, orders[i], specs[i].standard, lower);
      if block.Err? {
        assert !ValidHost(specs[i], user, orders[i]);
        return Err(block.error);
      }
      hosts := hosts + [Host(specs[i].name, block.value)];
      assert specs[..i + 1][..i] == specs[..i] && orders[..i + 1][..i] == orders[..i];
    }
    assert specs[..|specs|] == specs && orders[..|specs|] == orders;
    r := Ok(hosts);
  }

  // ----- Free of markers

  ghost predicate InputsFree(o: Options, specs: seq<Spec>, deployment: seq<string>, tok: string) {
    && ValuesFree(o, tok) && AllAbsent(deployment, tok)
    && forall i :: 0 <= i < |specs| ==> Absent(specs[i].name, tok) && AllAbsent(specs[i].standard, tok)
  }

  lemma {:induction false} KeptAreGiven(options: seq<string>, lower: string -> string, removed: set<string>, x: string)
    ensures x in Keep(options, lower, removed) ==> x in options
    decreases |options|
  {
    if options != [] {
      KeptAreGiven(options[1..], lower, Then(options[0], lower, removed), x);
    }
  }

  lemma BlockIsFree(user: seq<string>, deployment: seq<string>, standard: seq<string>, lower: string -> string,
                    tok: string)
    requires AllAbsent(user, tok) && AllAbsent(deployment, tok) && AllAbsent(standard, tok)
    ensures AllAbsent(BlockOptions(user, deployment, standard, lower), tok)
  {
    var b := BlockOptions(user, deployment, standard, lower);
    AllAbsentConcat(user, deployment, tok);
    AllAbsentConcat(user + deployment, standard, tok);
    forall i | 0 <= i < |b| ensures Absent(b[i], tok) {
      KeptAreGiven(user + deployment + standard, lower, {}, b[i]);
      assert b[i] in user + deployment + standard;
    }
  }

  ghost predicate Orders(orders: seq<seq<string>>, deployment: seq<string>, n: nat) {
    |orders| == n && forall i :: 0 <= i < n ==> OrderOf(orders[i], deployment)
  }

  lemma OrderIsFree(p: seq<string>, all: seq<string>, tok: string)
    requires OrderOf(p, all) && AllAbsent(all, tok)
    ensures AllAbsent(p, tok)
  {
    OrderHasSame(p, all);
    forall i | 0 <= i < |p| ensures Absent(p[i], tok) {
      assert p[i] in p;
      assert p[i] in all;
    }
  }

  lemma {:induction false} HostsAreFree(o: Options, specs: seq<Spec>, deployment: seq<string>, orders: seq<seq<string>>,
                                        lower: string -> string, tok: string)
    requires InputsFree(o, specs, deployment, tok) && Orders(orders, deployment, |specs|)
    ensures HostsFree(Hosts(specs, o.sshOptions, orders, lower), tok)
    decreases |specs|
  {
    if specs != [] {
      var n := |specs| - 1;
      HostsAreFree(o, specs[..n], deployment, orders[..n], lower, tok);
      OrderIsFree(orders[n], deployment, tok);
      BlockIsFree(o.sshOptions, orders[n], specs[n].standard, lower, tok);
    }
  }

  // ----- Orders of the deployment's options

  /** No host is written, or the order of the deployment's options cannot show. */
  ghost predicate Repeatable(o: Options, specs: seq<Spec>, deployment: seq<string>, lower: string -> string) {
    specs == [] || OrderFree(deployment, lower, RemovedIn(o.sshOptions, lower))
  }

  lemma {:induction false} RepeatableAgrees(o: Options, specs: seq<Spec>, deployment: seq<string>,
                                            lower: string -> string,
                                            orders: seq<seq<string>>, orders': seq<seq<string>>)
    requires Repeatable(o, specs, deployment, lower)
    requires Orders(orders, deployment, |specs|) && Orders(orders', deployment, |specs|)
    ensures Hosts(specs, o.sshOptions, orders, lower) == Hosts(specs, o.sshOptions, orders', lower)
    decreases |specs|
  {
    if specs != [] {
      var n := |specs| - 1;
      RepeatableAgrees(o, specs[..n], deployment, lower, orders[..n], orders'[..n]);
      OrderFreeAgrees(deployment, orders[n], orders'[n], lower, RemovedIn(o.sshOptions, lower));
      BlocksAgree(o.sshOptions, deployment, orders[n], orders'[n], specs[n].standard, lower);
    }
  }

  lemma IndentedInjective(a: seq<string>, b: seq<string>)
    requires Indented(a) == Indented(b)
    ensures a == b
    decreases |a|
  {
    if a == [] {
      assert b == [];
    } else {
      var m, n := |a| - 1, |b| - 1;
      assert b != [];
      assert Indented(a) == Indented(a[..m]) + [INDENT + a[m]] && Indented(b) == Indented(b[..n]) + [INDENT + b[n]];
      LastOf(Indented(a[..m]), INDENT + a[m], Indented(b[..n]), INDENT + b[n]);
      IndentedInjective(a[..m], b[..n]);
      assert (INDENT + a[m])[1..] == a[m] && (INDENT + b[n])[1..] == b[n];
      assert a == a[..m] + [a[m]] && b == b[..n] + [b[n]];
    }
  }

  lemma LastOf(s: seq<string>, x: string, t: seq<string>, y: string)
    requires s + [x] == t + [y]
    ensures s == t && x == y
  {
    assert (s + [x])[|s|] == x && (t + [y])[|t|] == y;
    assert (s + [x])[..|s|] == s && (t + [y])[..|t|] == t;
  }

  /** Bodies with the same header are the same text only if the hosts have the same lines, none of which has a line
      break. */
  lemma BodyInjective(o: Options, hosts: seq<Host>, hosts': seq<Host>)
    requires Body(o, hosts) == Body(o, hosts') && Lines.OneLiners(HostLines(hosts))
             && Lines.OneLiners(HostLines(hosts'))
    ensures HostLines(hosts) == HostLines(hosts')
  {
    JoinConcat(HeaderLines(o), HostLines(hosts));
    JoinConcat(HeaderLines(o), HostLines(hosts'));
    var h, a, b := Lines.Join(HeaderLines(o)), HostText(hosts), HostText(hosts');
    assert (h + a)[|h|..] == a && (h + b)[|h|..] == b;
    SplitJoined(HostLines(hosts));
    SplitJoined(HostLines(hosts'));
  }

  lemma LastHost(specs: seq<Spec>, user: seq<string>, orders: seq<seq<string>>, lower: string -> string)
    requires specs != [] && |orders| == |specs|
    ensures var n := |specs| - 1;
            HostLines(Hosts(specs, user, orders, lower)) ==
            HostLines(Hosts(specs[..n], user, orders[..n], lower)) + Block(HostOf(specs[n], user, orders[n], lower))
  {
    var n := |specs| - 1;
    var init, h := Hosts(specs[..n], user, orders[..n], lower), HostOf(specs[n], user, orders[n], lower);
    assert (init + [h])[..|init|] == init;
  }

  /** Two runs that differ in the order of the last host's deployment options only, and in what is kept of them. */
  lemma LastHostShows(o: Options, specs: seq<Spec>, deployment: seq<string>, lower: string -> string,
                      orders: seq<seq<string>>, orders': seq<seq<string>>)
    requires specs != [] && Orders(orders, deployment, |specs|) && Orders(orders', deployment, |specs|)
    requires var n := |specs| - 1;
             && orders[..n] == orders'[..n]
             && Keep(orders[n], lower, RemovedIn(o.sshOptions, lower)) !=
                Keep(orders'[n], lower, RemovedIn(o.sshOptions, lower))
    ensures HostLines(Hosts(specs, o.sshOptions, orders, lower)) !=
            HostLines(Hosts(specs, o.sshOptions, orders', lower))
  {
    var n := |specs| - 1;
    LastHost(specs, o.sshOptions, orders, lower);
    LastHost(specs, o.sshOptions, orders', lower);
    BlocksAgree(o.sshOptions, deployment, orders[n], orders'[n], specs[n].standard, lower);
    var init := HostLines(Hosts(specs[..n], o.sshOptions, orders[..n], lower));
    var h, h' := HostOf(specs[n], o.sshOptions, orders[n], lower), HostOf(specs[n], o.sshOptions, orders'[n], lower);
    BlocksDiffer(h, h');
    assert (init + Block(h))[|init|..] == Block(h) && (init + Block(h'))[|init|..] == Block(h');
  }

  lemma {:induction false} HostIsWritten(specs: seq<Spec>, user: seq<string>, orders: seq<seq<string>>,
                                         lower: string -> string, i: nat)
    requires |orders| == |specs| && i < |specs|
    ensures HOST + specs[i].name in HostLines(Hosts(specs, user, orders, lower))
    decreases |specs|
  {
    var n := |specs| - 1;
    LastHost(specs, user, orders, lower);
    if i < n {
      HostIsWritten(specs[..n], user, orders[..n], lower, i);
    } else {
      assert Block(HostOf(specs[n], user, orders[n], lower))[0] == HOST + specs[n].name;
    }
  }

  lemma BlocksDiffer(h: Host, h': Host)
    requires h.name == h'.name && h.options != h'.options
    ensures Block(h) != Block(h')
  {
    if Block(h) == Block(h') {
      assert Block(h)[1..] == Indented(h.options) && Block(h')[1..] == Indented(h'.options);
      IndentedInjective(h.options, h'.options);
    }
  }

  /** No line break in anything that goes into the host blocks. */
  ghost predicate OneLineInputs(o: Options, specs: seq<Spec>, deployment: seq<string>) {
    && Lines.OneLiners(o.sshOptions) && Lines.OneLiners(deployment)
    && forall i :: 0 <= i < |specs| ==> '\n' !in specs[i].name && Lines.OneLiners(specs[i].standard)
  }

  ghost predicate Every(vs: seq<string>, ok: string -> bool) { forall i :: 0 <= i < |vs| ==> ok(vs[i]) }

  lemma EveryConcat(a: seq<string>, b: seq<string>, ok: string -> bool)
    requires Every(a, ok) && Every(b, ok)
    ensures Every(a + b, ok)
  {
  }

  /** The lines of a host block are good if what goes into them is. */
  ghost predicate Carries(name: string -> bool, option: string -> bool, line: string -> bool) {
    && (forall v :: name(v) ==> line(HOST + v))
    && (forall v :: option(v) ==> line(INDENT + v))
  }

  ghost predicate GoodInputs(user: seq<string>, specs: seq<Spec>, deployment: seq<string>, name: string -> bool,
                             option: string -> bool) {
    && Every(user, option) && Every(deployment, option)
    && forall i :: 0 <= i < |specs| ==> name(specs[i].name) && Every(specs[i].standard, option)
  }

  lemma {:induction false} IndentedGood(vs: seq<string>, name: string -> bool, option: string -> bool,
                                        line: string -> bool)
    requires Carries(name, option, line) && Every(vs, option)
    ensures Every(Indented(vs), line)
    decreases |vs|
  {
    if vs != [] {
      var n := |vs| - 1;
      IndentedGood(vs[..n], name, option, line);
      assert option(vs[n]);
      EveryConcat(Indented(vs[..n]), [INDENT + vs[n]], line);
    }
  }

  lemma BlockGood(spec: Spec, user: seq<string>, p: seq<string>, deployment: seq<string>, lower: string -> string,
                  name: string -> bool, option: string -> bool, line: string -> bool)
    requires Carries(name, option, line) && OrderOf(p, deployment)
    requires name(spec.name) && Every(user, option) && Every(deployment, option) && Every(spec.standard, option)
    ensures Every(Block(HostOf(spec, user, p, lower)), line)
  {
    OrderHasSame(p, deployment);
    var b := BlockOptions(user, p, spec.standard, lower);
    forall i | 0 <= i < |b| ensures option(b[i]) {
      KeptAreGiven(user + p + spec.standard, lower, {}, b[i]);
      assert b[i] in user || b[i] in deployment || b[i] in spec.standard;
    }
    IndentedGood(b, name, option, line);
    EveryConcat([HOST + spec.name], Indented(b), line);
  }

  lemma {:induction false} HostsGood(specs: seq<Spec>, user: seq<string>, deployment: seq<string>,
                                     orders: seq<seq<string>>, lower: string -> string,
                                     name: string -> bool, option: string -> bool, line: string -> bool)
    requires Carries(name, option, line) && GoodInputs(user, specs, deployment, name, option)
    requires Orders(orders, deployment, |specs|)
    ensures Every(HostLines(Hosts(specs, user, orders, lower)), line)
    decreases |specs|
  {
    if specs != [] {
      var n := |specs| - 1;
      HostsGood(specs[..n], user, deployment, orders[..n], lower, name, option, line);
      BlockGood(specs[n], user, orders[n], deployment, lower, name, option, line);
      LastHost(specs, user, orders, lower);
      EveryConcat(HostLines(Hosts(specs[..n], user, orders[..n], lower)),
          Block(HostOf(specs[n], user, orders[n], lower)), line);
    }
  }

  lemma HostsOneLiners(o: Options, specs: seq<Spec>, deployment: seq<string>, orders: seq<seq<string>>,
                       lower: string -> string)
    requires OneLineInputs(o, specs, deployment) && Orders(orders, deployment, |specs|)
    ensures Lines.OneLiners(HostLines(Hosts(specs, o.sshOptions, orders, lower)))
  {
    var one := (v: string) => '\n' !in v;
    HostsGood(specs, o.sshOptions, deployment, orders, lower, one, one, one);
  }

  /** If the order can show, there are orders that give other host lines. */
  lemma SomeOrdersDiffer(o: Options, specs: seq<Spec>, deployment: seq<string>, lower: string -> string)
    returns (orders: seq<seq<string>>, orders': seq<seq<string>>)
    requires !Repeatable(o, specs, deployment, lower)
    ensures Orders(orders, deployment, |specs|) && Orders(orders', deployment, |specs|)
    ensures HostLines(Hosts(specs, o.sshOptions, orders, lower)) !=
            HostLines(Hosts(specs, o.sshOptions, orders', lower))
  {
    var n := |specs| - 1;
    var p, q := NotOrderFree(deployment, lower, RemovedIn(o.sshOptions, lower));
    var same := seq(n, _ => p);
    orders, orders' := same + [p], same + [q];
    assert orders[..n] == same && orders'[..n] == same;
    LastHostShows(o, specs, deployment, lower, orders, orders');
  }
}
