// A run of config-ssh: the section it writes, a second run on its output, and the options read back from it.

/** The lines of the section, and which of them can hold a marker. */
module SshBody {
  import opened Occurrences
  import opened Sections
  import Lines
  import opened SshOptions

  const START := "# ------------" + "START-CODER" + "-----------"
  const END := "# ------------" + "END-CODER" + "------------"

  /** A host entry: its name and the options below it. */
  datatype Host = Host(name: string, options: seq<string>)

  const HOST := "Host "
  const INDENT := "\t"

  function Indented(options: seq<string>): seq<string> {
    if options == [] then [] else Indented(options[..|options| - 1]) + [INDENT + options[|options| - 1]]
  }

  function Block(h: Host): seq<string> { [HOST + h.name] + Indented(h.options) }

  function HostLines(hosts: seq<Host>): seq<string> {
    if hosts == [] then [] else HostLines(hosts[..|hosts| - 1]) + Block(hosts[|hosts| - 1])
  }

  lemma {:induction false} IndentedAt(options: seq<string>, i: nat)
    requires i < |options|
    ensures |Indented(options)| == |options| && Indented(options)[i] == "\t" + options[i]
    decreases |options|
  {
    var n := |options| - 1;
    var rest, last := Indented(options[..n]), INDENT + options[n];
    if n > 0 {
      IndentedAt(options[..n], if i < n then i else 0);
    }
    assert |rest| == n && (rest + [last])[n] == last;
  }

  /** The blocks stand in the order of the hosts. */
  lemma {:induction false} HostLinesConcat(a: seq<Host>, b: seq<Host>)
    ensures HostLines(a + b) == HostLines(a) + HostLines(b)
    decreases |b|
  {
    if b == [] {
      assert a + b == a && HostLines(a) + [] == HostLines(a);
    } else {
      var rest, h := b[..|b| - 1], b[|b| - 1];
      HostLinesConcat(a, rest);
      assert (a + b)[..|a + b| - 1] == a + rest;
      Lines.Associate(HostLines(a), HostLines(rest), Block(h));
    }
  }

  /** A block is the host's name and its options, one to a line. */
  lemma BlockLines(h: Host)
    ensures HostLines([h]) == ["Host " + h.name] + Indented(h.options)
  {
    assert [h][..0] == [];
    assert [] + Block(h) == Block(h);
  }

  function BodyLines(o: Options, hosts: seq<Host>): seq<string> { HeaderLines(o) + HostLines(hosts) }

  function Body(o: Options, hosts: seq<Host>): string { Lines.Join(BodyLines(o, hosts)) }

  // ----- The two markers

  predicate Token(t: string) { Marker(t) && |t| > 2 && t[2] == '-' }

  lemma TokenGoesOn(t: string, s: string)
    requires Token(t) && Clean(s)
    ensures Token(t + s)
  {
    assert (t + s)[1..] == t[1..] + s;
  }

  lemma TokensAreMarkers()
    ensures Token(START) && Token(END)
  {
    var t := "# ------------";
    assert t[1..] == " ------------";
    TokenGoesOn(t, "START-CODER");
    TokenGoesOn(t + "START-CODER", "-----------");
    TokenGoesOn(t, "END-CODER");
    TokenGoesOn(t + "END-CODER", "------------");
  }

  lemma TokensArePair()
    ensures Pair(START, END)
  {
    TokensAreMarkers();
    assert START[14] == 'S' && END[14] == 'E';
  }

  // ----- Where a marker can be

  ghost predicate AllAbsent(ls: seq<string>, tok: string) { forall i :: 0 <= i < |ls| ==> Absent(ls[i], tok) }

  lemma AllAbsentConcat(a: seq<string>, b: seq<string>, tok: string)
    ensures AllAbsent(a + b, tok) <==> AllAbsent(a, tok) && AllAbsent(b, tok)
  {
    if AllAbsent(a + b, tok) {
      assert forall i :: 0 <= i < |a| ==> a[i] == (a + b)[i];
      assert forall i :: 0 <= i < |b| ==> b[i] == (a + b)[|a| + i];
    }
  }

  lemma OccursLeft(u: string, v: string, tok: string, i: int)
    requires OccursAt(u, tok, i)
    ensures OccursAt(u + v, tok, i)
  {
    assert (u + v)[i..i + |tok|] == u[i..i + |tok|];
  }

  lemma OccursRight(u: string, v: string, tok: string, i: int)
    requires OccursAt(v, tok, i)
    ensures OccursAt(u + v, tok, |u| + i)
  {
    assert (u + v)[|u| + i..|u| + i + |tok|] == v[i..i + |tok|];
  }

  lemma AbsentConcat(u: string, v: string, tok: string)
    requires Marker(tok) && EndsLine(u)
    ensures Absent(u + v, tok) <==> Absent(u, tok) && Absent(v, tok)
  {
    forall i | OccursAt(u, tok, i) ensures OccursAt(u + v, tok, i) { OccursLeft(u, v, tok, i); }
    forall i | OccursAt(v, tok, i) ensures OccursAt(u + v, tok, |u| + i) { OccursRight(u, v, tok, i); }
    forall i | OccursAt(u + v, tok, i) ensures !Absent(u, tok) || !Absent(v, tok) { OneSide(u, v, tok, i); }
  }

  lemma AbsentLine(l: string, tok: string)
    requires Marker(tok)
    ensures Absent(l + "\n", tok) <==> Absent(l, tok)
  {
    forall i | OccursAt(l, tok, i) ensures OccursAt(l + "\n", tok, i) { OccursLeft(l, "\n", tok, i); }
    if Absent(l, tok) {
      BeforeNewline(l, tok);
    }
  }

  /** Joined lines hold a marker only if one of them does. */
  lemma {:induction false} JoinAbsentIff(ls: seq<string>, tok: string)
    requires Marker(tok)
    ensures Absent(Lines.Join(ls), tok) <==> AllAbsent(ls, tok)
    decreases |ls|
  {
    if ls != [] {
      AbsentConcat(ls[0] + "\n", Lines.Join(ls[1..]), tok);
      AbsentLine(ls[0], tok);
      JoinAbsentIff(ls[1..], tok);
      AllAbsentConcat([ls[0]], ls[1..], tok);
      assert [ls[0]] + ls[1..] == ls;
      assert AllAbsent([ls[0]], tok) <==> Absent([ls[0]][0], tok);
    }
  }

  /** Text in which no marker starts, whatever follows it. */
  ghost predicate NoStart(pre: string) {
    forall i :: 0 <= i < |pre| && pre[i] == '#' ==> i + 2 < |pre| && pre[i + 2] != '-'
  }

  lemma AfterNoStart(pre: string, v: string, tok: string, i: int)
    requires Token(tok) && NoStart(pre) && OccursAt(pre + v, tok, i)
    ensures OccursAt(v, tok, i - |pre|)
  {
  }

  lemma PrefixedAbsentIff(pre: string, v: string, tok: string)
    requires Token(tok) && NoStart(pre)
    ensures Absent(pre + v, tok) <==> Absent(v, tok)
  {
    forall i | OccursAt(v, tok, i) ensures OccursAt(pre + v, tok, |pre| + i) { OccursRight(pre, v, tok, i); }
    forall i | OccursAt(pre + v, tok, i) ensures !Absent(v, tok) { AfterNoStart(pre, v, tok, i); }
  }

  lemma NoHash(s: string, tok: string)
    requires Marker(tok) && '#' !in s
    ensures Absent(s, tok)
  {
    forall i | OccursAt(s, tok, i) ensures s[i] == '#' { MarkerChars(s, tok, i); }
  }

  // ----- The option lines

  lemma KeyHasNoHash(f: Field)
    ensures '#' !in Key(f)
  {
  }

  lemma OptionPrefix(key: string)
    requires '#' !in key
    ensures NoStart(PREFIX + key + "=")
  {
    var pre := PREFIX + key + "=";
    assert forall i :: 0 <= i < |pre| ==>
           pre[i] == if i < 3 then PREFIX[i] else if i < 3 + |key| then key[i - 3] else '=';
  }

  lemma OptionLineAbsentIff(f: Field, v: string, tok: string)
    requires Token(tok)
    ensures Absent(OptionLine(f, v), tok) <==> Absent(v, tok)
  {
    KeyHasNoHash(f);
    OptionPrefix(Key(f));
    PrefixedAbsentIff(PREFIX + Key(f) + "=", v, tok);
  }

  lemma OneAbsent(l: string, tok: string)
    ensures AllAbsent([l], tok) <==> Absent(l, tok)
  {
    assert AllAbsent([l], tok) ==> Absent([l][0], tok);
  }

  lemma OneMoreAbsent(lines: seq<string>, l: string, vs: seq<string>, v: string, tok: string)
    requires (AllAbsent(lines, tok) <==> AllAbsent(vs, tok)) && (Absent(l, tok) <==> Absent(v, tok))
    ensures AllAbsent(lines + [l], tok) <==> AllAbsent(vs + [v], tok)
  {
    OneAbsent(l, tok);
    OneAbsent(v, tok);
    AllAbsentConcat(lines, [l], tok);
    AllAbsentConcat(vs, [v], tok);
  }

  lemma MaybeAbsentIff(written: bool, f: Field, v: string, tok: string)
    requires Token(tok) && (written || '#' !in v)
    ensures AllAbsent(Maybe(written, f, v), tok) <==> Absent(v, tok)
  {
    if written {
      OneAbsent(OptionLine(f, v), tok);
      OptionLineAbsentIff(f, v, tok);
    } else {
      NoHash(v, tok);
    }
  }

  lemma {:induction false} ListAbsentIff(f: Field, vs: seq<string>, tok: string)
    requires Token(tok)
    ensures AllAbsent(ListLines(f, vs), tok) <==> AllAbsent(vs, tok)
    decreases |vs|
  {
    if vs != [] {
      var rest, v := vs[..|vs| - 1], vs[|vs| - 1];
      ListAbsentIff(f, rest, tok);
      OptionLineAbsentIff(f, v, tok);
      OneMoreAbsent(ListLines(f, rest), OptionLine(f, v), rest, v, tok);
      assert vs == rest + [v];
    }
  }

  ghost predicate ValuesFree(o: Options, tok: string) {
    && Absent(o.waitEnum, tok) && Absent(o.userHostPrefix, tok) && Absent(o.headerCommand, tok)
    && AllAbsent(o.sshOptions, tok) && AllAbsent(o.header, tok)
  }

  lemma FlagsAbsentIff(o: Options, tok: string)
    requires Token(tok)
    ensures AllAbsent(FlagLines(o), tok) <==> Absent(o.waitEnum, tok) && Absent(o.userHostPrefix, tok)
  {
    var a, b := Maybe(o.waitEnum != "auto", Wait, o.waitEnum),
                Maybe(o.userHostPrefix != "", HostPrefix, o.userHostPrefix);
    var c := Maybe(o.disableAutostart, DisableAutostart, "true");
    MaybeAbsentIff(o.waitEnum != "auto", Wait, o.waitEnum, tok);
    MaybeAbsentIff(o.userHostPrefix != "", HostPrefix, o.userHostPrefix, tok);
    MaybeAbsentIff(o.disableAutostart, DisableAutostart, "true", tok);
    NoHash("true", tok);
    AllAbsentConcat(a, b, tok);
    AllAbsentConcat(a + b, c, tok);
  }

  lemma OptionLinesAbsentIff(o: Options, tok: string)
    requires Token(tok)
    ensures AllAbsent(OptionLines(o), tok) <==> ValuesFree(o, tok)
  {
    var a, b, c := FlagLines(o), ListLines(SshOption, o.sshOptions), ListLines(Header, o.header);
    var d := Maybe(o.headerCommand != "", HeaderCommand, o.headerCommand);
    FlagsAbsentIff(o, tok);
    ListAbsentIff(SshOption, o.sshOptions, tok);
    ListAbsentIff(Header, o.header, tok);
    MaybeAbsentIff(o.headerCommand != "", HeaderCommand, o.headerCommand, tok);
    AllAbsentConcat(a, b, tok);
    AllAbsentConcat(a + b, c, tok);
    AllAbsentConcat(a + b + c, d, tok);
  }

  // ----- The fixed lines

  ghost predicate Comments(ls: seq<string>) { forall i :: 0 <= i < |ls| ==> Comment(ls[i]) }

  lemma FixedLinesAreComments()
    ensures Comments(Intro()) && Comments(OptionsIntro()) && Comments(["#"])
  {
    ManagedIsComment();
    HandEditIsComment();
    ChangesIsComment();
    LastOptionsIsComment();
  }

  lemma CommentsAbsent(ls: seq<string>, tok: string)
    requires Token(tok) && Comments(ls)
    ensures AllAbsent(ls, tok)
  {
  }

  /** The lines above the options, and whether there are any. */
  function Above(o: Options): seq<string> { if OptionLines(o) == [] then Intro() else Intro() + OptionsIntro() }

  lemma HeaderShape(o: Options)
    ensures HeaderLines(o) == Above(o) + OptionLines(o) + ["#"]
    ensures Comments(Above(o)) && Comments(["#"])
  {
    FixedLinesAreComments();
    Lines.Associate(Intro(), OptionsIntro(), OptionLines(o));
    assert Intro() + [] == Intro();
  }

  lemma HeaderAbsentIff(o: Options, tok: string)
    requires Token(tok)
    ensures AllAbsent(HeaderLines(o), tok) <==> ValuesFree(o, tok)
  {
    HeaderShape(o);
    CommentsAbsent(Above(o), tok);
    CommentsAbsent(["#"], tok);
    OptionLinesAbsentIff(o, tok);
    AllAbsentConcat(Above(o), OptionLines(o), tok);
    AllAbsentConcat(Above(o) + OptionLines(o), ["#"], tok);
  }

  // ----- The host lines

  ghost predicate HostFree(h: Host, tok: string) { Absent(h.name, tok) && AllAbsent(h.options, tok) }

  ghost predicate HostsFree(hosts: seq<Host>, tok: string) { forall i :: 0 <= i < |hosts| ==> HostFree(hosts[i], tok) }

  lemma {:induction false} IndentedAbsentIff(vs: seq<string>, tok: string)
    requires Token(tok)
    ensures AllAbsent(Indented(vs), tok) <==> AllAbsent(vs, tok)
    decreases |vs|
  {
    if vs != [] {
      var rest, v := vs[..|vs| - 1], vs[|vs| - 1];
      IndentedAbsentIff(rest, tok);
      PrefixedAbsentIff(INDENT, v, tok);
      OneMoreAbsent(Indented(rest), INDENT + v, rest, v, tok);
      assert vs == rest + [v];
    }
  }

  lemma BlockAbsentIff(h: Host, tok: string)
    requires Token(tok)
    ensures AllAbsent(Block(h), tok) <==> HostFree(h, tok)
  {
    IndentedAbsentIff(h.options, tok);
    PrefixedAbsentIff(HOST, h.name, tok);
    OneAbsent(HOST + h.name, tok);
    AllAbsentConcat([HOST + h.name], Indented(h.options), tok);
  }

  lemma {:induction false} HostsAbsentIff(hosts: seq<Host>, tok: string)
    requires Token(tok)
    ensures AllAbsent(HostLines(hosts), tok) <==> HostsFree(hosts, tok)
    decreases |hosts|
  {
    if hosts != [] {
      var rest, h := hosts[..|hosts| - 1], hosts[|hosts| - 1];
      HostsAbsentIff(rest, tok);
      BlockAbsentIff(h, tok);
      AllAbsentConcat(HostLines(rest), Block(h), tok);
      assert hosts == rest + [h];
    }
  }

  /** The body holds a marker only if the user's values or the hosts do. */
  lemma BodyAbsentIff(o: Options, hosts: seq<Host>, tok: string)
    requires Token(tok)
    ensures Absent(Body(o, hosts), tok) <==> ValuesFree(o, tok) && HostsFree(hosts, tok)
  {
    HeaderAbsentIff(o, tok);
    HostsAbsentIff(hosts, tok);
    AllAbsentConcat(HeaderLines(o), HostLines(hosts), tok);
    JoinAbsentIff(BodyLines(o, hosts), tok);
  }

  lemma {:induction false} JoinEndsLine(ls: seq<string>)
    ensures EndsLine(Lines.Join(ls))
    decreases |ls|
  {
    if ls != [] {
      JoinEndsLine(ls[1..]);
    }
  }
}

/** The command as a whole. */
module SshConfig {
  import opened Wrappers
  import opened Sections
  import opened Occurrences
  import Lines
  import opened SshOptions
  import opened SshBody

  // ----- Writing

  /** One line, if there is something to write, after the lines written so far. */
  method WriteOption(ow: string, written: bool, f: Field, v: string, ghost ls: seq<string>) returns (r: string)
    requires ow == Lines.Join(ls)
    ensures r == Lines.Join(ls + Maybe(written, f, v))
  {
    r := ow;
    if written {
      r := ow + (OptionLine(f, v) + "\n");
    }
    JoinConcat(ls, Maybe(written, f, v));
    JoinOne(OptionLine(f, v));
    assert ow + "" == ow;
  }

  method WriteOptions(o: Options) returns (ow: string)
    ensures ow == Lines.Join(OptionLines(o))
  {
    ghost var a := Maybe(o.waitEnum != "auto", Wait, o.waitEnum);
    ghost var b := Maybe(o.userHostPrefix != "", HostPrefix, o.userHostPrefix);
    assert [] + a == a;
    ow := WriteOption("", o.waitEnum != "auto", Wait, o.waitEnum, []);
    ow := WriteOption(ow, o.userHostPrefix != "", HostPrefix, o.userHostPrefix, a);
    ow := WriteOption(ow, o.disableAutostart, DisableAutostart, "true", a + b);
    ow := WriteList(ow, SshOption, o.sshOptions);
    JoinConcat(FlagLines(o), ListLines(SshOption, o.sshOptions));
    ow := WriteList(ow, Header, o.header);
    JoinConcat(FlagLines(o) + ListLines(SshOption, o.sshOptions), ListLines(Header, o.header));
    ow := WriteOption(ow, o.headerCommand != "", HeaderCommand, o.headerCommand,
                      FlagLines(o) + ListLines(SshOption, o.sshOptions) + ListLines(Header, o.header));
  }

  function MiddleLines(o: Options): seq<string> { if OptionLines(o) == [] then [] else OptionsIntro() + OptionLines(o) }

  lemma HeaderTextShape(start: string, addNewline: bool, o: Options)
    ensures HeaderText(start, addNewline, o) ==
            (if addNewline then "\n" else "") + start + "\n" + Lines.Join(Intro()) + Lines.Join(MiddleLines(o)) + "#\n"
  {
    JoinConcat(Intro() + MiddleLines(o), ["#"]);
    JoinConcat(Intro(), MiddleLines(o));
    JoinOne("#");
    FourParts((if addNewline then "\n" else "") + start + "\n", Lines.Join(Intro()), Lines.Join(MiddleLines(o)), "#\n");
  }

  lemma FourParts(a: string, b: string, c: string, d: string)
    ensures a + (b + c + d) == a + b + c + d
  {
  }

  lemma MiddleText(o: Options)
    ensures Lines.Join(MiddleLines(o)) ==
            if Lines.Join(OptionLines(o)) == "" then "" else Lines.Join(OptionsIntro()) + Lines.Join(OptionLines(o))
  {
    JoinConcat(OptionsIntro(), OptionLines(o));
  }

  /** sshConfigWriteSectionHeader */
  method WriteSectionHeader(buf: string, addNewline: bool, o: Options) returns (w: string)
    ensures w == buf + HeaderText(START, addNewline, o)
  {
    var nl := "\n";
    if !addNewline {
      nl := "";
    }
    w := nl + START + "\n" + Lines.Join(Intro());
    var ow := WriteOptions(o);
    MiddleText(o);
    assert w + "" == w;
    if |ow| > 0 {
      w := w + (Lines.Join(OptionsIntro()) + ow);
    }
    w := buf + (w + "#\n");
    HeaderTextShape(START, addNewline, o);
  }

  /** The host blocks, appended to what is written so far. */
  method WriteHosts(buf: string, hosts: seq<Host>) returns (w: string)
    ensures w == buf + Lines.Join(HostLines(hosts))
  {
    w := buf;
    assert buf + "" == buf;
    for i := 0 to |hosts|
      invariant w == buf + Lines.Join(HostLines(hosts[..i]))
    {
      var block := [HOST + hosts[i].name];
      for j := 0 to |hosts[i].options|
        invariant block == [HOST + hosts[i].name] + Indented(hosts[i].options[..j])
      {
        block := block + [INDENT + hosts[i].options[j]];
        assert hosts[i].options[..j + 1][..j] == hosts[i].options[..j];
      }
      assert hosts[i].options[..|hosts[i].options|] == hosts[i].options;
      assert hosts[..i + 1][..i] == hosts[..i];
      w := w + Lines.Join(block);
      JoinConcat(HostLines(hosts[..i]), block);
      Lines.Associate(buf, Lines.Join(HostLines(hosts[..i])), Lines.Join(block));
    }
    assert hosts[..|hosts|] == hosts;
  }

  lemma AssembledIsRewritten(before: string, o: Options, hosts: seq<Host>, after: string)
    ensures before + HeaderText(START, before != "", o) + Lines.Join(HostLines(hosts)) + (END + "\n") + after ==
            Rewritten(before, Body(o, hosts), after, START, END)
  {
    JoinConcat(HeaderLines(o), HostLines(hosts));
    var nl := if before == "" then "" else "\n";
    Regroup(before, nl, START, Lines.Join(HeaderLines(o)), Lines.Join(HostLines(hosts)), END, after);
  }

  lemma Regroup(before: string, nl: string, start: string, header: string, hosts: string, end: string, after: string)
    ensures before + (nl + start + "\n" + header) + hosts + (end + "\n") + after ==
            before + nl + start + "\n" + (header + hosts) + end + "\n" + after
  {
  }

  /** The handler: the user's text before the section, the new section, the user's text after it. */
  method ConfigSsh(data: string, o: Options, hosts: seq<Host>) returns (r: Result<string, SplitError>)
    ensures r == Rewrite(data, Body(o, hosts), START, END)
  {
    var parts := Sections.Split(data, START, END);
    if parts.Err? {
      return Err(parts.error);
    }
    var before, after := parts.value.before, parts.value.after;
    var buf := WriteSectionHeader(before, |before| > 0, o);
    buf := WriteHosts(buf, hosts);
    buf := buf + (END + "\n");
    buf := buf + after;
    AssembledIsRewritten(before, o, hosts, after);
    r := Ok(buf);
  }

  // ----- Assembling again

  ghost predicate Free(o: Options, hosts: seq<Host>) {
    ValuesFree(o, START) && ValuesFree(o, END) && HostsFree(hosts, START) && HostsFree(hosts, END)
  }

  lemma BodyIsFreeIff(o: Options, hosts: seq<Host>)
    ensures Pair(START, END) && EndsLine(Body(o, hosts))
    ensures NoMarkers(Body(o, hosts), START, END) <==> Free(o, hosts)
  {
    TokensAreMarkers();
    TokensArePair();
    JoinEndsLine(BodyLines(o, hosts));
    BodyAbsentIff(o, hosts, START);
    BodyAbsentIff(o, hosts, END);
  }

  /** Splitting what was assembled and assembling it again changes no byte, unless a value holds a marker: then the
      file is refused. */
  lemma SecondAssembly(data: string, o: Options, hosts: seq<Host>)
    requires Sections.Split(data, START, END).Ok?
    ensures var y := Rewrite(data, Body(o, hosts), START, END).value;
            Rewrite(y, Body(o, hosts), START, END) == if Free(o, hosts) then Ok(y) else Err(MultipleSections)
  {
    BodyIsFreeIff(o, hosts);
    RerunIff(data, Body(o, hosts), START, END);
  }

  /** A header that is the start marker: what was assembled is refused. */
  lemma MarkerInHeaderExample(data: string)
    requires Sections.Split(data, START, END).Ok?
    ensures var body := Body(DEFAULTS.(header := [START]), []);
            var y := Rewrite(data, body, START, END).value;
            Rewrite(y, body, START, END) == Err(MultipleSections)
  {
    var o := DEFAULTS.(header := [START]);
    assert OccursAt(o.header[0], START, 0);
    SecondAssembly(data, o, []);
  }

  /** Whatever was assembled first, other options and hosts are put into the same text around the section. */
  lemma AnyTwoAssemblies(data: string, o: Options, hosts: seq<Host>, o': Options, hosts': seq<Host>)
    requires Sections.Split(data, START, END).Ok? && Free(o, hosts)
    ensures var y := Rewrite(data, Body(o, hosts), START, END).value;
            Rewrite(y, Body(o', hosts'), START, END) == Rewrite(data, Body(o', hosts'), START, END)
  {
    BodyIsFreeIff(o, hosts);
    RewriteIsFixedPoint(data, Body(o, hosts), START, END);
  }
}
