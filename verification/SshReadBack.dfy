// Reading the stored options back from the section of a written file.

module SshReadBack {
  import opened Wrappers
  import opened Sections
  import opened Occurrences
  import Lines
  import opened SshOptions
  import opened SshBody
  import opened SshConfig

  // ----- The lines of a written section

  /** What stands above the option lines. */
  function Top(lead: bool, o: Options): seq<string> { (if lead then [""] else []) + ([START] + Above(o)) }

  function HostText(hosts: seq<Host>): string { Lines.Join(HostLines(hosts)) }

  function SectionText(lead: bool, o: Options, hosts: seq<Host>): string {
    (if lead then "\n" else "") + START + "\n" + Body(o, hosts) + END + "\n"
  }

  lemma JoinTop(lead: bool, o: Options)
    ensures Lines.Join(Top(lead, o)) == (if lead then "\n" else "") + (START + "\n" + Lines.Join(Above(o)))
  {
    JoinConcat(if lead then [""] else [], [START] + Above(o));
    JoinConcat([START], Above(o));
    JoinOne(START);
    JoinOne("");
  }

  lemma JoinBody(o: Options, hosts: seq<Host>)
    ensures Body(o, hosts) == Lines.Join(Above(o)) + Lines.Join(OptionLines(o)) + Lines.Join(["#"]) + HostText(hosts)
  {
    HeaderShape(o);
    JoinConcat(HeaderLines(o), HostLines(hosts));
    JoinConcat(Above(o) + OptionLines(o), ["#"]);
    JoinConcat(Above(o), OptionLines(o));
  }

  lemma RegroupSection(nl: string, start: string, a: string, b: string, c: string, d: string, end: string)
    ensures nl + start + "\n" + (a + b + c + d) + end + "\n" == ((nl + (start + "\n" + a)) + b + c) + (d + (end + "\n"))
  {
  }

  lemma SectionShape(lead: bool, o: Options, hosts: seq<Host>)
    ensures SectionText(lead, o, hosts) ==
            Lines.Join(Top(lead, o) + OptionLines(o) + ["#"]) + (HostText(hosts) + Lines.Join([END]))
  {
    JoinConcat(Top(lead, o) + OptionLines(o), ["#"]);
    JoinConcat(Top(lead, o), OptionLines(o));
    JoinTop(lead, o);
    JoinBody(o, hosts);
    JoinOne(END);
    var nl := if lead then "\n" else "";
    RegroupSection(nl, START, Lines.Join(Above(o)), Lines.Join(OptionLines(o)), Lines.Join(["#"]), HostText(hosts),
        END);
  }

  // ----- Lines that the parser passes over

  lemma CommentsArePlain(ls: seq<string>)
    requires Comments(ls)
    ensures AllPlain(ls)
  {
  }

  lemma TokenIsPlain(t: string)
    requires Token(t) && |t| < 100 && !EndsInCR(t)
    ensures Plain(t)
  {
    assert PREFIX[2] == ':';
  }

  lemma AllPlainConcat(a: seq<string>, b: seq<string>)
    requires AllPlain(a) && AllPlain(b)
    ensures AllPlain(a + b)
  {
  }

  lemma TopIsPlain(lead: bool, o: Options)
    ensures AllPlain(Top(lead, o))
  {
    TokensAreMarkers();
    TokenIsPlain(START);
    HeaderShape(o);
    CommentsArePlain(Above(o));
    AllPlainConcat([START], Above(o));
    AllPlainConcat(if lead then [""] else [], [START] + Above(o));
  }

  lemma FixedBottomIsPlain()
    ensures AllPlain([END]) && AllPlain(["#"])
  {
    TokensAreMarkers();
    TokenIsPlain(END);
    FixedLinesAreComments();
    CommentsArePlain(["#"]);
  }

  // ----- Reading

  lemma PlainAfter(o: Options, ls: seq<string>, b: seq<string>)
    requires AllPlain(b)
    ensures ParseLines(o, ls + b) == ParseLines(o, ls)
  {
    if ParseLines(o, ls).Ok? {
      ParseConcat(o, ls, b);
      ParsePlain(ParseLines(o, ls).value, b);
    } else {
      ParseStops(o, ls, b);
    }
  }

  /** Options that fit are read as they are stored, and the lines below go on from there. */
  lemma ParseFrom(a: seq<string>, o: Options, b: seq<string>)
    requires AllPlain(a) && OptionsFit(o)
    ensures ParseLines(DEFAULTS, a + OptionLines(o) + b) == ParseLines(Read(o), b)
  {
    ParsePlain(DEFAULTS, a);
    ParseOptionLines(o);
    ParseTwo(DEFAULTS, DEFAULTS, Read(o), a, OptionLines(o));
    ParseConcat(DEFAULTS, a + OptionLines(o), b);
  }

  lemma LongOptionFails(a: seq<string>, o: Options, b: seq<string>)
    requires OneLine(o) && !OptionsFit(o)
    ensures ParseLines(DEFAULTS, a + OptionLines(o) + b).Err?
  {
    var l := UnfitIsWritten(o);
    var i :| 0 <= i < |OptionLines(o)| && OptionLines(o)[i] == l;
    assert (a + OptionLines(o) + b)[|a| + i] == l;
    LongLineFails(DEFAULTS, a + OptionLines(o) + b, |a| + i);
  }

  lemma {:induction false} ListIsOneLiners(f: Field, vs: seq<string>)
    requires Lines.OneLiners(vs)
    ensures Lines.OneLiners(ListLines(f, vs))
    decreases |vs|
  {
    if vs != [] {
      ListIsOneLiners(f, vs[..|vs| - 1]);
      OptionLineSets(DEFAULTS, f, vs[|vs| - 1]);
    }
  }

  lemma MaybeIsOneLiners(written: bool, f: Field, v: string)
    requires '\n' !in v
    ensures Lines.OneLiners(Maybe(written, f, v))
  {
    OptionLineSets(DEFAULTS, f, v);
  }

  lemma OptionsAreOneLiners(o: Options)
    requires OneLine(o)
    ensures Lines.OneLiners(OptionLines(o))
  {
    MaybeIsOneLiners(o.waitEnum != "auto", Wait, o.waitEnum);
    MaybeIsOneLiners(o.userHostPrefix != "", HostPrefix, o.userHostPrefix);
    MaybeIsOneLiners(o.disableAutostart, DisableAutostart, "true");
    ListIsOneLiners(SshOption, o.sshOptions);
    ListIsOneLiners(Header, o.header);
    MaybeIsOneLiners(o.headerCommand != "", HeaderCommand, o.headerCommand);
  }

  lemma OneLinersConcat(a: seq<string>, b: seq<string>)
    requires Lines.OneLiners(a) && Lines.OneLiners(b)
    ensures Lines.OneLiners(a + b)
  {
  }

  lemma {:induction false} SplitIsOneLiners(s: string)
    ensures Lines.OneLiners(Lines.Split(s))
    decreases |s|
  {
    if s != "" && Lines.Break(s) < |s| {
      SplitIsOneLiners(s[Lines.Break(s) + 1..]);
    }
  }

  lemma SplitJoined(ls: seq<string>)
    requires Lines.OneLiners(ls)
    ensures Lines.Split(Lines.Join(ls)) == ls
  {
    Lines.SplitJoin(ls, "");
    assert Lines.Join(ls) + "" == Lines.Join(ls) && ls + [] == ls;
  }

  lemma Regroup4(a: seq<string>, b: seq<string>, c: seq<string>, d: seq<string>)
    ensures (a + b + c) + d == a + b + (c + d)
  {
  }

  /** The lines the scanner sees: those of the host blocks are whatever their text gives. */
  lemma SectionSplits(lead: bool, o: Options, hosts: seq<Host>)
    requires OneLine(o)
    ensures Lines.Split(SectionText(lead, o, hosts)) ==
            Top(lead, o) + OptionLines(o) + (["#"] + (Lines.Split(HostText(hosts)) + [END]))
  {
    var top, below := Top(lead, o) + OptionLines(o) + ["#"], HostText(hosts) + Lines.Join([END]);
    SectionShape(lead, o, hosts);
    TopIsPlain(lead, o);
    FixedBottomIsPlain();
    OptionsAreOneLiners(o);
    OneLinersConcat(Top(lead, o), OptionLines(o));
    OneLinersConcat(Top(lead, o) + OptionLines(o), ["#"]);
    Lines.SplitJoin(top, below);
    JoinEndsLine(HostLines(hosts));
    Lines.SplitAtBreak(HostText(hosts), Lines.Join([END]));
    SplitJoined([END]);
    Regroup4(Top(lead, o), OptionLines(o), ["#"], Lines.Split(HostText(hosts)) + [END]);
  }

  lemma ReadFitting(lead: bool, o: Options, hosts: seq<Host>)
    requires OptionsFit(o)
    ensures ParseLines(DEFAULTS, Lines.Split(SectionText(lead, o, hosts))) ==
            ParseLines(Read(o), Lines.Split(HostText(hosts)))
  {
    var hs := Lines.Split(HostText(hosts));
    SectionSplits(lead, o, hosts);
    TopIsPlain(lead, o);
    FixedBottomIsPlain();
    ParseFrom(Top(lead, o), o, ["#"] + (hs + [END]));
    ParsePlain(Read(o), ["#"]);
    ParseConcat(Read(o), ["#"], hs + [END]);
    PlainAfter(Read(o), hs, [END]);
  }

  lemma UnfitIsNotRead(lead: bool, o: Options, hosts: seq<Host>)
    requires !OptionsFit(o)
    ensures ParseLines(DEFAULTS, Lines.Split(SectionText(lead, o, hosts))) != Ok(o)
  {
    var ls := Lines.Split(SectionText(lead, o, hosts));
    if OneLine(o) {
      SectionSplits(lead, o, hosts);
      LongOptionFails(Top(lead, o), o, ["#"] + (Lines.Split(HostText(hosts)) + [END]));
    } else if ParseLines(DEFAULTS, ls).Ok? {
      SplitIsOneLiners(SectionText(lead, o, hosts));
      ParsedIsOneLine(DEFAULTS, ls);
    }
  }

  /** No line of the host blocks is too long or looks like a stored option. */
  ghost predicate HostsQuiet(hosts: seq<Host>) { AllPlain(Lines.Split(HostText(hosts))) }

  /** Whatever the hosts, options that do not fit on lines are not read back, and those that do are read before the host
      blocks. With quiet host blocks a section is read back as the options it was written from exactly when these are
      storable. */
  lemma SectionReadBackIff(lead: bool, o: Options, hosts: seq<Host>)
    ensures var r := ParseLines(DEFAULTS, Lines.Split(SectionText(lead, o, hosts)));
            && (r == Ok(o) ==> OptionsFit(o))
            && (OptionsFit(o) ==> r == ParseLines(Read(o), Lines.Split(HostText(hosts))))
            && (HostsQuiet(hosts) ==> (r == Ok(o) <==> Storable(o)))
  {
    if OptionsFit(o) {
      ReadFitting(lead, o, hosts);
      ReadIsSameIff(o);
      if HostsQuiet(hosts) {
        ParsePlain(Read(o), Lines.Split(HostText(hosts)));
      }
    } else {
      UnfitIsNotRead(lead, o, hosts);
    }
  }

  lemma SectionOfRewritten(before: string, body: string, after: string, start: string, end: string)
    ensures var y := Rewritten(before, body, after, start, end);
            y[|before|..|y| - |after|] == (if before != "" then "\n" else "") + start + "\n" + body + end + "\n"
  {
  }

  lemma SectionOfRun(data: string, o: Options, hosts: seq<Host>)
    requires Sections.Split(data, START, END).Ok? && Free(o, hosts)
    ensures var next := Sections.Split(Rewrite(data, Body(o, hosts), START, END).value, START, END);
            next.Ok? && next.value.section == SectionText(Sections.Split(data, START, END).value.before != "", o, hosts)
  {
    var p := Sections.Split(data, START, END).value;
    BodyIsFreeIff(o, hosts);
    RewriteIsFixedPoint(data, Body(o, hosts), START, END);
    SectionOfRewritten(p.before, Body(o, hosts), p.after, START, END);
  }

  /** The next run reads back from the written file exactly the options of this one only if they fit on lines; and, with
      quiet host blocks, if and only if they are storable. */
  lemma NextRunReadsOptionsIff(data: string, o: Options, hosts: seq<Host>)
    requires Sections.Split(data, START, END).Ok? && Free(o, hosts)
    ensures var next := Sections.Split(Rewrite(data, Body(o, hosts), START, END).value, START, END);
            && next.Ok?
            && var r := ParseLines(DEFAULTS, Lines.Split(next.value.section));
               && (r == Ok(o) ==> OptionsFit(o))
               && (HostsQuiet(hosts) ==> (r == Ok(o) <==> Storable(o)))
  {
    SectionOfRun(data, o, hosts);
    SectionReadBackIff(Sections.Split(data, START, END).value.before != "", o, hosts);
  }

  // ----- Quiet hosts

  /** Host lines that the scanner can take. */
  ghost predicate HostsFit(hosts: seq<Host>) {
    forall i :: 0 <= i < |HostLines(hosts)| ==> '\n' !in HostLines(hosts)[i] && |HostLines(hosts)[i]| < LINE_LIMIT
  }

  ghost predicate HostLike(l: string) { l != "" && l[0] != '#' }

  ghost predicate AllHostLike(ls: seq<string>) { forall i :: 0 <= i < |ls| ==> HostLike(ls[i]) }

  lemma {:induction false} IndentedAreHostLike(vs: seq<string>)
    ensures AllHostLike(Indented(vs))
    decreases |vs|
  {
    if vs != [] {
      IndentedAreHostLike(vs[..|vs| - 1]);
    }
  }

  lemma {:induction false} HostLinesAreHostLike(hosts: seq<Host>)
    ensures AllHostLike(HostLines(hosts))
    decreases |hosts|
  {
    if hosts != [] {
      HostLinesAreHostLike(hosts[..|hosts| - 1]);
      IndentedAreHostLike(hosts[|hosts| - 1].options);
    }
  }

  /** Hosts without line breaks and over-long lines are quiet, whatever else they hold. */
  lemma FittingHostsAreQuiet(hosts: seq<Host>)
    requires HostsFit(hosts)
    ensures HostsQuiet(hosts)
  {
    HostLinesAreHostLike(hosts);
    assert PREFIX[0] == '#';
    forall l | HostLike(l) && '\n' !in l && |l| < LINE_LIMIT ensures Plain(l) {
      assert DropCR(l) != "" ==> DropCR(l)[0] == l[0];
    }
    SplitJoined(HostLines(hosts));
  }

  /** One-line options and hosts are read back, but for trailing carriage returns, or the parser panics: it does exactly
      when some line is over-long. */
  lemma ReadsOrPanics(lead: bool, o: Options, hosts: seq<Host>)
    requires OneLine(o) && Lines.OneLiners(HostLines(hosts))
    ensures var r := ParseLines(DEFAULTS, Lines.Split(SectionText(lead, o, hosts)));
            if OptionsFit(o) && HostsFit(hosts) then r == Ok(Read(o)) else r.Err?
  {
    SplitJoined(HostLines(hosts));
    if !OptionsFit(o) {
      SectionSplits(lead, o, hosts);
      LongOptionFails(Top(lead, o), o, ["#"] + (Lines.Split(HostText(hosts)) + [END]));
    } else {
      ReadFitting(lead, o, hosts);
      if HostsFit(hosts) {
        FittingHostsAreQuiet(hosts);
        ParsePlain(Read(o), Lines.Split(HostText(hosts)));
      } else {
        var i :| 0 <= i < |HostLines(hosts)| && |HostLines(hosts)[i]| >= LINE_LIMIT;
        LongLineFails(Read(o), HostLines(hosts), i);
      }
    }
  }

  // ----- At inputs

  /** Default options but for a header command that ends in a carriage return. */
  function WithCR(): Options { DEFAULTS.(headerCommand := "x\r") }

  lemma WithCRIsFree(tok: string)
    requires Token(tok)
    ensures ValuesFree(WithCR(), tok) && HostsFree([], tok)
  {
    NoHash("auto", tok);
    NoHash("", tok);
    NoHash("x\r", tok);
  }

  lemma WithCRIsRead()
    ensures OptionsFit(WithCR()) && Read(WithCR()) == DEFAULTS.(headerCommand := "x")
  {
    assert "x\r"[..1] == "x";
  }

  lemma NoHostsNothingRead(o: Options)
    ensures ParseLines(o, Lines.Split(HostText([]))) == Ok(o)
  {
  }

  /** A value with a trailing carriage return comes back without it. */
  lemma CarriageReturnExample(data: string)
    requires Sections.Split(data, START, END).Ok?
    ensures var next := Sections.Split(Rewrite(data, Body(WithCR(), []), START, END).value, START, END);
            next.Ok? && ParseLines(DEFAULTS, Lines.Split(next.value.section)) == Ok(DEFAULTS.(headerCommand := "x"))
  {
    TokensAreMarkers();
    WithCRIsFree(START);
    WithCRIsFree(END);
    SectionOfRun(data, WithCR(), []);
    WithCRIsRead();
    ReadFitting(Sections.Split(data, START, END).value.before != "", WithCR(), []);
    NoHostsNothingRead(Read(WithCR()));
  }
}
