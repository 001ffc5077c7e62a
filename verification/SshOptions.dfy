// The options stored in the managed section: written as comment lines, and read back on the next run.

/** Texts as lines, the way a line scanner sees them. */
module Lines {
  /** The lines of a text; a last line without a line break counts, an empty one does not. */
  function Split(s: string): (ls: seq<string>)
    decreases |s|
  {
    if s == "" then []
    else if Break(s) == |s| then [s]
    else [s[..Break(s)]] + Split(s[Break(s) + 1..])
  }

  /** Where the first line ends. */
  function Break(s: string): (k: nat)
    ensures k <= |s| && (k < |s| ==> s[k] == '\n')
    ensures forall i :: 0 <= i < k ==> s[i] != '\n'
  {
    if s == "" || s[0] == '\n' then 0 else 1 + Break(s[1..])
  }

  function Join(ls: seq<string>): string {
    if ls == [] then "" else ls[0] + "\n" + Join(ls[1..])
  }

  lemma SplitStep(s: string)
    requires s != ""
    ensures var k := Break(s);
            Split(s) == [s[..k]] + Split(if k == |s| then "" else s[k + 1..])
  {
    if Break(s) == |s| {
      assert s[..|s|] == s && Split(s) == [s];
      assert [s] + Split("") == [s];
    }
  }

  lemma SplitFirst(l: string, rest: string)
    requires '\n' !in l
    ensures Split(l + "\n" + rest) == [l] + Split(rest)
  {
    var s := l + "\n" + rest;
    assert forall i :: 0 <= i < |l| ==> s[i] == l[i];
    assert s[|l|] == '\n' && Break(s) == |l|;
    assert s[..|l|] == l && s[|l| + 1..] == rest;
  }

  lemma Associate<T>(a: seq<T>, b: seq<T>, c: seq<T>)
    ensures (a + b) + c == a + (b + c)
  {
  }

  ghost predicate OneLiners(ls: seq<string>) { forall i :: 0 <= i < |ls| ==> '\n' !in ls[i] }

  /** Joined lines come apart again. */
  lemma {:induction false} SplitJoin(ls: seq<string>, rest: string)
    requires OneLiners(ls)
    ensures Split(Join(ls) + rest) == ls + Split(rest)
    decreases |ls|
  {
    if ls == [] {
      assert Join(ls) + rest == rest;
    } else {
      var tail := Join(ls[1..]) + rest;
      SplitJoin(ls[1..], rest);
      SplitFirst(ls[0], tail);
      Associate(ls[0] + "\n", Join(ls[1..]), rest);
      Associate([ls[0]], ls[1..], Split(rest));
      assert [ls[0]] + ls[1..] == ls;
    }
  }

  lemma SplitAtBreakStep(u: string, l: string, rest: string, v: string)
    requires u == l + "\n" + rest && '\n' !in l && Split(rest + v) == Split(rest) + Split(v)
    ensures Split(u + v) == Split(u) + Split(v)
  {
    SplitFirst(l, rest);
    SplitFirst(l, rest + v);
    Associate(l + "\n", rest, v);
    Associate([l], Split(rest), Split(v));
  }

  ghost predicate Ended(u: string) { u == "" || u[|u| - 1] == '\n' }

  lemma FirstLine(u: string) returns (l: string, rest: string)
    requires Ended(u) && u != ""
    ensures u == l + "\n" + rest && '\n' !in l && Ended(rest) && |rest| < |u|
  {
    var k := Break(u);
    l, rest := u[..k], u[k + 1..];
  }

  /** A text that ends its last line is split apart from what follows. */
  lemma {:induction false} SplitAtBreak(u: string, v: string)
    requires Ended(u)
    ensures Split(u + v) == Split(u) + Split(v)
    decreases |u|
  {
    if u == "" {
      assert u + v == v;
    } else {
      var l, rest := FirstLine(u);
      SplitAtBreak(rest, v);
      SplitAtBreakStep(u, l, rest, v);
    }
  }
}

module SshOptions {
  import opened Wrappers
  import Lines

  /** The stored fields of sshConfigOptions. */
  datatype Options = Options(
    waitEnum: string,
    userHostPrefix: string,
    disableAutostart: bool,
    sshOptions: seq<string>,
    header: seq<string>,
    headerCommand: string)

  datatype Field = Wait | HostPrefix | DisableAutostart | SshOption | Header | HeaderCommand

  function Key(f: Field): string {
    match f
    case Wait => "wait"
    case HostPrefix => "ssh-host-prefix"
    case DisableAutostart => "disable-autostart"
    case SshOption => "ssh-option"
    case Header => "header"
    case HeaderCommand => "header-command"
  }

  // ----- Writing

  const PREFIX := "# :"

  function OptionLine(f: Field, value: string): string { PREFIX + Key(f) + "=" + value }

  /** The lines as they stand in a file. */
  lemma OptionTexts(v: string)
    ensures OptionLine(Wait, v) == "# :" + "wait" + "=" + v
    ensures OptionLine(HostPrefix, v) == "# :" + "ssh-host-prefix" + "=" + v
    ensures OptionLine(DisableAutostart, v) == "# :" + "disable-autostart" + "=" + v
    ensures OptionLine(SshOption, v) == "# :" + "ssh-option" + "=" + v
    ensures OptionLine(Header, v) == "# :" + "header" + "=" + v
    ensures OptionLine(HeaderCommand, v) == "# :" + "header-command" + "=" + v
  {
  }

  function ListLines(f: Field, values: seq<string>): seq<string> {
    if values == [] then [] else ListLines(f, values[..|values| - 1]) + [OptionLine(f, values[|values| - 1])]
  }

  function Maybe(written: bool, f: Field, value: string): seq<string> {
    if written then [OptionLine(f, value)] else []
  }

  /** Defaults are not written. */
  function FlagLines(o: Options): seq<string> {
    Maybe(o.waitEnum != "auto", Wait, o.waitEnum)
    + Maybe(o.userHostPrefix != "", HostPrefix, o.userHostPrefix)
    + Maybe(o.disableAutostart, DisableAutostart, "true")
  }

  function OptionLines(o: Options): seq<string> {
    FlagLines(o) + ListLines(SshOption, o.sshOptions) + ListLines(Header, o.header)
    + Maybe(o.headerCommand != "", HeaderCommand, o.headerCommand)
  }

  /** The fixed lines of the section: below the start marker, and above the options if there are any. */
  const MANAGED := "# This" + " section is managed" + " by coder. DO NOT EDIT."
  const HAND_EDIT := "# You" + " should not hand-edit" + " this section unless" + " you are removing it, all"
  const CHANGES := "# changes" + " will be lost when" + " running \"coder" + " config-ssh\"."
  const LAST_OPTIONS := "# Last" + " config-ssh options:"

  function Intro(): seq<string> { [MANAGED, "#", HAND_EDIT, CHANGES] }

  function OptionsIntro(): seq<string> { ["#", LAST_OPTIONS] }

  /** Everything sshConfigWriteSectionHeader writes below the start marker. */
  function HeaderLines(o: Options): seq<string> {
    Intro() + (if OptionLines(o) == [] then [] else OptionsIntro() + OptionLines(o)) + ["#"]
  }

  function HeaderText(start: string, addNewline: bool, o: Options): string {
    (if addNewline then "\n" else "") + start + "\n" + Lines.Join(HeaderLines(o))
  }

  lemma {:induction false} JoinConcat(a: seq<string>, b: seq<string>)
    ensures Lines.Join(a + b) == Lines.Join(a) + Lines.Join(b)
    decreases |a|
  {
    if a == [] {
      assert a + b == b;
      assert Lines.Join(a) + Lines.Join(b) == Lines.Join(b);
    } else {
      JoinConcat(a[1..], b);
      assert (a + b)[1..] == a[1..] + b;
      Lines.Associate(a[0] + "\n", Lines.Join(a[1..]), Lines.Join(b));
    }
  }

  lemma JoinOne(l: string)
    ensures Lines.Join([l]) == l + "\n"
  {
    assert Lines.Join([l][1..]) == "";
    assert l + "\n" + "" == l + "\n";
  }

  /** One line per value, appended to what is written so far. */
  method WriteList(ow: string, f: Field, values: seq<string>) returns (r: string)
    ensures r == ow + Lines.Join(ListLines(f, values))
  {
    r := ow;
    assert ow + "" == ow;
    for i := 0 to |values|
      invariant r == ow + Lines.Join(ListLines(f, values[..i]))
    {
      r := r + (OptionLine(f, values[i]) + "\n");
      assert values[..i + 1][..i] == values[..i];
      JoinConcat(ListLines(f, values[..i]), [OptionLine(f, values[i])]);
      JoinOne(OptionLine(f, values[i]));
      Lines.Associate(ow, Lines.Join(ListLines(f, values[..i])), OptionLine(f, values[i]) + "\n");
    }
    assert values[..|values|] == values;
  }

  // ----- Reading

  datatype Panic = LineTooLong | MissingValue

  const LINE_LIMIT := 65536  // bufio.MaxScanTokenSize: a line and its line break have to fit

  function DropCR(l: string): string {
    if l != "" && l[|l| - 1] == '\r' then l[..|l| - 1] else l
  }

  function FieldOf(key: string): Option<Field> {
    if key == Key(Wait) then Some(Wait)
    else if key == Key(HostPrefix) then Some(HostPrefix)
    else if key == Key(SshOption) then Some(SshOption)
    else if key == Key(DisableAutostart) then Some(DisableAutostart)
    else if key == Key(Header) then Some(Header)
    else if key == Key(HeaderCommand) then Some(HeaderCommand)
    else None
  }

  /** strconv.ParseBool, with an error read as false */
  function ParseBool(s: string): bool { s in ["1", "t", "T", "TRUE", "true", "True"] }

  function Set(o: Options, f: Field, v: string): Options {
    match f
    case Wait => o.(waitEnum := v)
    case HostPrefix => o.(userHostPrefix := v)
    case DisableAutostart => o.(disableAutostart := ParseBool(v))
    case SshOption => o.(sshOptions := o.sshOptions + [v])
    case Header => o.(header := o.header + [v])
    case HeaderCommand => o.(headerCommand := v)
  }

  /** Where the first '=' is. */
  function Equals(s: string): (k: nat)
    ensures k <= |s| && (k < |s| ==> s[k] == '=')
    ensures forall i :: 0 <= i < k ==> s[i] != '='
  {
    if s == "" || s[0] == '=' then 0 else 1 + Equals(s[1..])
  }

  /** What follows the prefix of a line. A known key without a value is an index out of range. */
  function ParseEntry(o: Options, entry: string): Result<Options, Panic> {
    var k := Equals(entry);
    match FieldOf(entry[..k])
    case None => Ok(o)
    case Some(f) => if k == |entry| then Err(MissingValue) else Ok(Set(o, f, entry[k + 1..]))
  }

  function ParseLine(o: Options, line: string): Result<Options, Panic> {
    if PREFIX <= line then ParseEntry(o, line[|PREFIX|..]) else Ok(o)
  }

  function ParseLines(o: Options, ls: seq<string>): Result<Options, Panic>
    decreases |ls|
  {
    if ls == [] then Ok(o)
    else if |ls[0]| >= LINE_LIMIT then Err(LineTooLong)
    else match ParseLine(o, DropCR(ls[0])) case Err(p) => Err(p) case Ok(o') => ParseLines(o', ls[1..])
  }

  const DEFAULTS := Options("auto", "", false, [], [], "")

  lemma ParseStep(o: Options, left: string)
    requires left != ""
    ensures var k := Lines.Break(left);
            var parsed := ParseLine(o, DropCR(left[..k]));
            ParseLines(o, Lines.Split(left)) ==
            if k >= LINE_LIMIT then Err(LineTooLong)
            else if parsed.Err? then parsed
            else ParseLines(parsed.value, Lines.Split(if k == |left| then "" else left[k + 1..]))
  {
    var k := Lines.Break(left);
    Lines.SplitStep(left);
    ParseCons(o, left[..k], Lines.Split(if k == |left| then "" else left[k + 1..]));
  }

  lemma ParseCons(o: Options, l: string, rest: seq<string>)
    ensures ParseLines(o, [l] + rest) ==
            if |l| >= LINE_LIMIT then Err(LineTooLong)
            else if ParseLine(o, DropCR(l)).Err? then ParseLine(o, DropCR(l))
            else ParseLines(ParseLine(o, DropCR(l)).value, rest)
  {
    assert ([l] + rest)[1..] == rest;
  }

  /** sshConfigParseLastOptions: it panics on the first line that is too long or that is a known key without a value. */
  method ParseLastOptions(section: string) returns (r: Result<Options, Panic>)
    ensures r == ParseLines(DEFAULTS, Lines.Split(section))
    ensures r.Err? <==> exists i :: 0 <= i < |Lines.Split(section)| && PanicOf(Lines.Split(section)[i]).Some?
    ensures r.Err? ==> FirstPanic(Lines.Split(section), r.error)
  {
    r := ScanOptions(section);
    ParsePanicsIff(DEFAULTS, Lines.Split(section));
  }

  /** Its scanner loop. */
  method ScanOptions(section: string) returns (r: Result<Options, Panic>)
    ensures r == ParseLines(DEFAULTS, Lines.Split(section))
  {
    var o := DEFAULTS;
    var left := section;
    while left != ""
      invariant ParseLines(DEFAULTS, Lines.Split(section)) == ParseLines(o, Lines.Split(left))
      decreases |left|
    {
      ParseStep(o, left);
      var k := Lines.Break(left);
      if k >= LINE_LIMIT {
        return Err(LineTooLong);
      }
      var parsed := ParseLine(o, DropCR(left[..k]));
      if parsed.Err? {
        return parsed;
      }
      o := parsed.value;
      left := if k == |left| then "" else left[k + 1..];
    }
    r := Ok(o);
  }

  // ----- When reading panics

  /** A line of the options that is nothing but a known key. */
  predicate BareKey(l: string) { PREFIX <= l && FieldOf(l[|PREFIX|..]).Some? }

  /** What is wrong with a line for the parser, whatever it has read before. */
  function PanicOf(l: string): Option<Panic> {
    if |l| >= LINE_LIMIT then Some(LineTooLong) else if BareKey(DropCR(l)) then Some(MissingValue) else None
  }

  ghost predicate FirstPanic(ls: seq<string>, p: Panic) {
    exists i :: 0 <= i < |ls| && PanicOf(ls[i]) == Some(p) && forall j :: 0 <= j < i ==> PanicOf(ls[j]).None?
  }

  lemma KnownKey(key: string)
    ensures FieldOf(key).Some? <==> exists f :: key == Key(f)
  {
    if f :| key == Key(f) {
      KeyIsKnown(f);
    }
  }

  lemma EntryPanicsIff(o: Options, entry: string)
    ensures ParseEntry(o, entry).Err? <==> FieldOf(entry).Some?
    ensures ParseEntry(o, entry).Err? ==> ParseEntry(o, entry) == Err(MissingValue)
  {
    var k := Equals(entry);
    if k == |entry| {
      assert entry[..k] == entry;
    } else {
      assert entry[k] == '=';
      KnownKey(entry);
      forall f | entry == Key(f) ensures '=' !in entry { KeyHasNoEquals(f); }
    }
  }

  /** Parsing panics exactly when some line is too long or is a bare key, and the first such line says how. */
  lemma {:induction false} ParsePanicsIff(o: Options, ls: seq<string>)
    ensures ParseLines(o, ls).Err? <==> exists i :: 0 <= i < |ls| && PanicOf(ls[i]).Some?
    ensures ParseLines(o, ls).Err? ==> FirstPanic(ls, ParseLines(o, ls).error)
    decreases |ls|
  {
    if ls != [] {
      var l := DropCR(ls[0]);
      if PREFIX <= l {
        EntryPanicsIff(o, l[|PREFIX|..]);
      }
      if PanicOf(ls[0]).None? {
        ParsePanicsIff(ParseLine(o, l).value, ls[1..]);
        PanicsLater(ls);
      }
    }
  }

  lemma PanicsLater(ls: seq<string>)
    requires ls != [] && PanicOf(ls[0]).None?
    ensures (exists i :: 0 <= i < |ls| && PanicOf(ls[i]).Some?) <==>
            exists i :: 0 <= i < |ls[1..]| && PanicOf(ls[1..][i]).Some?
    ensures forall p :: FirstPanic(ls[1..], p) ==> FirstPanic(ls, p)
  {
    var rest := ls[1..];
    assert forall i :: 0 < i < |ls| ==> ls[i] == rest[i - 1];
    forall p | FirstPanic(rest, p) ensures FirstPanic(ls, p) {
      var i :| 0 <= i < |rest| && PanicOf(rest[i]) == Some(p) && forall j :: 0 <= j < i ==> PanicOf(rest[j]).None?;
      assert PanicOf(ls[i + 1]) == Some(p);
    }
  }

  lemma BareKeyExample()
    ensures ParseLines(DEFAULTS, Lines.Split("# :wait")) == Err(MissingValue)
  {
    var l := "# :wait";
    assert Lines.Break(l) == |l| && Lines.Split(l) == [l];
    assert PREFIX <= l && l[|PREFIX|..] == Key(Wait);
    KeyIsKnown(Wait);
    EntryPanicsIff(DEFAULTS, Key(Wait));
  }

  // ----- Round trip

  /** A value that fits on a line of its own. */
  predicate Fits(f: Field, v: string) { '\n' !in v && |OptionLine(f, v)| < LINE_LIMIT }

  ghost predicate AllFit(f: Field, vs: seq<string>) { forall i :: 0 <= i < |vs| ==> Fits(f, vs[i]) }

  ghost predicate OptionsFit(o: Options) {
    && Fits(Wait, o.waitEnum) && Fits(HostPrefix, o.userHostPrefix) && Fits(HeaderCommand, o.headerCommand)
    && AllFit(SshOption, o.sshOptions) && AllFit(Header, o.header)
  }

  predicate EndsInCR(v: string) { v != "" && v[|v| - 1] == '\r' }

  ghost predicate NoneEndsInCR(vs: seq<string>) { forall i :: 0 <= i < |vs| ==> !EndsInCR(vs[i]) }

  /** What the parser is promised to give back: no line break, no trailing carriage return, no line too long. */
  ghost predicate Storable(o: Options) {
    && OptionsFit(o)
    && !EndsInCR(o.waitEnum) && !EndsInCR(o.userHostPrefix) && !EndsInCR(o.headerCommand)
    && NoneEndsInCR(o.sshOptions) && NoneEndsInCR(o.header)
  }

  function DropAll(vs: seq<string>): (r: seq<string>)
    ensures |r| == |vs| && forall i :: 0 <= i < |vs| ==> r[i] == DropCR(vs[i])
  {
    if vs == [] then [] else DropAll(vs[..|vs| - 1]) + [DropCR(vs[|vs| - 1])]
  }

  /** The options as the scanner gives them back. */
  function Read(o: Options): Options {
    Options(DropCR(o.waitEnum), DropCR(o.userHostPrefix), o.disableAutostart,
            DropAll(o.sshOptions), DropAll(o.header), DropCR(o.headerCommand))
  }

  lemma ReadIsSameIff(o: Options)
    requires OptionsFit(o)
    ensures Read(o) == o <==> Storable(o)
  {
  }

  /** A line that the parser passes over. */
  predicate Plain(l: string) { '\n' !in l && |l| < LINE_LIMIT && !(PREFIX <= DropCR(l)) }

  ghost predicate AllPlain(ls: seq<string>) { forall i :: 0 <= i < |ls| ==> Plain(ls[i]) }

  lemma KeyHasNoBreak(f: Field)
    ensures '\n' !in Key(f)
  {
  }

  lemma KeyHasNoEquals(f: Field)
    ensures '=' !in Key(f)
  {
  }

  lemma KeyIsKnown(f: Field)
    ensures FieldOf(Key(f)) == Some(f)
  {
  }

  lemma EqualsAt(key: string, v: string)
    requires '=' !in key
    ensures Equals(key + "=" + v) == |key|
  {
    var s := key + "=" + v;
    assert forall i :: 0 <= i < |key| ==> s[i] == key[i];
    assert s[|key|] == '=';
  }

  lemma EntrySets(o: Options, f: Field, v: string)
    ensures ParseEntry(o, Key(f) + "=" + v) == Ok(Set(o, f, v))
  {
    KeyIsKnown(f);
    KeyHasNoEquals(f);
    EqualsAt(Key(f), v);
    var entry := Key(f) + "=" + v;
    assert entry[..|Key(f)|] == Key(f) && entry[|Key(f)| + 1..] == v;
  }

  lemma LineFacts(prefix: string, key: string, v: string)
    ensures var line := prefix + key + "=" + v;
            DropCR(line) == prefix + key + "=" + DropCR(v) && prefix <= line && line[|prefix|..] == key + "=" + v
    ensures '\n' !in prefix && '\n' !in key && '\n' !in v ==> '\n' !in prefix + key + "=" + v
  {
  }

  /** An option line, read, sets its field. */
  lemma OptionLineSets(o: Options, f: Field, v: string)
    ensures '\n' !in v ==> '\n' !in OptionLine(f, v)
    ensures ParseLine(o, DropCR(OptionLine(f, v))) == Ok(Set(o, f, DropCR(v)))
  {
    KeyHasNoBreak(f);
    LineFacts(PREFIX, Key(f), v);
    LineFacts(PREFIX, Key(f), DropCR(v));
    EntrySets(o, f, DropCR(v));
  }

  lemma {:induction false} ParseConcat(o: Options, a: seq<string>, b: seq<string>)
    requires ParseLines(o, a).Ok?
    ensures ParseLines(o, a + b) == ParseLines(ParseLines(o, a).value, b)
    decreases |a|
  {
    if a == [] {
      assert a + b == b;
    } else {
      assert (a + b)[1..] == a[1..] + b;
      ParseConcat(ParseLine(o, DropCR(a[0])).value, a[1..], b);
    }
  }

  /** A panic comes before whatever follows. */
  lemma {:induction false} ParseStops(o: Options, a: seq<string>, b: seq<string>)
    requires ParseLines(o, a).Err?
    ensures ParseLines(o, a + b) == ParseLines(o, a)
    decreases |a|
  {
    assert (a + b)[0] == a[0] && (a + b)[1..] == a[1..] + b;
    if |a[0]| < LINE_LIMIT && ParseLine(o, DropCR(a[0])).Ok? {
      ParseStops(ParseLine(o, DropCR(a[0])).value, a[1..], b);
    }
  }

  lemma {:induction false} ParsePlain(o: Options, ls: seq<string>)
    requires AllPlain(ls)
    ensures ParseLines(o, ls) == Ok(o)
    decreases |ls|
  {
    if ls != [] {
      ParsePlain(o, ls[1..]);
    }
  }

  lemma ParseOne(o: Options, f: Field, v: string)
    requires Fits(f, v)
    ensures ParseLines(o, [OptionLine(f, v)]) == Ok(Set(o, f, DropCR(v)))
  {
    OptionLineSets(o, f, v);
    assert [OptionLine(f, v)][1..] == [];
  }

  function SetAll(o: Options, f: Field, vs: seq<string>): Options {
    if vs == [] then o else Set(SetAll(o, f, vs[..|vs| - 1]), f, vs[|vs| - 1])
  }

  lemma {:induction false} ParseList(o: Options, f: Field, vs: seq<string>)
    requires AllFit(f, vs)
    ensures ParseLines(o, ListLines(f, vs)) == Ok(SetAll(o, f, DropAll(vs)))
    decreases |vs|
  {
    if vs != [] {
      var rest, v := vs[..|vs| - 1], vs[|vs| - 1];
      ParseList(o, f, rest);
      ParseOne(SetAll(o, f, DropAll(rest)), f, v);
      ParseConcat(o, ListLines(f, rest), [OptionLine(f, v)]);
      assert DropAll(vs)[..|vs| - 1] == DropAll(rest);
    }
  }

  lemma {:induction false} SetAllLists(o: Options, vs: seq<string>)
    ensures SetAll(o, SshOption, vs) == o.(sshOptions := o.sshOptions + vs)
    ensures SetAll(o, Header, vs) == o.(header := o.header + vs)
    decreases |vs|
  {
    if vs == [] {
      assert o.sshOptions + vs == o.sshOptions && o.header + vs == o.header;
    } else {
      var rest, v := vs[..|vs| - 1], vs[|vs| - 1];
      SetAllLists(o, rest);
      assert vs == rest + [v];
      Lines.Associate(o.sshOptions, rest, [v]);
      Lines.Associate(o.header, rest, [v]);
    }
  }

  lemma ParseTwo(o: Options, o1: Options, o2: Options, a: seq<string>, b: seq<string>)
    requires ParseLines(o, a) == Ok(o1) && ParseLines(o1, b) == Ok(o2)
    ensures ParseLines(o, a + b) == Ok(o2)
  {
    ParseConcat(o, a, b);
  }

  lemma ParseMaybe(o: Options, f: Field, v: string, written: bool)
    requires Fits(f, v)
    ensures ParseLines(o, Maybe(written, f, v)) == Ok(if written then Set(o, f, DropCR(v)) else o)
  {
    if written {
      ParseOne(o, f, v);
    }
  }

  lemma TrueFits()
    ensures Fits(DisableAutostart, "true") && DropCR("true") == "true" && ParseBool("true")
  {
    assert ["1", "t", "T", "TRUE", "true", "True"][4] == "true";
  }

  lemma ParseFlags(o: Options, o1: Options, o2: Options, o3: Options)
    requires OptionsFit(o)
    requires o1 == DEFAULTS.(waitEnum := DropCR(o.waitEnum)) && o2 == o1.(userHostPrefix := DropCR(o.userHostPrefix))
             && o3 == o2.(disableAutostart := o.disableAutostart)
    ensures ParseLines(DEFAULTS, FlagLines(o)) == Ok(o3)
  {
    ParseMaybe(DEFAULTS, Wait, o.waitEnum, o.waitEnum != "auto");
    ParseMaybe(o1, HostPrefix, o.userHostPrefix, o.userHostPrefix != "");
    ParseTwo(DEFAULTS, o1, o2, Maybe(o.waitEnum != "auto", Wait, o.waitEnum),
             Maybe(o.userHostPrefix != "", HostPrefix, o.userHostPrefix));
    TrueFits();
    ParseMaybe(o2, DisableAutostart, "true", o.disableAutostart);
    ParseTwo(DEFAULTS, o2, o3,
             Maybe(o.waitEnum != "auto", Wait, o.waitEnum)
                 + Maybe(o.userHostPrefix != "", HostPrefix, o.userHostPrefix),
             Maybe(o.disableAutostart, DisableAutostart, "true"));
  }

  lemma ParseLists(o3: Options, sshOptions: seq<string>, header: seq<string>)
    requires AllFit(SshOption, sshOptions) && AllFit(Header, header) && o3.sshOptions == [] && o3.header == []
    ensures ParseLines(o3, ListLines(SshOption, sshOptions) + ListLines(Header, header)) ==
            Ok(o3.(sshOptions := DropAll(sshOptions), header := DropAll(header)))
  {
    var o4 := o3.(sshOptions := DropAll(sshOptions));
    ParseList(o3, SshOption, sshOptions);
    SetAllLists(o3, DropAll(sshOptions));
    assert [] + DropAll(sshOptions) == DropAll(sshOptions) && [] + DropAll(header) == DropAll(header);
    ParseList(o4, Header, header);
    SetAllLists(o4, DropAll(header));
    ParseTwo(o3, o4, o4.(header := DropAll(header)), ListLines(SshOption, sshOptions), ListLines(Header, header));
  }

  /** The option lines, read back, give all six fields. */
  lemma ParseOptionLines(o: Options)
    requires OptionsFit(o)
    ensures ParseLines(DEFAULTS, OptionLines(o)) == Ok(Read(o))
  {
    var o1 := DEFAULTS.(waitEnum := DropCR(o.waitEnum));
    var o2 := o1.(userHostPrefix := DropCR(o.userHostPrefix));
    var o3 := o2.(disableAutostart := o.disableAutostart);
    var o5 := o3.(sshOptions := DropAll(o.sshOptions), header := DropAll(o.header));
    var lists, last := ListLines(SshOption, o.sshOptions) + ListLines(Header, o.header),
                       Maybe(o.headerCommand != "", HeaderCommand, o.headerCommand);
    ParseFlags(o, o1, o2, o3);
    ParseLists(o3, o.sshOptions, o.header);
    ParseTwo(DEFAULTS, o3, o5, FlagLines(o), lists);
    ParseMaybe(o5, HeaderCommand, o.headerCommand, o.headerCommand != "");
    ParseTwo(DEFAULTS, o5, Read(o), FlagLines(o) + lists, last);
    Lines.Associate(FlagLines(o), ListLines(SshOption, o.sshOptions), ListLines(Header, o.header));
  }

  // ----- What cannot be read back

  ghost predicate OneLine(o: Options) {
    && '\n' !in o.waitEnum && '\n' !in o.userHostPrefix && '\n' !in o.headerCommand
    && Lines.OneLiners(o.sshOptions) && Lines.OneLiners(o.header)
  }

  lemma SetKeepsOneLine(o: Options, f: Field, v: string)
    requires OneLine(o) && '\n' !in v
    ensures OneLine(Set(o, f, v))
  {
  }

  lemma ParseLineKeepsOneLine(o: Options, l: string)
    requires OneLine(o) && '\n' !in l && ParseLine(o, l).Ok?
    ensures OneLine(ParseLine(o, l).value)
  {
    if PREFIX <= l {
      var entry := l[|PREFIX|..];
      var k := Equals(entry);
      if FieldOf(entry[..k]).Some? {
        SetKeepsOneLine(o, FieldOf(entry[..k]).value, entry[k + 1..]);
      }
    }
  }

  /** No value that comes out of the parser has a line break in it. */
  lemma {:induction false} ParsedIsOneLine(o: Options, ls: seq<string>)
    requires OneLine(o) && Lines.OneLiners(ls) && ParseLines(o, ls).Ok?
    ensures OneLine(ParseLines(o, ls).value)
    decreases |ls|
  {
    if ls != [] {
      ParseLineKeepsOneLine(o, DropCR(ls[0]));
      ParsedIsOneLine(ParseLine(o, DropCR(ls[0])).value, ls[1..]);
    }
  }

  lemma {:induction false} LongLineFails(o: Options, ls: seq<string>, i: nat)
    requires i < |ls| && |ls[i]| >= LINE_LIMIT
    ensures ParseLines(o, ls).Err?
    decreases i
  {
    if i > 0 && |ls[0]| < LINE_LIMIT && ParseLine(o, DropCR(ls[0])).Ok? {
      LongLineFails(ParseLine(o, DropCR(ls[0])).value, ls[1..], i - 1);
    }
  }

  lemma {:induction false} ListLineAt(f: Field, vs: seq<string>, i: nat)
    requires i < |vs|
    ensures |ListLines(f, vs)| == |vs| && ListLines(f, vs)[i] == OptionLine(f, vs[i])
    decreases |vs|
  {
    var n := |vs| - 1;
    var rest, last := ListLines(f, vs[..n]), OptionLine(f, vs[n]);
    if n > 0 {
      ListLineAt(f, vs[..n], if i < n then i else 0);
    }
    assert |rest| == n && (rest + [last])[n] == last;
  }

  /** Every value that is too long has a line of its own. */
  lemma UnfitIsWritten(o: Options) returns (l: string)
    requires OneLine(o) && !OptionsFit(o)
    ensures l in OptionLines(o) && |l| >= LINE_LIMIT
  {
    if !Fits(Wait, o.waitEnum) {
      l := OptionLine(Wait, o.waitEnum);
      assert l in Maybe(true, Wait, o.waitEnum);
    } else if !Fits(HostPrefix, o.userHostPrefix) {
      l := OptionLine(HostPrefix, o.userHostPrefix);
      assert l in Maybe(true, HostPrefix, o.userHostPrefix);
    } else if !Fits(HeaderCommand, o.headerCommand) {
      l := OptionLine(HeaderCommand, o.headerCommand);
      assert l in Maybe(true, HeaderCommand, o.headerCommand);
    } else if !AllFit(SshOption, o.sshOptions) {
      var i :| 0 <= i < |o.sshOptions| && !Fits(SshOption, o.sshOptions[i]);
      ListLineAt(SshOption, o.sshOptions, i);
      l := ListLines(SshOption, o.sshOptions)[i];
    } else {
      var i :| 0 <= i < |o.header| && !Fits(Header, o.header[i]);
      ListLineAt(Header, o.header, i);
      l := ListLines(Header, o.header)[i];
    }
  }

  // ----- The fixed lines

  ghost predicate Clean(s: string) { '#' !in s && '\n' !in s && '\r' !in s }

  /** A fixed line: a comment with no second '#', and neither an option nor a marker. */
  ghost predicate Comment(l: string) {
    && l != "" && l[0] == '#' && Clean(l[1..]) && |l| < 100
    && (|l| > 2 ==> l[2] != ':' && l[2] != '-')
  }

  lemma CommentGoesOn(l: string, s: string)
    requires Comment(l) && |l| > 2 && Clean(s) && |l| + |s| < 100
    ensures Comment(l + s)
  {
    assert (l + s)[1..] == l[1..] + s;
  }

  lemma ManagedIsComment()
    ensures Comment(MANAGED)
  {
    var l := "# This";
    assert l[1..] == " This";
    CommentGoesOn(l, " section is managed");
    CommentGoesOn(l + " section is managed", " by coder. DO NOT EDIT.");
  }

  lemma HandEditIsComment()
    ensures Comment(HAND_EDIT)
  {
    var l := "# You";
    assert l[1..] == " You";
    CommentGoesOn(l, " should not hand-edit");
    CommentGoesOn(l + " should not hand-edit", " this section unless");
    CommentGoesOn(l + " should not hand-edit" + " this section unless", " you are removing it, all");
  }

  lemma ChangesIsComment()
    ensures Comment(CHANGES)
  {
    var l := "# changes";
    assert l[1..] == " changes";
    CommentGoesOn(l, " will be lost when");
    CommentGoesOn(l + " will be lost when", " running \"coder");
    CommentGoesOn(l + " will be lost when" + " running \"coder", " config-ssh\".");
  }

  lemma LastOptionsIsComment()
    ensures Comment(LAST_OPTIONS) && Comment("#")
  {
  }
}
