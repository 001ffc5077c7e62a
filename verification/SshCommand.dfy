// A run of config-ssh as a whole: what it makes of a file, and what a second run makes of that.

/** The standard options of a host, and the proxy command among them. */
module StandardOptions {
  import opened SshOptions
  import O = OptionList
  import opened HostOptions

  /** What a run takes from its surroundings: escaped paths, the deployment's prefix, and two library functions. */
  datatype Env = Env(
    binary: string,
    globalConfig: string,
    hostnamePrefix: string,
    skipProxyCommand: bool,
    quote: string -> string,
    lower: string -> string)

  function HeaderFlags(env: Env, header: seq<string>): string {
    if header == [] then ""
    else HeaderFlags(env, header[..|header| - 1]) + (" --header " + env.quote(header[|header| - 1]))
  }

  function RootFlags(env: Env, o: Options): string {
    "--global-config " + env.globalConfig + HeaderFlags(env, o.header)
    + if o.headerCommand != "" then " --header-command " + env.quote(o.headerCommand) else ""
  }

  function Flags(o: Options): string {
    (if o.waitEnum != "auto" then " --wait=" + o.waitEnum else "")
    + if o.disableAutostart then " --disable-autostart=true" else ""
  }

  function ProxyCommand(env: Env, o: Options, name: string): string {
    "ProxyCommand " + (env.binary + " " + RootFlags(env, o) + " ssh --stdio" + Flags(o) + " " + name)
  }

  function HostName(env: Env, o: Options, name: string): string {
    (if o.userHostPrefix != "" then o.userHostPrefix else env.hostnamePrefix) + name
  }

  const TIMEOUT := "ConnectTimeout" + "=0"
  const CHECKING := "StrictHostKey" + "Checking" + "=no"
  const KNOWN_HOSTS := "UserKnown" + "HostsFile" + "=/dev/null"
  const LOG_LEVEL := "LogLevel" + " ERROR"

  function Standard(env: Env, o: Options, name: string): seq<string> {
    ["HostName " + HostName(env, o, name), TIMEOUT, CHECKING, KNOWN_HOSTS, LOG_LEVEL]
    + if env.skipProxyCommand then [] else [ProxyCommand(env, o, name)]
  }

  /** The loop over the headers. */
  method WriteRootFlags(env: Env, o: Options) returns (rootFlags: string)
    ensures rootFlags == RootFlags(env, o)
  {
    var base := "--global-config " + env.globalConfig;
    var flags := "";
    for i := 0 to |o.header|
      invariant flags == HeaderFlags(env, o.header[..i])
    {
      flags := flags + (" --header " + env.quote(o.header[i]));
      assert o.header[..i + 1][..i] == o.header[..i];
    }
    assert o.header[..|o.header|] == o.header;
    rootFlags := base + flags;
    if o.headerCommand != "" {
      rootFlags := rootFlags + (" --header-command " + env.quote(o.headerCommand));
    } else {
      assert rootFlags + "" == rootFlags;
    }
  }

  /** The text contains the part. */
  ghost predicate Contains(s: string, part: string) { exists a, b :: s == a + part + b }

  lemma ContainsWithin(a: string, s: string, b: string, part: string)
    requires Contains(s, part)
    ensures Contains(a + s + b, part)
  {
    var c, d :| s == c + part + d;
    assert a + s + b == (a + c) + part + (d + b);
  }

  lemma ContainsItself(a: string, part: string, b: string)
    ensures Contains(a + part + b, part)
  {
  }

  lemma {:induction false} EveryHeaderFlag(env: Env, header: seq<string>, i: nat)
    requires i < |header|
    ensures Contains(HeaderFlags(env, header), " --header " + env.quote(header[i]))
    decreases |header|
  {
    var n := |header| - 1;
    var init, last := HeaderFlags(env, header[..n]), " --header " + env.quote(header[n]);
    if i < n {
      EveryHeaderFlag(env, header[..n], i);
      ContainsWithin("", init, last, " --header " + env.quote(header[i]));
      assert "" + init + last == init + last;
    } else {
      ContainsItself(init, last, "");
      assert init + last + "" == init + last;
    }
  }

  function CommandFlag(env: Env, o: Options): string {
    if o.headerCommand != "" then " --header-command " + env.quote(o.headerCommand) else ""
  }

  lemma ProxyParts(env: Env, o: Options, name: string)
    ensures ProxyCommand(env, o, name) ==
            ("ProxyCommand " + (env.binary + " --global-config " + env.globalConfig)) + HeaderFlags(env, o.header)
            + (CommandFlag(env, o) + (" ssh --stdio" + (Flags(o) + (" " + name))))
  {
    var command := CommandFlag(env, o);
    assert RootFlags(env, o) == "--global-config " + env.globalConfig + HeaderFlags(env, o.header) + command;
    Regroup("ProxyCommand ", env.binary, " ", "--global-config ", env.globalConfig, HeaderFlags(env, o.header), command,
            " ssh --stdio", Flags(o), " " + name);
    assert " " + "--global-config " == " --global-config ";
    assert env.binary + " " + RootFlags(env, o) + " ssh --stdio" + Flags(o) + " " + name ==
           env.binary + " " + RootFlags(env, o) + " ssh --stdio" + Flags(o) + (" " + name);
  }

  lemma Regroup(p: string, binary: string, sp: string, g: string, config: string, headers: string, command: string,
                ssh: string, flags: string, name: string)
    ensures p + (binary + sp + (g + config + headers + command) + ssh + flags + name) ==
            (p + (binary + (sp + g) + config)) + headers + (command + (ssh + (flags + name)))
  {
  }

  lemma HeadersCarried(env: Env, header: seq<string>, a: string, b: string)
    ensures forall i :: 0 <= i < |header| ==>
            Contains(a + HeaderFlags(env, header) + b, " --header " + env.quote(header[i]))
  {
    forall i | 0 <= i < |header|
      ensures Contains(a + HeaderFlags(env, header) + b, " --header " + env.quote(header[i]))
    {
      EveryHeaderFlag(env, header, i);
      ContainsWithin(a, HeaderFlags(env, header), b, " --header " + env.quote(header[i]));
    }
  }

  lemma PartsCarried(a: string, headers: string, command: string, ssh: string, flags: string, name: string)
    ensures Contains(a + headers + (command + (ssh + (flags + name))), command)
    ensures Contains(a + headers + (command + (ssh + (flags + name))), flags)
  {
    var s := a + headers + (command + (ssh + (flags + name)));
    assert s == (a + headers) + command + (ssh + (flags + name));
    assert s == (a + headers + command + ssh) + flags + name;
  }

  /** The proxy command carries every header, the header command, and the two flags, each if it is set. */
  lemma ProxyCarries(env: Env, o: Options, name: string)
    ensures forall i :: 0 <= i < |o.header| ==>
              Contains(ProxyCommand(env, o, name), " --header " + env.quote(o.header[i]))
    ensures Contains(ProxyCommand(env, o, name), CommandFlag(env, o))
    ensures Contains(ProxyCommand(env, o, name),
                     (if o.waitEnum != "auto" then " --wait=" + o.waitEnum else "")
                     + if o.disableAutostart then " --disable-autostart=true" else "")
  {
    var a := "ProxyCommand " + (env.binary + " --global-config " + env.globalConfig);
    ProxyParts(env, o, name);
    HeadersCarried(env, o.header, a, CommandFlag(env, o) + (" ssh --stdio" + (Flags(o) + (" " + name))));
    PartsCarried(a, HeaderFlags(env, o.header), CommandFlag(env, o), " ssh --stdio", Flags(o), " " + name);
  }

  lemma HasSeparator(x: string, i: nat)
    requires i < |x| && O.Separator(x[i])
    ensures O.Parse(x).Ok? && (i + 1 < |x| ==> !O.Removes(x))
  {
  }

  predicate Tame(v: string) { '#' !in v && '\n' !in v && '\r' !in v }

  lemma TameConcat(a: string, b: string)
    requires Tame(a) && Tame(b)
    ensures Tame(a + b)
  {
  }

  lemma FixedOption(key: string, rest: string)
    requires Tame(key) && Tame(rest) && |rest| > 1 && O.Separator(rest[0])
    ensures var x := key + rest; Tame(x) && O.Parse(x).Ok? && !O.Removes(x)
  {
    TameConcat(key, rest);
    HasSeparator(key + rest, |key|);
  }

  lemma TimeoutIsFixed()
    ensures Tame(TIMEOUT) && O.Parse(TIMEOUT).Ok? && !O.Removes(TIMEOUT)
  {
    FixedOption("ConnectTimeout", "=0");
  }

  lemma CheckingIsFixed()
    ensures Tame(CHECKING) && O.Parse(CHECKING).Ok? && !O.Removes(CHECKING)
  {
    TameConcat("StrictHostKey", "Checking");
    FixedOption("StrictHostKey" + "Checking", "=no");
  }

  lemma KnownHostsIsFixed()
    ensures Tame(KNOWN_HOSTS) && O.Parse(KNOWN_HOSTS).Ok? && !O.Removes(KNOWN_HOSTS)
  {
    TameConcat("UserKnown", "HostsFile");
    FixedOption("UserKnown" + "HostsFile", "=/dev/null");
  }

  lemma LogLevelIsFixed()
    ensures Tame(LOG_LEVEL) && O.Parse(LOG_LEVEL).Ok? && !O.Removes(LOG_LEVEL)
  {
    FixedOption("LogLevel", " ERROR");
  }

  /** The standard options all parse. */
  lemma StandardIsValid(env: Env, o: Options, name: string)
    ensures AllValid(Standard(env, o, name))
  {
    TimeoutIsFixed();
    CheckingIsFixed();
    KnownHostsIsFixed();
    LogLevelIsFixed();
    HasSeparator("HostName " + HostName(env, o, name), 8);
    HasSeparator(ProxyCommand(env, o, name), 12);
  }
}

/** The handler: reading the previous section, choosing the options, and writing. */
module SshCommand {
  import opened Wrappers
  import opened Occurrences
  import opened Sections
  import Lines
  import opened SshOptions
  import opened SortedEqual
  import opened SshBody
  import opened SshConfig
  import opened SshReadBack
  import O = OptionList
  import opened HostOptions
  import opened HostBlocks
  import opened StandardOptions

  /** The flags of a run, its surroundings, the workspace hosts in order, and the deployment's ssh options. */
  datatype Setup = Setup(options: Options, env: Env, names: seq<string>, deployment: seq<string>)

  /** What the user answers when asked whether to use new options. */
  datatype Answer = UseNew | UsePrevious | Cancelled

  datatype RunError = WaitWithoutProxy | BadFile(split: SplitError) | Panicked(panic: Panic) | BadOption

  function SpecOf(env: Env, o: Options, name: string): Spec { Spec(HostName(env, o, name), Standard(env, o, name)) }

  function Specs(env: Env, o: Options, names: seq<string>): (specs: seq<Spec>)
    ensures |specs| == |names|
  {
    if names == [] then [] else Specs(env, o, names[..|names| - 1]) + [SpecOf(env, o, names[|names| - 1])]
  }

  ghost function HostsFor(s: Setup, orders: seq<seq<string>>): seq<Host>
    requires |orders| == |s.names|
  {
    Hosts(Specs(s.env, s.options, s.names), s.options.sshOptions, orders, s.env.lower)
  }

  // ----- One run

  /** The options stored in the file, if it has a section. */
  function Previous(data: string): Result<Option<Options>, RunError> {
    match Sections.Split(data, START, END)
    case Err(e) => Err(BadFile(e))
    case Ok(p) =>
      if p.section == "" then Ok(None)
      else match ParseLines(DEFAULTS, Lines.Split(p.section)) case Err(x) => Err(Panicked(x)) case Ok(l) => Ok(Some(l))
  }

  datatype Choice = Use(options: Options) | Stop | Refuse

  /** Which options to write: the user is asked only when the stored ones differ. */
  function Choose(o: Options, last: Option<Options>, usePrevious: bool, answer: Answer): Choice {
    if last.None? then Use(o)
    else if usePrevious then Use(last.value)
    else if Equal(o, last.value) then Use(o)
    else if O.Valid(o.sshOptions) < |o.sshOptions| then Refuse
    else match answer case UseNew => Use(o) case UsePrevious => Use(last.value) case Cancelled => Stop
  }

  ghost predicate HostsParse(s: Setup, orders: seq<seq<string>>)
    requires |orders| == |s.names|
  {
    forall i :: 0 <= i < |s.names| ==>
      ValidHost(Specs(s.env, s.options, s.names)[i], s.options.sshOptions, orders[i])
  }

  /** The file with its section replaced. */
  ghost function Written(data: string, s: Setup, orders: seq<seq<string>>): string
    requires Sections.Split(data, START, END).Ok? && |orders| == |s.names|
  {
    Rewrite(data, Body(s.options, HostsFor(s, orders)), START, END).value
  }

  /** What a run makes of a file. */
  ghost function Run(data: string, s: Setup, orders: seq<seq<string>>, usePrevious: bool, answer: Answer)
    : Result<string, RunError>
    requires |orders| == |s.names|
  {
    if s.options.waitEnum != "auto" && s.env.skipProxyCommand then Err(WaitWithoutProxy)
    else
      match Previous(data)
      case Err(e) => Err(e)
      case Ok(last) =>
        match Choose(s.options, last, usePrevious, answer)
        case Refuse => Err(BadOption)
        case Stop => Ok(data)
        case Use(c) =>
          var chosen := s.(options := c);
          if HostsParse(chosen, orders) then Ok(Written(data, chosen, orders)) else Err(BadOption)
  }

  /** The standard options of every host. */
  method BuildSpecs(env: Env, o: Options, names: seq<string>) returns (specs: seq<Spec>)
    ensures specs == Specs(env, o, names)
  {
    specs := [];
    for i := 0 to |names|
      invariant specs == Specs(env, o, names[..i])
    {
      var rootFlags := WriteRootFlags(env, o);
      var standard := ["HostName " + HostName(env, o, names[i]), TIMEOUT, CHECKING, KNOWN_HOSTS, LOG_LEVEL];
      var proxy := if env.skipProxyCommand then []
                   else ["ProxyCommand " + (env.binary + " " + rootFlags + " ssh --stdio" + Flags(o) + " " + names[i])];
      specs := specs + [Spec(HostName(env, o, names[i]), standard + proxy)];
      assert names[..i + 1][..i] == names[..i];
    }
    assert names[..|names|] == names;
  }

  /** The stored options, read as the handler does. */
  method ReadPrevious(data: string) returns (r: Result<Option<Options>, RunError>)
    ensures r == Previous(data)
  {
    var parts := Sections.Split(data, START, END);
    if parts.Err? {
      return Err(BadFile(parts.error));
    }
    if parts.value.section == "" {
      return Ok(None);
    }
    var last := ParseLastOptions(parts.value.section);
    r := if last.Err? then Err(Panicked(last.error)) else Ok(Some(last.value));
  }

  /** The part of the handler past the choice of options. */
  method WriteChosen(data: string, s: Setup, orders: seq<seq<string>>) returns (r: Result<string, RunError>)
    requires |orders| == |s.names| && Sections.Split(data, START, END).Ok?
    ensures r == if HostsParse(s, orders) then Ok(Written(data, s, orders)) else Err(BadOption)
  {
    var specs := BuildSpecs(s.env, s.options, s.names);
    var hosts := BuildHosts(specs, s.options.sshOptions, orders, s.env.lower);
    if hosts.Err? {
      return Err(BadOption);
    }
    var file := ConfigSsh(data, s.options, hosts.value);
    r := Ok(file.value);
  }

  /** The handler, from the file's contents to its new contents. */
  method Command(data: string, s: Setup, orders: seq<seq<string>>, usePrevious: bool, answer: Answer)
    returns (r: Result<string, RunError>)
    requires |orders| == |s.names|
    ensures r == Run(data, s, orders, usePrevious, answer)
  {
    if s.options.waitEnum != "auto" && s.env.skipProxyCommand {
      return Err(WaitWithoutProxy);
    }
    var last := ReadPrevious(data);
    if last.Err? {
      return Err(last.error);
    }
    var choice := Choose(s.options, last.value, usePrevious, answer);
    if choice.Refuse? {
      return Err(BadOption);
    }
    if choice.Stop? {
      return Ok(data);
    }
    r := WriteChosen(data, s.(options := choice.options), orders);
  }

  // ----- A second run

  ghost predicate IsOrders(s: Setup, orders: seq<seq<string>>) { Orders(orders, s.deployment, |s.names|) }

  /** The run gets as far as choosing options, and all options parse. */
  ghost predicate Ready(data: string, s: Setup) {
    && (s.options.waitEnum != "auto" ==> !s.env.skipProxyCommand)
    && Previous(data).Ok? && AllValid(s.options.sshOptions) && AllValid(s.deployment)
  }

  /** A file without markers has no stored options: any command whose options parse can be run on it. */
  lemma FreshFile(data: string, s: Setup)
    requires NoMarkers(data, START, END)
    requires s.options.waitEnum != "auto" ==> !s.env.skipProxyCommand
    requires AllValid(s.options.sshOptions) && AllValid(s.deployment)
    ensures Previous(data) == Ok(None) && Ready(data, s)
  {
    assert Index(data, START) == -1 && Index(data, END) == -1;
    assert Count(data, START) == 0 && Count(data, END) == 0;
  }

  lemma {:induction false} SpecAt(env: Env, o: Options, names: seq<string>, i: nat)
    requires i < |names|
    ensures Specs(env, o, names)[i] == SpecOf(env, o, names[i])
    decreases |names|
  {
    var n := |names| - 1;
    if i < n {
      SpecAt(env, o, names[..n], i);
    }
  }

  lemma AllHostsParse(s: Setup, orders: seq<seq<string>>)
    requires AllValid(s.options.sshOptions) && AllValid(s.deployment) && IsOrders(s, orders)
    ensures HostsParse(s, orders)
  {
    forall i | 0 <= i < |s.names|
      ensures ValidHost(Specs(s.env, s.options, s.names)[i], s.options.sshOptions, orders[i])
    {
      SpecAt(s.env, s.options, s.names, i);
      StandardIsValid(s.env, s.options, s.names[i]);
      OrderHasSame(orders[i], s.deployment);
    }
  }

  /** A run that keeps to its own options writes them. */
  lemma RunWrites(data: string, s: Setup, orders: seq<seq<string>>)
    requires Ready(data, s) && IsOrders(s, orders)
    ensures Sections.Split(data, START, END).Ok?
    ensures Run(data, s, orders, false, UseNew) == Ok(Written(data, s, orders))
  {
    AllHostsParse(s, orders);
    ValidIff(s.options.sshOptions);
    assert s.(options := s.options) == s;
  }

  /** The section that a run writes. */
  ghost function SectionOf(data: string, s: Setup, orders: seq<seq<string>>): string
    requires Sections.Split(data, START, END).Ok? && |orders| == |s.names|
  {
    SectionText(Sections.Split(data, START, END).value.before != "", s.options, HostsFor(s, orders))
  }

  /** Some line of the text makes the option parser panic. */
  ghost predicate Panics(text: string) {
    exists i :: 0 <= i < |Lines.Split(text)| && PanicOf(Lines.Split(text)[i]).Some?
  }

  lemma NextReads(data: string, s: Setup, orders: seq<seq<string>>)
    requires Sections.Split(data, START, END).Ok? && |orders| == |s.names| && Free(s.options, HostsFor(s, orders))
    ensures Previous(Written(data, s, orders)) ==
            match ParseLines(DEFAULTS, Lines.Split(SectionOf(data, s, orders)))
            case Err(x) => Err(Panicked(x))
            case Ok(l) => Ok(Some(l))
    ensures Previous(Written(data, s, orders)).Err? <==> Panics(SectionOf(data, s, orders))
  {
    SectionOfRun(data, s.options, HostsFor(s, orders));
    ParsePanicsIff(DEFAULTS, Lines.Split(SectionOf(data, s, orders)));
    assert SectionOf(data, s, orders) != "";
  }

  lemma MarkedIsRefused(data: string, s: Setup, orders: seq<seq<string>>)
    requires Sections.Split(data, START, END).Ok? && |orders| == |s.names| && !Free(s.options, HostsFor(s, orders))
    ensures Previous(Written(data, s, orders)) == Err(BadFile(MultipleSections))
  {
    SecondAssembly(data, s.options, HostsFor(s, orders));
  }

  /** The second run of the same command, in full: it refuses the file if a value holds a marker, panics if a line
      of the section makes the parser panic, and otherwise writes what it would have written on the original file. */
  lemma SecondRun(data: string, s: Setup, orders: seq<seq<string>>, orders': seq<seq<string>>)
    requires Ready(data, s) && IsOrders(s, orders) && IsOrders(s, orders')
    ensures Sections.Split(data, START, END).Ok? && Run(data, s, orders, false, UseNew).Ok?
    ensures var r := Run(Run(data, s, orders, false, UseNew).value, s, orders', false, UseNew);
            if !Free(s.options, HostsFor(s, orders)) then r == Err(BadFile(MultipleSections))
            else if Panics(SectionOf(data, s, orders)) then r.Err? && r.error.Panicked?
            else r == Ok(Written(data, s, orders'))
  {
    RunWrites(data, s, orders);
    if !Free(s.options, HostsFor(s, orders)) {
      MarkedIsRefused(data, s, orders);
    } else {
      NextReads(data, s, orders);
      if !Panics(SectionOf(data, s, orders)) {
        RunWrites(Written(data, s, orders), s, orders');
        AnyTwoAssemblies(data, s.options, HostsFor(s, orders), s.options, HostsFor(s, orders'));
      }
    }
  }

  // ----- Runs that leave each other's output alone

  /** The second run, in other orders, changes no byte of what the first one wrote. */
  ghost predicate NoChange(data: string, s: Setup, orders: seq<seq<string>>, orders': seq<seq<string>>)
    requires |orders| == |orders'| == |s.names| && Run(data, s, orders, false, UseNew).Ok?
  {
    Run(Run(data, s, orders, false, UseNew).value, s, orders', false, UseNew) == Run(data, s, orders, false, UseNew)
  }

  /** Between two runs nothing changes exactly when the first one's output can be split and read and the second
      one's own output is the same. */
  lemma NoChangeIff(data: string, s: Setup, orders: seq<seq<string>>, orders': seq<seq<string>>)
    requires Ready(data, s) && IsOrders(s, orders) && IsOrders(s, orders')
    ensures Sections.Split(data, START, END).Ok? && Run(data, s, orders, false, UseNew).Ok?
    ensures NoChange(data, s, orders, orders') <==>
            && Free(s.options, HostsFor(s, orders)) && !Panics(SectionOf(data, s, orders))
            && Written(data, s, orders') == Written(data, s, orders)
  {
    RunWrites(data, s, orders);
    SecondRun(data, s, orders, orders');
  }

  ghost predicate Stable(data: string, s: Setup)
    requires Ready(data, s)
  {
    forall orders, orders' | IsOrders(s, orders) && IsOrders(s, orders') ::
      Run(data, s, orders, false, UseNew).Ok? && NoChange(data, s, orders, orders')
  }

  ghost predicate OrderCannotShow(s: Setup) {
    Repeatable(s.options, Specs(s.env, s.options, s.names), s.deployment, s.env.lower)
  }

  /** No line break in any option or name that is written. */
  ghost predicate OneLineSetup(s: Setup) {
    OneLine(s.options) && OneLineInputs(s.options, Specs(s.env, s.options, s.names), s.deployment)
  }

  /** What was written can be split and read: no marker in a value, and no over-long line. */
  ghost predicate Readable(s: Setup, orders: seq<seq<string>>)
    requires |orders| == |s.names|
  {
    Free(s.options, HostsFor(s, orders)) && OptionsFit(s.options) && HostsFit(HostsFor(s, orders))
  }

  lemma PanicsIffOverLong(data: string, s: Setup, orders: seq<seq<string>>)
    requires Sections.Split(data, START, END).Ok? && OneLineSetup(s) && IsOrders(s, orders)
    ensures Panics(SectionOf(data, s, orders)) <==> !OptionsFit(s.options) || !HostsFit(HostsFor(s, orders))
  {
    HostsOneLiners(s.options, Specs(s.env, s.options, s.names), s.deployment, orders, s.env.lower);
    ReadsOrPanics(Sections.Split(data, START, END).value.before != "", s.options, HostsFor(s, orders));
    ParsePanicsIff(DEFAULTS, Lines.Split(SectionOf(data, s, orders)));
  }

  lemma RewrittenInjective(before: string, a: string, b: string, after: string, start: string, end: string)
    requires Rewritten(before, a, after, start, end) == Rewritten(before, b, after, start, end)
    ensures a == b
  {
    var u := before + (if before == "" then "" else "\n") + start + "\n";
    var w := end + "\n" + after;
    var y := u + a + w;
    assert Rewritten(before, a, after, start, end) == y && Rewritten(before, b, after, start, end) == u + b + w;
    assert |a| == |b|;
    assert y[|u|..|u| + |a|] == a && (u + b + w)[|u|..|u| + |b|] == b;
  }

  lemma SameFileSameLines(data: string, s: Setup, orders: seq<seq<string>>, orders': seq<seq<string>>)
    requires Sections.Split(data, START, END).Ok? && OneLineSetup(s) && IsOrders(s, orders) && IsOrders(s, orders')
    requires Written(data, s, orders) == Written(data, s, orders')
    ensures HostLines(HostsFor(s, orders)) == HostLines(HostsFor(s, orders'))
  {
    var p := Sections.Split(data, START, END).value;
    var specs := Specs(s.env, s.options, s.names);
    RewrittenInjective(p.before, Body(s.options, HostsFor(s, orders)), Body(s.options, HostsFor(s, orders')), p.after,
        START, END);
    HostsOneLiners(s.options, specs, s.deployment, orders, s.env.lower);
    HostsOneLiners(s.options, specs, s.deployment, orders', s.env.lower);
    BodyInjective(s.options, HostsFor(s, orders), HostsFor(s, orders'));
  }

  lemma QuietIsStable(data: string, s: Setup)
    requires Ready(data, s) && OrderCannotShow(s)
    requires Sections.Split(data, START, END).Ok?
    requires forall orders | IsOrders(s, orders) ::
               Free(s.options, HostsFor(s, orders)) && !Panics(SectionOf(data, s, orders))
    ensures Stable(data, s)
  {
    forall orders, orders' | IsOrders(s, orders) && IsOrders(s, orders')
      ensures Run(data, s, orders, false, UseNew).Ok? && NoChange(data, s, orders, orders')
    {
      QuietPair(data, s, orders, orders');
    }
  }

  lemma QuietPair(data: string, s: Setup, orders: seq<seq<string>>, orders': seq<seq<string>>)
    requires Ready(data, s) && OrderCannotShow(s) && IsOrders(s, orders) && IsOrders(s, orders')
    requires Sections.Split(data, START, END).Ok?
    requires Free(s.options, HostsFor(s, orders)) && !Panics(SectionOf(data, s, orders))
    ensures Run(data, s, orders, false, UseNew).Ok? && NoChange(data, s, orders, orders')
  {
    NoChangeIff(data, s, orders, orders');
    RepeatableAgrees(s.options, Specs(s.env, s.options, s.names), s.deployment, s.env.lower, orders, orders');
  }

  lemma StableIsReadable(data: string, s: Setup, orders: seq<seq<string>>)
    requires Ready(data, s) && Stable(data, s) && OneLineSetup(s) && IsOrders(s, orders)
    ensures Readable(s, orders)
  {
    NoChangeIff(data, s, orders, orders);
    PanicsIffOverLong(data, s, orders);
  }

  lemma StableSameFile(data: string, s: Setup, orders: seq<seq<string>>, orders': seq<seq<string>>)
    requires Ready(data, s) && Stable(data, s) && IsOrders(s, orders) && IsOrders(s, orders')
    ensures Sections.Split(data, START, END).Ok? && Written(data, s, orders) == Written(data, s, orders')
  {
    NoChangeIff(data, s, orders, orders');
  }

  lemma StableSameLines(data: string, s: Setup, orders: seq<seq<string>>, orders': seq<seq<string>>)
    requires Ready(data, s) && Stable(data, s) && OneLineSetup(s) && IsOrders(s, orders) && IsOrders(s, orders')
    ensures HostLines(HostsFor(s, orders)) == HostLines(HostsFor(s, orders'))
  {
    StableSameFile(data, s, orders, orders');
    SameFileSameLines(data, s, orders, orders');
  }

  lemma StableCannotShow(data: string, s: Setup)
    requires Ready(data, s) && Stable(data, s) && OneLineSetup(s)
    ensures OrderCannotShow(s)
  {
    if !OrderCannotShow(s) {
      var orders, orders' := SomeOrdersDiffer(s.options, Specs(s.env, s.options, s.names), s.deployment, s.env.lower);
      StableSameLines(data, s, orders, orders');
    }
  }

  /** Runs of the same command leave each other's output alone, in whatever orders the deployment's options come, if
      no value holds a marker, no line makes the parser panic and the order cannot show. For one-line options that
      is exactly when no value holds a marker, no line is over-long and the order cannot show. */
  lemma RerunIsStableIff(data: string, s: Setup)
    requires Ready(data, s)
    ensures Sections.Split(data, START, END).Ok?
    ensures OrderCannotShow(s)
            && (forall orders | IsOrders(s, orders) ::
                  Free(s.options, HostsFor(s, orders)) && !Panics(SectionOf(data, s, orders)))
            ==> Stable(data, s)
    ensures OneLineSetup(s) ==>
              (Stable(data, s) <==> OrderCannotShow(s) && forall orders | IsOrders(s, orders) :: Readable(s, orders))
  {
    if OrderCannotShow(s) && forall orders | IsOrders(s, orders) ::
                               Free(s.options, HostsFor(s, orders)) && !Panics(SectionOf(data, s, orders))
    {
      QuietIsStable(data, s);
    }
    if OneLineSetup(s) {
      if OrderCannotShow(s) && forall orders | IsOrders(s, orders) :: Readable(s, orders) {
        forall orders | IsOrders(s, orders)
          ensures Free(s.options, HostsFor(s, orders)) && !Panics(SectionOf(data, s, orders))
        {
          PanicsIffOverLong(data, s, orders);
        }
        QuietIsStable(data, s);
      }
      if Stable(data, s) {
        StableCannotShow(data, s);
        forall orders | IsOrders(s, orders) ensures Readable(s, orders) { StableIsReadable(data, s, orders); }
      }
    }
  }

  // ----- Reading the options back

  /** No line break in the names, standard options and deployment options; nothing is asked of the user's options. */
  ghost predicate OthersOneLine(s: Setup) {
    OneLineInputs(s.options.(sshOptions := []), Specs(s.env, s.options, s.names), s.deployment)
  }

  /** The next run reads back exactly this run's options if and only if these are storable and every line of the
      host blocks fits: the blocks repeat the ssh options, and the proxy command takes all headers on one line. */
  lemma CommandReadsBackIff(data: string, s: Setup, orders: seq<seq<string>>)
    requires Sections.Split(data, START, END).Ok? && IsOrders(s, orders) && OthersOneLine(s)
    requires Free(s.options, HostsFor(s, orders))
    ensures Previous(Written(data, s, orders)) == Ok(Some(s.options)) <==>
            Storable(s.options) && HostsFit(HostsFor(s, orders))
  {
    var lead := Sections.Split(data, START, END).value.before != "";
    NextReads(data, s, orders);
    SectionReadBackIff(lead, s.options, HostsFor(s, orders));
    if OptionsFit(s.options) {
      HostsOneLiners(s.options, Specs(s.env, s.options, s.names), s.deployment, orders, s.env.lower);
      ReadsOrPanics(lead, s.options, HostsFor(s, orders));
      ReadIsSameIff(s.options);
    }
  }

  /** If so, the next run asks nothing: whatever is answered, and with the previous options too, it writes the same. */
  lemma ReadBackAsksNothing(data: string, s: Setup, orders: seq<seq<string>>, usePrevious: bool, answer: Answer)
    requires Previous(data) == Ok(Some(s.options)) && |orders| == |s.names|
    ensures Run(data, s, orders, usePrevious, answer) == Run(data, s, orders, false, UseNew)
  {
    EqualIff(s.options, s.options);
  }

  /** Every host is written under its name, with the user's prefix or else the deployment's. */
  lemma NameIsWritten(s: Setup, orders: seq<seq<string>>, i: nat)
    requires |orders| == |s.names| && i < |s.names|
    ensures var prefix := if s.options.userHostPrefix != "" then s.options.userHostPrefix else s.env.hostnamePrefix;
            "Host " + (prefix + s.names[i]) in HostLines(HostsFor(s, orders))
  {
    SpecAt(s.env, s.options, s.names, i);
    HostIsWritten(Specs(s.env, s.options, s.names), s.options.sshOptions, orders, s.env.lower, i);
  }

  // ----- Which options are stored after a run

  /** Options that a run can write and the next run can read back. */
  ghost predicate Keepable(s: Setup, orders: seq<seq<string>>) {
    && IsOrders(s, orders) && AllValid(s.options.sshOptions) && AllValid(s.deployment)
    && OthersOneLine(s) && Storable(s.options)
    && Free(s.options, HostsFor(s, orders)) && HostsFit(HostsFor(s, orders))
  }

  lemma KeepableIsKept(data: string, s: Setup, orders: seq<seq<string>>)
    requires Sections.Split(data, START, END).Ok? && Keepable(s, orders)
    ensures HostsParse(s, orders) && Previous(Written(data, s, orders)) == Ok(Some(s.options))
  {
    AllHostsParse(s, orders);
    CommandReadsBackIff(data, s, orders);
  }

  predicate WaitConflict(s: Setup) { s.options.waitEnum != "auto" && s.env.skipProxyCommand }

  /** The run stores these options: the next run reads them back. */
  ghost predicate Stores(r: Result<string, RunError>, o: Options) { r.Ok? && Previous(r.value) == Ok(Some(o)) }

  /** The flags differ from the options stored before. With the flag for the previous options, or the answer "no",
      the stored ones are stored again; with the answer "yes", those of the flags; a cancelled question leaves the
      file alone, and flags that do not parse are refused before it is asked. */
  lemma StoredAfterRun(data: string, s: Setup, orders: seq<seq<string>>, usePrevious: bool, answer: Answer, l: Options)
    requires |orders| == |s.names| && !WaitConflict(s) && Previous(data) == Ok(Some(l)) && !Equal(s.options, l)
    ensures var r := Run(data, s, orders, usePrevious, answer);
            && (usePrevious && Keepable(s.(options := l), orders) ==> Stores(r, l))
            && (!usePrevious && !AllValid(s.options.sshOptions) ==> r == Err(BadOption))
            && (!usePrevious && AllValid(s.options.sshOptions) ==>
                  match answer
                  case UsePrevious => Keepable(s.(options := l), orders) ==> Stores(r, l)
                  case UseNew => Keepable(s, orders) ==> Stores(r, s.options)
                  case Cancelled => r == Ok(data))
  {
    ValidIff(s.options.sshOptions);
    if Keepable(s.(options := l), orders) {
      KeepableIsKept(data, s.(options := l), orders);
    }
    if Keepable(s, orders) {
      KeepableIsKept(data, s, orders);
    }
    assert s.(options := s.options) == s;
  }

  /** Without stored options, or with the same ones up to the order of their lists, nothing is asked and the flags are
      stored, unless the previous options are called for. */
  lemma FlagsAreStored(data: string, s: Setup, orders: seq<seq<string>>, usePrevious: bool, answer: Answer)
    requires !WaitConflict(s) && Keepable(s, orders) && Previous(data).Ok?
    requires var last := Previous(data).value; last.None? || (!usePrevious && Equal(s.options, last.value))
    ensures Stores(Run(data, s, orders, usePrevious, answer), s.options)
  {
    KeepableIsKept(data, s, orders);
    assert s.(options := s.options) == s;
  }

  /** Before options are chosen a run fails for wait without a proxy command, then for what is wrong with the stored
      section. */
  lemma RunFails(data: string, s: Setup, orders: seq<seq<string>>, usePrevious: bool, answer: Answer)
    requires |orders| == |s.names|
    ensures var r := Run(data, s, orders, usePrevious, answer);
            && (r == Err(WaitWithoutProxy) <==> WaitConflict(s))
            && (r.Err? && (r.error.BadFile? || r.error.Panicked?) <==> !WaitConflict(s) && Previous(data).Err?)
            && (!WaitConflict(s) && Previous(data).Err? ==> r == Err(Previous(data).error))
  {
  }

  /** After that it fails only for options that do not parse. */
  lemma RunSucceeds(data: string, s: Setup, orders: seq<seq<string>>, usePrevious: bool, answer: Answer)
    requires !WaitConflict(s) && Previous(data).Ok? && IsOrders(s, orders)
    requires AllValid(s.options.sshOptions) && AllValid(s.deployment)
    requires Previous(data).value.Some? ==> AllValid(Previous(data).value.value.sshOptions)
    ensures Run(data, s, orders, usePrevious, answer).Ok?
  {
    ValidIff(s.options.sshOptions);
    AllHostsParse(s, orders);
    assert s.(options := s.options) == s;
    if Previous(data).value.Some? {
      AllHostsParse(s.(options := Previous(data).value.value), orders);
    }
  }

  // ----- At inputs

  lemma TameIsFree(v: string)
    requires Tame(v)
    ensures Absent(v, START) && Absent(v, END)
  {
    TokensAreMarkers();
    NoHash(v, START);
    NoHash(v, END);
  }

  lemma TameDefaults(o: Options)
    requires o.(header := [], headerCommand := "") == DEFAULTS && Tame(o.headerCommand)
    requires forall i :: 0 <= i < |o.header| ==> Tame(o.header[i])
    ensures ValuesFree(o, START) && ValuesFree(o, END) && OneLine(o)
  {
    TameIsFree("auto");
    TameIsFree("");
    TameIsFree(o.headerCommand);
    forall i | 0 <= i < |o.header| ensures Absent(o.header[i], START) && Absent(o.header[i], END) {
      TameIsFree(o.header[i]);
    }
  }

  /** A value too long for the scanner is written, and the second run panics on it. */
  lemma LongValueExample(data: string, env: Env, v: string)
    requires Previous(data).Ok? && Tame(v) && |v| == 70000
    ensures var s := Setup(DEFAULTS.(headerCommand := v), env, [], []);
            var r := Run(data, s, [], false, UseNew);
            r.Ok? && Run(r.value, s, [], false, UseNew).Err? && Run(r.value, s, [], false, UseNew).error.Panicked?
  {
    var s := Setup(DEFAULTS.(headerCommand := v), env, [], []);
    TameDefaults(s.options);
    SecondRun(data, s, [], []);
    PanicsIffOverLong(data, s, []);
    assert !Fits(HeaderCommand, v);
  }

  lemma {:induction false} IndentedHas(vs: seq<string>, x: string)
    requires x in vs
    ensures INDENT + x in Indented(vs)
    decreases |vs|
  {
    var n := |vs| - 1;
    assert vs == vs[..n] + [vs[n]];
    if x in vs[..n] {
      IndentedHas(vs[..n], x);
    }
  }

  /** A host option that is kept is on a line of the host's block. */
  lemma KeptIsWritten(s: Setup, orders: seq<seq<string>>, x: string)
    requires |orders| == |s.names| && s.names != []
    requires var n := |s.names| - 1;
             x in HostOf(Specs(s.env, s.options, s.names)[n], s.options.sshOptions, orders[n], s.env.lower).options
    ensures INDENT + x in HostLines(HostsFor(s, orders))
  {
    var n, specs := |s.names| - 1, Specs(s.env, s.options, s.names);
    var h := HostOf(specs[n], s.options.sshOptions, orders[n], s.env.lower);
    LastHost(specs, s.options.sshOptions, orders, s.env.lower);
    IndentedHas(h.options, x);
    assert INDENT + x in Block(h);
  }

  /** Surroundings in which nothing but the length of a header can go wrong. */
  ghost predicate TameEnv(env: Env, h: string) {
    && Tame(env.binary) && Tame(env.globalConfig) && Tame(env.hostnamePrefix) && !env.skipProxyCommand
    && Tame(h) && Tame(env.quote(h)) && |env.quote(h)| >= |h|
  }

  function TwoHeaders(h: string): Options { DEFAULTS.(header := [h, h]) }

  lemma TwoHeaderFlags(env: Env, h: string)
    requires TameEnv(env, h)
    ensures Tame(HeaderFlags(env, [h, h])) && |HeaderFlags(env, [h, h])| >= 2 * |h|
  {
    var one := " --header " + env.quote(h);
    assert [h, h][..1] == [h] && [h][..0] == [];
    assert HeaderFlags(env, [h]) == "" + one;
    assert HeaderFlags(env, [h, h]) == HeaderFlags(env, [h]) + one;
    TameConcat(" --header ", env.quote(h));
    TameConcat(HeaderFlags(env, [h]), one);
  }

  lemma LongProxyCommand(env: Env, h: string, name: string)
    requires TameEnv(env, h) && Tame(name)
    ensures Tame(ProxyCommand(env, TwoHeaders(h), name)) && |ProxyCommand(env, TwoHeaders(h), name)| >= 2 * |h|
  {
    var o := TwoHeaders(h);
    TwoHeaderFlags(env, h);
    TameConcat("--global-config ", env.globalConfig);
    TameConcat("--global-config " + env.globalConfig, HeaderFlags(env, o.header));
    TameConcat("--global-config " + env.globalConfig + HeaderFlags(env, o.header), "");
    TameProxy(env, RootFlags(env, o), name);
    assert Flags(o) == "" + "";
    assert " ssh --stdio" + Flags(o) == " ssh --stdio";
    assert ProxyCommand(env, o, name) ==
           "ProxyCommand " + (env.binary + " " + RootFlags(env, o) + " ssh --stdio" + " " + name);
  }

  lemma TameProxy(env: Env, root: string, name: string)
    requires Tame(env.binary) && Tame(root) && Tame(name)
    ensures var x := "ProxyCommand " + (env.binary + " " + root + " ssh --stdio" + " " + name);
            Tame(x) && |x| >= |root|
  {
    TameConcat(env.binary, " ");
    TameConcat(env.binary + " ", root);
    TameConcat(env.binary + " " + root, " ssh --stdio");
    TameConcat(env.binary + " " + root + " ssh --stdio", " ");
    TameConcat(env.binary + " " + root + " ssh --stdio" + " ", name);
    TameConcat("ProxyCommand ", env.binary + " " + root + " ssh --stdio" + " " + name);
  }

  lemma TameStandard(env: Env, h: string, name: string)
    requires TameEnv(env, h) && Tame(name) && name != ""
    ensures forall x :: x in Standard(env, TwoHeaders(h), name) ==> Tame(x) && !O.Removes(x)
  {
    var o := TwoHeaders(h);
    TimeoutIsFixed();
    CheckingIsFixed();
    KnownHostsIsFixed();
    LogLevelIsFixed();
    LongProxyCommand(env, h, name);
    TameConcat("HostName ", HostName(env, o, name));
    HasSeparator("HostName " + HostName(env, o, name), 8);
    HasSeparator(ProxyCommand(env, o, name), 12);
  }

  lemma TwoHeadersAreStorable(h: string)
    requires Tame(h) && |h| == 40000
    ensures Storable(TwoHeaders(h))
  {
    assert h[|h| - 1] in h;
  }

  ghost function TwoHeaderSetup(env: Env, h: string, name: string): Setup { Setup(TwoHeaders(h), env, [name], []) }

  lemma TwoHeadersAreFree(env: Env, h: string, name: string)
    requires TameEnv(env, h) && Tame(name) && name != ""
    ensures var s := TwoHeaderSetup(env, h, name);
            Free(s.options, HostsFor(s, [[]])) && OneLineSetup(s)
  {
    var s := TwoHeaderSetup(env, h, name);
    var specs := Specs(env, s.options, s.names);
    assert specs == [SpecOf(env, s.options, name)];
    TameDefaults(s.options);
    TameStandard(env, h, name);
    TameIsFree(HostName(env, s.options, name));
    forall i | 0 <= i < |specs[0].standard|
      ensures Absent(specs[0].standard[i], START) && Absent(specs[0].standard[i], END) && '\n' !in specs[0].standard[i]
    {
      assert specs[0].standard[i] in specs[0].standard;
      TameIsFree(specs[0].standard[i]);
    }
    HostsAreFree(s.options, specs, [], [[]], env.lower, START);
    HostsAreFree(s.options, specs, [], [[]], env.lower, END);
  }

  lemma TwoHeadersDoNotFit(env: Env, h: string, name: string)
    requires TameEnv(env, h) && Tame(name) && name != "" && |h| == 40000
    ensures !HostsFit(HostsFor(TwoHeaderSetup(env, h, name), [[]]))
  {
    var s := TwoHeaderSetup(env, h, name);
    var x, standard := ProxyCommand(env, s.options, name), Standard(env, s.options, name);
    TameStandard(env, h, name);
    LongProxyCommand(env, h, name);
    HasSeparator(x, 12);
    assert standard[5] == x;
    KeptIfNoneRemoves(standard, env.lower, {}, x);
    assert [] + [] + standard == standard;
    assert Specs(env, s.options, s.names) == [SpecOf(env, s.options, name)];
    KeptIsWritten(s, [[]], x);
    var i :| 0 <= i < |HostLines(HostsFor(s, [[]]))| && HostLines(HostsFor(s, [[]]))[i] == INDENT + x;
  }

  /** Two headers that fit, each on its own line, do not fit on the line of the proxy command: they are storable,
      and the second run panics. */
  lemma LongHeadersExample(data: string, env: Env, h: string, name: string)
    requires Previous(data).Ok? && TameEnv(env, h) && Tame(name) && name != "" && |h| == 40000
    ensures Storable(TwoHeaders(h))
    ensures var s := TwoHeaderSetup(env, h, name);
            var r := Run(data, s, [[]], false, UseNew);
            r.Ok? && Run(r.value, s, [[]], false, UseNew).Err? && Run(r.value, s, [[]], false, UseNew).error.Panicked?
  {
    var s := TwoHeaderSetup(env, h, name);
    TwoHeadersAreStorable(h);
    TwoHeadersAreFree(env, h, name);
    TwoHeadersDoNotFit(env, h, name);
    SecondRun(data, s, [[]], [[]]);
    PanicsIffOverLong(data, s, [[]]);
  }
}
