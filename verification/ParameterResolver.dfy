// How the CLI settles the build parameters of a workspace: values from a file, flags, a source workspace and the last
// build are staged one after the other in one list, checked against the template, and completed by asking the user.

module ParameterResolver {
  import opened Wrappers

  datatype Action = Create | Start | Update | Restart

  datatype Param = Param(name: string, value: string)

  datatype TemplateParam =
    TemplateParam(name: string, ephemeral: bool, mutable: bool, required: bool, options: seq<string>)

  datatype Resolver = Resolver(
    lastBuild: seq<Param>,
    source: seq<Param>,
    rich: seq<Param>,
    file: map<string, string>,
    ephemeral: seq<Param>,
    promptRich: bool,
    promptEphemeral: bool)

  // ----- Searching

  function FindTemplate(name: string, template: seq<TemplateParam>): (t: Option<TemplateParam>)
    ensures t.None? <==> forall i :: 0 <= i < |template| ==> template[i].name != name
    ensures t.Some? ==> exists i :: 0 <= i < |template| && t.value == template[i] && template[i].name == name
                                    && forall j :: 0 <= j < i ==> template[j].name != name
  {
    if template == [] then None
    else if template[0].name == name then Some(template[0])
    else FindTemplate(name, template[1..])
  }

  function FindParam(name: string, params: seq<Param>): (p: Option<Param>)
    ensures p.None? <==> !Has(params, name)
    ensures p.Some? ==> exists i :: 0 <= i < |params| && p.value == params[i] && params[i].name == name
                                    && forall j :: 0 <= j < i ==> params[j].name != name
  {
    if params == [] then None
    else if params[0].name == name then Some(params[0])
    else FindParam(name, params[1..])
  }

  predicate ValidOption(value: string, options: seq<string>) { value in options }

  predicate FirstTimeUse(r: Resolver, name: string) { FindParam(name, r.lastBuild).None? }

  predicate LastBuildInvalidOption(r: Resolver, t: TemplateParam) {
    t.options != []
        && match FindParam(t.name, r.lastBuild) case Some(p) => !ValidOption(p.value, t.options) case None => false
  }

  // ----- Lists of parameters as maps

  predicate Has(params: seq<Param>, name: string) { exists i :: 0 <= i < |params| && params[i].name == name }

  ghost predicate Distinct(params: seq<Param>) {
    forall i, j :: 0 <= i < j < |params| ==> params[i].name != params[j].name
  }

  /** Later entries override earlier ones. */
  function ToMap(params: seq<Param>): map<string, string> {
    if params == [] then map[]
    else ToMap(params[..|params| - 1])[params[|params| - 1].name := params[|params| - 1].value]
  }

  lemma ToMapAppend(params: seq<Param>, p: Param)
    ensures ToMap(params + [p]) == ToMap(params)[p.name := p.value]
  {
    assert (params + [p])[..|params|] == params;
  }

  lemma {:induction false} ToMapEntries(params: seq<Param>)
    requires Distinct(params)
    ensures forall name :: name in ToMap(params) <==> Has(params, name)
    ensures forall i :: 0 <= i < |params| ==>
            params[i].name in ToMap(params) && ToMap(params)[params[i].name] == params[i].value
    decreases |params|
  {
    if params != [] {
      var rest, p := params[..|params| - 1], params[|params| - 1];
      ToMapEntries(rest);
      forall name ensures Has(params, name) <==> Has(rest, name) || name == p.name {
        if Has(rest, name) {
          var i :| 0 <= i < |rest| && rest[i].name == name;
          assert params[i].name == name;
        }
      }
    }
  }

  /** Two lists of distinct names with the same entries make the same map. */
  lemma MapFromEntries(params: seq<Param>, m: map<string, string>)
    requires Distinct(params)
    requires forall name :: name in m <==> Has(params, name)
    requires forall i :: 0 <= i < |params| ==> params[i].name in m && m[params[i].name] == params[i].value
    ensures ToMap(params) == m
  {
    ToMapEntries(params);
    forall name | name in m ensures ToMap(params)[name] == m[name] {
      var i :| 0 <= i < |params| && params[i].name == name;
    }
  }

  // ----- The stages

  /** The inner loop of every stage: overwrite the entry of that name, or append. */
  method Upsert(resolved: seq<Param>, p: Param) returns (r: seq<Param>)
    requires Distinct(resolved)
    ensures Distinct(r) && ToMap(r) == ToMap(resolved)[p.name := p.value]
  {
    ToMapEntries(resolved);
    for i := 0 to |resolved|
      invariant forall j :: 0 <= j < i ==> resolved[j].name != p.name
    {
      if resolved[i].name == p.name {
        r := resolved[i := resolved[i].(value := p.value)];
        UpsertInPlace(resolved, i, p, r);
        return;
      }
    }
    r := resolved + [p];
    ToMapAppend(resolved, p);
  }

  lemma UpsertInPlace(resolved: seq<Param>, i: nat, p: Param, r: seq<Param>)
    requires Distinct(resolved) && i < |resolved| && resolved[i].name == p.name && r == resolved[i := p]
    ensures Distinct(r) && ToMap(r) == ToMap(resolved)[p.name := p.value]
  {
    ToMapEntries(resolved);
    var m := ToMap(resolved)[p.name := p.value];
    forall name ensures Has(resolved, name) <==> Has(r, name) {
      if Has(resolved, name) {
        var j :| 0 <= j < |resolved| && resolved[j].name == name;
        assert r[j].name == name;
      }
      if Has(r, name) {
        var j :| 0 <= j < |r| && r[j].name == name;
        assert resolved[j].name == name;
      }
    }
    assert r[i].name == p.name;
    MapFromEntries(r, m);
  }

  /** All of ps, one after the other. */
  method UpsertAll(resolved: seq<Param>, ps: seq<Param>) returns (r: seq<Param>)
    requires Distinct(resolved)
    ensures Distinct(r) && ToMap(r) == ToMap(resolved) + ToMap(ps)
  {
    r := resolved;
    for i := 0 to |ps|
      invariant Distinct(r) && ToMap(r) == ToMap(resolved) + ToMap(ps[..i])
    {
      r := Upsert(r, ps[i]);
      assert ps[..i + 1] == ps[..i] + [ps[i]];
      ToMapAppend(ps[..i], ps[i]);
    }
    assert ps[..|ps|] == ps;
  }

  method ResolveWithParametersMapFile(pr: Resolver, resolved: seq<Param>) returns (r: seq<Param>)
    requires Distinct(resolved)
    ensures Distinct(r) && ToMap(r) == ToMap(resolved) + pr.file
  {
    r := resolved;
    var left := pr.file.Keys;
    while left != {}
      invariant left <= pr.file.Keys
      invariant Distinct(r) && ToMap(r) == ToMap(resolved) + (pr.file - left)
      decreases |left|
    {
      var name :| name in left;
      r := Upsert(r, Param(name, pr.file[name]));
      left := left - {name};
    }
    assert pr.file - {} == pr.file;
  }

  method ResolveWithCommandLineOrEnv(pr: Resolver, resolved: seq<Param>) returns (r: seq<Param>)
    requires Distinct(resolved)
    ensures Distinct(r) && ToMap(r) == ToMap(resolved) + ToMap(pr.rich) + ToMap(pr.ephemeral)
  {
    r := UpsertAll(resolved, pr.rich);
    r := UpsertAll(r, pr.ephemeral);
  }

  /** A source value is taken over unless its parameter is gone or ephemeral. */
  predicate AdmissibleSource(p: Param, template: seq<TemplateParam>) {
    var t := FindTemplate(p.name, template);
    t.Some? && !t.value.ephemeral
  }

  /** A last-build value is taken over if its parameter is still there, lasting, mutable, and still offers the value. */
  predicate AdmissibleLast(p: Param, template: seq<TemplateParam>) {
    var t := FindTemplate(p.name, template);
    t.Some? && !t.value.ephemeral && t.value.mutable
        && (t.value.options != [] ==> ValidOption(p.value, t.value.options))
  }

  predicate Admissible(p: Param, template: seq<TemplateParam>, last: bool) {
    if last then AdmissibleLast(p, template) else AdmissibleSource(p, template)
  }

  /** The values taken over from the source workspace or, if `last`, from the last build. */
  function Admitted(ps: seq<Param>, template: seq<TemplateParam>, last: bool): seq<Param> {
    if ps == [] then [] else
    var p, rest := ps[|ps| - 1], Admitted(ps[..|ps| - 1], template, last);
    if Admissible(p, template, last) then rest + [p] else rest
  }

  function Overlay(base: map<string, string>, ps: seq<Param>, template: seq<TemplateParam>,
                   last: bool): map<string, string> {
    base + ToMap(Admitted(ps, template, last))
  }

  lemma OverlayStep(base: map<string, string>, ps: seq<Param>, template: seq<TemplateParam>, last: bool, i: nat)
    requires i < |ps|
    ensures Overlay(base, ps[..0], template, last) == base
    ensures Overlay(base, ps[..i + 1], template, last) ==
            var m := Overlay(base, ps[..i], template, last);
            if Admissible(ps[i], template, last) then m[ps[i].name := ps[i].value] else m
  {
    assert ps[..i + 1][..i] == ps[..i];
    assert Admitted(ps[..0], template, last) == [];
    NothingAdded(base);
    var before := Admitted(ps[..i], template, last);
    ToMapAppend(before, ps[i]);
    assert base + ToMap(before)[ps[i].name := ps[i].value] == (base + ToMap(before))[ps[i].name := ps[i].value];
  }

  method ResolveWithSourceBuildParameters(pr: Resolver, resolved: seq<Param>, template: seq<TemplateParam>)
    returns (r: seq<Param>)
    requires Distinct(resolved)
    ensures Distinct(r) && ToMap(r) == Overlay(ToMap(resolved), pr.source, template, false)
  {
    r := resolved;
    assert Admitted(pr.source[..0], template, false) == [];
    for i := 0 to |pr.source|
      invariant Distinct(r) && ToMap(r) == Overlay(ToMap(resolved), pr.source[..i], template, false)
    {
      var p := pr.source[i];
      OverlayStep(ToMap(resolved), pr.source, template, false, i);
      var t := FindTemplate(p.name, template);
      if t.None? {
        continue;
      }
      if t.value.ephemeral {
        continue;
      }
      r := Upsert(r, p);
    }
    assert pr.source[..|pr.source|] == pr.source;
  }

  method ResolveWithLastBuildParameters(pr: Resolver, resolved: seq<Param>, template: seq<TemplateParam>)
    returns (r: seq<Param>)
    requires Distinct(resolved)
    ensures Distinct(r)
    ensures ToMap(r) == if pr.promptRich then ToMap(resolved)
            else Overlay(ToMap(resolved), pr.lastBuild, template, true)
  {
    r := resolved;
    if pr.promptRich {
      return;
    }
    assert Admitted(pr.lastBuild[..0], template, true) == [];
    for i := 0 to |pr.lastBuild|
      invariant Distinct(r) && ToMap(r) == Overlay(ToMap(resolved), pr.lastBuild[..i], template, true)
    {
      var p := pr.lastBuild[i];
      OverlayStep(ToMap(resolved), pr.lastBuild, template, true, i);
      var t := FindTemplate(p.name, template);
      if t.None? {
        continue;
      }
      if t.value.ephemeral {
        continue;
      }
      if !t.value.mutable {
        continue;
      }
      if |t.value.options| > 0 && !ValidOption(p.value, t.value.options) {
        continue;
      }
      r := Upsert(r, p);
    }
    assert pr.lastBuild[..|pr.lastBuild|] == pr.lastBuild;
  }

  /** The staged values, in order of precedence: each source overrides the ones before it. */
  function Staged(pr: Resolver, template: seq<TemplateParam>): map<string, string> {
    pr.file + ToMap(pr.rich) + ToMap(pr.ephemeral)
    + ToMap(Admitted(pr.source, template, false))
    + ToMap(Admitted(if pr.promptRich then [] else pr.lastBuild, template, true))
  }

  // ----- Do flags win?

  ghost predicate AdmittedFrom(ps: seq<Param>, template: seq<TemplateParam>, last: bool, name: string) {
    exists i :: 0 <= i < |ps| && ps[i].name == name && Admissible(ps[i], template, last)
  }

  lemma AdmittedFromLast(rest: seq<Param>, p: Param, template: seq<TemplateParam>, last: bool, name: string)
    ensures AdmittedFrom(rest + [p], template, last, name) <==>
            AdmittedFrom(rest, template, last, name) || (p.name == name && Admissible(p, template, last))
  {
    var ps := rest + [p];
    assert ps[|rest|] == p && forall i :: 0 <= i < |rest| ==> ps[i] == rest[i];
  }

  lemma {:induction false} AdmittedNames(ps: seq<Param>, template: seq<TemplateParam>, last: bool, name: string)
    ensures name in ToMap(Admitted(ps, template, last)) <==> AdmittedFrom(ps, template, last, name)
    decreases |ps|
  {
    if ps != [] {
      var rest, p := ps[..|ps| - 1], ps[|ps| - 1];
      AdmittedNames(rest, template, last, name);
      ToMapAppend(Admitted(rest, template, last), p);
      assert ps == rest + [p];
      AdmittedFromLast(rest, p, template, last, name);
    }
  }

  /** The value given for a parameter on the command line, ephemeral flags first. */
  function Flag(pr: Resolver): map<string, string> { ToMap(pr.rich) + ToMap(pr.ephemeral) }

  /** The source workspace or the last build has a value for the parameter that is taken over. */
  ghost predicate TakenOver(pr: Resolver, template: seq<TemplateParam>, name: string) {
    || AdmittedFrom(pr.source, template, false, name)
    || (!pr.promptRich && AdmittedFrom(pr.lastBuild, template, true, name))
  }

  /** The value that is taken over, the last build's before the source's. */
  function Carried(pr: Resolver, template: seq<TemplateParam>): map<string, string> {
    ToMap(Admitted(pr.source, template, false))
    + ToMap(Admitted(if pr.promptRich then [] else pr.lastBuild, template, true))
  }

  /** A value given on the command line is staged exactly when none is taken over for its parameter, or the same one
      is. */
  lemma FlagSurvivesIff(pr: Resolver, template: seq<TemplateParam>, name: string)
    requires name in Flag(pr)
    ensures name in Staged(pr, template)
    ensures TakenOver(pr, template, name) <==> name in Carried(pr, template)
    ensures Staged(pr, template)[name] == Flag(pr)[name] <==>
            !TakenOver(pr, template, name) || Carried(pr, template)[name] == Flag(pr)[name]
  {
    AdmittedNames(pr.source, template, false, name);
    AdmittedNames(if pr.promptRich then [] else pr.lastBuild, template, true, name);
  }

  /** A flag for a mutable parameter of the last build is overridden by the old value. */
  lemma FlagIsOverriddenExample()
    ensures var t := TemplateParam("size", false, true, false, []);
            var pr := Resolver([Param("size", "old")], [], [Param("size", "new")], map[], [], false, false);
            Flag(pr)["size"] == "new" && Staged(pr, [t])["size"] == "old"
  {
    var t := TemplateParam("size", false, true, false, []);
    var old_, new_ := Param("size", "old"), Param("size", "new");
    assert FindTemplate("size", [t]) == Some(t);
    assert [old_][..0] == [] && [new_][..0] == [];
    assert Admitted([old_], [t], true) == [old_];
    assert ToMap([old_]) == map["size" := "old"] && ToMap([new_]) == map["size" := "new"];
  }

  // ----- Constraints

  datatype Problem = NotInTemplate | EphemeralNotAllowed | Immutable

  datatype Error = Constraint(name: string, problem: Problem) | PromptFailed(message: string)

  /** What is wrong with a staged parameter, if anything. */
  function ProblemOf(pr: Resolver, name: string, action: Action, template: seq<TemplateParam>): Option<Problem> {
    match FindTemplate(name, template)
    case None => Some(NotInTemplate)
    case Some(t) =>
      if t.ephemeral && !pr.promptEphemeral && !Has(pr.ephemeral, name) then Some(EphemeralNotAllowed)
      else if !t.mutable && action != Create then Some(Immutable)
      else None
  }

  method VerifyConstraints(pr: Resolver, resolved: seq<Param>, action: Action, template: seq<TemplateParam>)
    returns (e: Option<Error>)
    ensures e.None? <==> forall i :: 0 <= i < |resolved| ==> ProblemOf(pr, resolved[i].name, action, template).None?
    ensures e.Some? ==> e.value.Constraint? && Has(resolved, e.value.name)
                        && ProblemOf(pr, e.value.name, action, template) == Some(e.value.problem)
  {
    for i := 0 to |resolved|
      invariant forall j :: 0 <= j < i ==> ProblemOf(pr, resolved[j].name, action, template).None?
    {
      var r := resolved[i];
      var t := FindTemplate(r.name, template);
      if t.None? {
        return Some(Constraint(r.name, NotInTemplate));
      }
      if t.value.ephemeral && !pr.promptEphemeral && FindParam(t.value.name, pr.ephemeral).None? {
        return Some(Constraint(r.name, EphemeralNotAllowed));
      }
      if !t.value.mutable && action != Create {
        return Some(Constraint(r.name, Immutable));
      }
    }
    e := None;
  }

  // ----- Asking the user

  /** An unresolved parameter is asked for. */
  predicate MustPrompt(pr: Resolver, action: Action, t: TemplateParam) {
    || (t.ephemeral && pr.promptEphemeral)
    || (action == Create && t.required)
    || (action == Create && !t.ephemeral)
    || (action == Update && LastBuildInvalidOption(pr, t))
    || (action == Update && t.mutable && t.required)
    || (action == Update && !t.mutable && FirstTimeUse(pr, t.name))
    || (t.mutable && !t.ephemeral && pr.promptRich)
  }

  type Answers = seq<Result<string, string>>  // by position in the template; looked at only when asked for

  /** The parameter is the user's answer for some position of the template that had to be asked for. */
  ghost predicate Answered(pr: Resolver, action: Action, template: seq<TemplateParam>, answers: Answers, p: Param)
    requires |answers| == |template|
  {
    exists i :: 0 <= i < |template| && template[i].name == p.name && MustPrompt(pr, action, template[i])
                && answers[i] == Ok(p.value)
  }

  /** `out` is `resolved` completed: nothing lost, nothing twice, everything to be asked for there, and the rest
      answers. */
  ghost predicate Completes(pr: Resolver, action: Action, template: seq<TemplateParam>, answers: Answers,
                            resolved: seq<Param>, out: seq<Param>)
    requires |answers| == |template|
  {
    && Distinct(out) && resolved <= out
    && (forall i :: 0 <= i < |template| && MustPrompt(pr, action, template[i]) ==> Has(out, template[i].name))
    && (forall k :: |resolved| <= k < |out| ==> Answered(pr, action, template, answers, out[k]))
  }

  method ResolveWithInput(pr: Resolver, resolved: seq<Param>, action: Action, template: seq<TemplateParam>,
                          answers: Answers)
    returns (r: Result<seq<Param>, Error>)
    requires Distinct(resolved) && |answers| == |template|
    ensures r.Ok? ==> Completes(pr, action, template, answers, resolved, r.value)
    ensures r.Err? ==>
              exists i :: 0 <= i < |template| && MustPrompt(pr, action, template[i]) && !Has(resolved, template[i].name)
                          && answers[i].Err? && r.error == PromptFailed(answers[i].error)
  {
    var out := resolved;
    for i := 0 to |template|
      invariant Distinct(out) && resolved <= out
      invariant forall j :: 0 <= j < i && MustPrompt(pr, action, template[j]) ==> Has(out, template[j].name)
      invariant forall k :: |resolved| <= k < |out| ==> Answered(pr, action, template, answers, out[k])
    {
      var t := template[i];
      if FindParam(t.name, out).Some? {
        continue;
      }
      if MustPrompt(pr, action, t) {
        HasPrefix(resolved, out);
        if answers[i].Err? {
          return Err(PromptFailed(answers[i].error));
        }
        var p := Param(t.name, answers[i].value);
        assert Answered(pr, action, template, answers, p);
        HasPrefix(out, out + [p]);
        assert (out + [p])[|out|].name == t.name;
        out := out + [p];
      }
    }
    r := Ok(out);
  }

  lemma HasPrefix(short: seq<Param>, long: seq<Param>)
    requires short <= long
    ensures forall name :: Has(short, name) ==> Has(long, name)
  {
  }

  // ----- All together

  /** No staged parameter breaks a constraint. */
  ghost predicate Unproblematic(pr: Resolver, action: Action, template: seq<TemplateParam>) {
    forall name :: name in Staged(pr, template) ==> ProblemOf(pr, name, action, template).None?
  }

  /** The four staging steps in the order Resolve calls them: the list is the override map, without repeats. */
  method Stage(pr: Resolver, template: seq<TemplateParam>) returns (staged: seq<Param>)
    ensures Distinct(staged) && ToMap(staged) == Staged(pr, template)
  {
    staged := ResolveWithParametersMapFile(pr, []);
    NothingAdded(pr.file);
    staged := ResolveWithCommandLineOrEnv(pr, staged);
    staged := ResolveWithSourceBuildParameters(pr, staged, template);
    NothingAdded(ToMap(staged));
    staged := ResolveWithLastBuildParameters(pr, staged, template);
  }

  lemma NothingAdded(m: map<string, string>)
    ensures ToMap([]) + m == m && m + ToMap([]) == m
  {
  }

  ghost predicate Asked(pr: Resolver, action: Action, template: seq<TemplateParam>, name: string) {
    exists i :: 0 <= i < |template| && template[i].name == name && MustPrompt(pr, action, template[i])
  }

  /** The outcome in terms of the inputs only: a parameter is resolved exactly if it is staged or asked for, and has its
      staged value or, without one, an answer. */
  ghost predicate Resolved(pr: Resolver, action: Action, template: seq<TemplateParam>, answers: Answers,
                           out: seq<Param>)
    requires |answers| == |template|
  {
    && Distinct(out)
    && (forall name :: Has(out, name) <==> name in Staged(pr, template) || Asked(pr, action, template, name))
    && (forall k :: 0 <= k < |out| ==>
          if out[k].name in Staged(pr, template) then out[k].value == Staged(pr, template)[out[k].name]
          else Answered(pr, action, template, answers, out[k]))
  }

  ghost predicate PromptFails(pr: Resolver, action: Action, template: seq<TemplateParam>, answers: Answers,
                              message: string)
    requires |answers| == |template|
  {
    exists i :: 0 <= i < |template| && MustPrompt(pr, action, template[i])
                && template[i].name !in Staged(pr, template) && answers[i] == Err(message)
  }

  lemma CompletedIsResolved(pr: Resolver, action: Action, template: seq<TemplateParam>, answers: Answers,
                            staged: seq<Param>, out: seq<Param>)
    requires |answers| == |template| && Distinct(staged) && ToMap(staged) == Staged(pr, template)
    requires Completes(pr, action, template, answers, staged, out)
    ensures Resolved(pr, action, template, answers, out)
  {
    ToMapEntries(staged);
    HasPrefix(staged, out);
    forall k | 0 <= k < |out|
      ensures if out[k].name in Staged(pr, template) then out[k].value == Staged(pr, template)[out[k].name]
              else Answered(pr, action, template, answers, out[k])
      ensures out[k].name in Staged(pr, template) || Asked(pr, action, template, out[k].name)
    {
      if k < |staged| {
        assert out[k] == staged[k];
      } else {
        AddedIsNew(staged, out, k);
        assert Answered(pr, action, template, answers, out[k]);
      }
    }
  }

  lemma AddedIsNew(staged: seq<Param>, out: seq<Param>, k: nat)
    requires Distinct(out) && staged <= out && |staged| <= k < |out|
    ensures !Has(staged, out[k].name)
  {
    assert forall i :: 0 <= i < |staged| ==> staged[i] == out[i];
  }

  /** Stage, check, ask. */
  method Resolve(pr: Resolver, action: Action, template: seq<TemplateParam>, answers: Answers)
    returns (r: Result<seq<Param>, Error>)
    requires |answers| == |template|
    ensures r.Ok? ==> Resolved(pr, action, template, answers, r.value)
    ensures r.Err? && r.error.Constraint? <==> !Unproblematic(pr, action, template)
    ensures match r
            case Ok(_) => true
            case Err(Constraint(name, problem)) =>
              name in Staged(pr, template) && ProblemOf(pr, name, action, template) == Some(problem)
            case Err(PromptFailed(message)) => PromptFails(pr, action, template, answers, message)
  {
    var staged := Stage(pr, template);
    ToMapEntries(staged);
    var e := VerifyConstraints(pr, staged, action, template);
    if e.Some? {
      return Err(e.value);
    }
    r := ResolveWithInput(pr, staged, action, template, answers);
    if r.Ok? {
      CompletedIsResolved(pr, action, template, answers, staged, r.value);
    }
  }

  // ----- What a successful resolution holds

  /** Every resolved parameter is in the template, and creating a workspace resolves all lasting and all required
      ones. */
  lemma CreateIsComplete(pr: Resolver, action: Action, template: seq<TemplateParam>, answers: Answers, out: seq<Param>)
    requires |answers| == |template| && Unproblematic(pr, action, template)
             && Resolved(pr, action, template, answers, out)
    ensures forall k :: 0 <= k < |out| ==> FindTemplate(out[k].name, template).Some?
    ensures action == Create ==>
              forall i :: 0 <= i < |template| && (!template[i].ephemeral || template[i].required) ==>
                          Has(out, template[i].name)
  {
    forall k | 0 <= k < |out| ensures FindTemplate(out[k].name, template).Some? {
      var name := out[k].name;
      assert Has(out, name);
      assert name in Staged(pr, template) ==> ProblemOf(pr, name, action, template).None?;
    }
    if action == Create {
      forall i | 0 <= i < |template| && (!template[i].ephemeral || template[i].required)
        ensures Has(out, template[i].name)
      {
        assert MustPrompt(pr, action, template[i]);
        assert Asked(pr, action, template, template[i].name);
      }
    }
  }

  /** After creation an immutable parameter gets in only by being asked for: never from files, flags or earlier
      builds, and then only when it is new, when its old value is no longer offered, or when it is ephemeral and
      that was requested. */
  lemma ImmutableOnlyByPrompt(pr: Resolver, action: Action, template: seq<TemplateParam>, answers: Answers,
                              out: seq<Param>, i: nat)
    requires |answers| == |template| && Unproblematic(pr, action, template)
             && Resolved(pr, action, template, answers, out)
    requires action != Create
    requires forall a, b :: 0 <= a < b < |template| ==> template[a].name != template[b].name
    requires i < |template| && !template[i].mutable && Has(out, template[i].name)
    ensures template[i].name !in Staged(pr, template)
    ensures || (action == Update && (FirstTimeUse(pr, template[i].name) || LastBuildInvalidOption(pr, template[i])))
            || (template[i].ephemeral && pr.promptEphemeral)
  {
    var t := template[i];
    assert FindTemplate(t.name, template) == Some(t);
    assert ProblemOf(pr, t.name, action, template).Some?;
    assert Asked(pr, action, template, t.name);
  }

  // ----- What is asked for, in terms of the template and the last build only

  predicate New(pr: Resolver, name: string) { !Has(pr.lastBuild, name) }

  /** The last build has a value for the parameter that is no longer among its options. */
  ghost predicate NoLongerOffered(pr: Resolver, t: TemplateParam) {
    t.options != []
    && exists i :: 0 <= i < |pr.lastBuild| && pr.lastBuild[i].name == t.name
                   && pr.lastBuild[i].value !in t.options
                   && forall j :: 0 <= j < i ==> pr.lastBuild[j].name != t.name
  }

  /** An update needs a value: a required mutable parameter, a new immutable one, or one whose old value is gone. */
  ghost predicate UpdateNeeds(pr: Resolver, t: TemplateParam) {
    (t.mutable && t.required) || (!t.mutable && New(pr, t.name)) || NoLongerOffered(pr, t)
  }

  ghost predicate Needed(pr: Resolver, action: Action, t: TemplateParam) {
    || (action == Create && (t.required || !t.ephemeral))
    || (action == Update && UpdateNeeds(pr, t))
    || (pr.promptRich && t.mutable && !t.ephemeral)
    || (pr.promptEphemeral && t.ephemeral)
  }

  lemma InvalidIsNotOffered(pr: Resolver, t: TemplateParam)
    ensures LastBuildInvalidOption(pr, t) <==> NoLongerOffered(pr, t)
    ensures FirstTimeUse(pr, t.name) <==> New(pr, t.name)
  {
  }

  /** After a successful resolution every parameter is there that the action or the prompt flags need; and what is there
      without being staged is needed for one of these reasons. */
  lemma NeededIsResolved(pr: Resolver, action: Action, template: seq<TemplateParam>, answers: Answers, out: seq<Param>)
    requires |answers| == |template| && Resolved(pr, action, template, answers, out)
    ensures forall i :: 0 <= i < |template| && Needed(pr, action, template[i]) ==> Has(out, template[i].name)
    ensures forall k :: 0 <= k < |out| && out[k].name !in Staged(pr, template) ==>
              exists i :: 0 <= i < |template| && template[i].name == out[k].name && Needed(pr, action, template[i])
                          && answers[i] == Ok(out[k].value)
  {
    forall i | 0 <= i < |template| && Needed(pr, action, template[i]) ensures Has(out, template[i].name) {
      InvalidIsNotOffered(pr, template[i]);
      assert Asked(pr, action, template, template[i].name);
    }
    forall k | 0 <= k < |out| && out[k].name !in Staged(pr, template)
      ensures exists i :: 0 <= i < |template| && template[i].name == out[k].name && Needed(pr, action, template[i])
                          && answers[i] == Ok(out[k].value)
    {
      assert Answered(pr, action, template, answers, out[k]);
      var i :| 0 <= i < |template| && template[i].name == out[k].name && MustPrompt(pr, action, template[i])
               && answers[i] == Ok(out[k].value);
      InvalidIsNotOffered(pr, template[i]);
      assert Needed(pr, action, template[i]);
    }
  }

  /** A start or restart without prompt flags adds nothing to what was staged. */
  lemma StartAddsNothing(pr: Resolver, action: Action, template: seq<TemplateParam>, answers: Answers, out: seq<Param>)
    requires |answers| == |template| && Resolved(pr, action, template, answers, out)
    requires (action == Start || action == Restart) && !pr.promptRich && !pr.promptEphemeral
    ensures ToMap(out) == Staged(pr, template)
  {
    NeededIsResolved(pr, action, template, answers, out);
    ToMapEntries(out);
    forall name ensures name in ToMap(out) <==> name in Staged(pr, template) {
      if Has(out, name) {
        var k :| 0 <= k < |out| && out[k].name == name;
        assert out[k].name in Staged(pr, template);
      }
    }
    forall name | name in ToMap(out) ensures ToMap(out)[name] == Staged(pr, template)[name] {
      var k :| 0 <= k < |out| && out[k].name == name;
    }
  }

  // ----- What is staged, and what is refused, in the same terms

  ghost predicate DistinctTemplate(template: seq<TemplateParam>) {
    forall a, b :: 0 <= a < b < |template| ==> template[a].name != template[b].name
  }

  lemma TemplateOf(template: seq<TemplateParam>, i: nat)
    requires DistinctTemplate(template) && i < |template|
    ensures FindTemplate(template[i].name, template) == Some(template[i])
  {
  }

  ghost predicate InTemplate(template: seq<TemplateParam>, name: string) {
    exists i :: 0 <= i < |template| && template[i].name == name
  }

  /** Constraints are broken exactly by a staged parameter that is not in the template, is ephemeral without any
      leave, or is immutable in anything but a creation. */
  lemma RefusedIff(pr: Resolver, action: Action, template: seq<TemplateParam>)
    requires DistinctTemplate(template)
    ensures Unproblematic(pr, action, template) <==>
            && (forall name :: name in Staged(pr, template) ==> InTemplate(template, name))
            && (forall i :: 0 <= i < |template| && template[i].name in Staged(pr, template) ==>
                  && (template[i].ephemeral ==> pr.promptEphemeral || Has(pr.ephemeral, template[i].name))
                  && (action != Create ==> template[i].mutable))
  {
    forall i | 0 <= i < |template| ensures FindTemplate(template[i].name, template) == Some(template[i]) {
      TemplateOf(template, i);
    }
    forall name | name in Staged(pr, template) && !InTemplate(template, name)
      ensures ProblemOf(pr, name, action, template).Some?
    {
    }
  }

  /** A last-build value that may be carried over: its parameter is lasting and mutable, and still offers it. */
  predicate MayCarry(t: TemplateParam, value: string) {
    !t.ephemeral && t.mutable && (t.options == [] || value in t.options)
  }

  lemma AdmissibleIff(template: seq<TemplateParam>, i: nat, p: Param)
    requires DistinctTemplate(template) && i < |template| && p.name == template[i].name
    ensures Admissible(p, template, true) <==> MayCarry(template[i], p.value)
    ensures Admissible(p, template, false) <==> !template[i].ephemeral
  {
    TemplateOf(template, i);
  }

  lemma {:induction false} AdmittedValue(ps: seq<Param>, template: seq<TemplateParam>, last: bool, k: nat)
    requires k < |ps| && Admissible(ps[k], template, last)
    requires forall j :: k < j < |ps| ==> ps[j].name != ps[k].name
    ensures var m := ToMap(Admitted(ps, template, last)); ps[k].name in m && m[ps[k].name] == ps[k].value
    decreases |ps|
  {
    var rest, p := ps[..|ps| - 1], ps[|ps| - 1];
    ToMapAppend(Admitted(rest, template, last), p);
    if k < |ps| - 1 {
      AdmittedValue(rest, template, last, k);
    }
  }

  /** The last build's value of a parameter, its only one, is staged exactly if parameters are not to be asked for
      and the parameter is lasting, mutable and still offers it; it then overrides every other source. */
  lemma LastBuildIsStaged(pr: Resolver, template: seq<TemplateParam>, i: nat, k: nat)
    requires DistinctTemplate(template) && i < |template| && k < |pr.lastBuild|
             && pr.lastBuild[k].name == template[i].name
    requires forall j :: 0 <= j < |pr.lastBuild| && j != k ==> pr.lastBuild[j].name != pr.lastBuild[k].name
    ensures var p := pr.lastBuild[k];
            if !pr.promptRich && MayCarry(template[i], p.value)
            then p.name in Staged(pr, template) && Staged(pr, template)[p.name] == p.value
            else (p.name in Staged(pr, template) <==> p.name in Staged(pr.(lastBuild := []), template))
                 && (p.name in Staged(pr, template) ==>
                       Staged(pr, template)[p.name] == Staged(pr.(lastBuild := []), template)[p.name])
  {
    var p := pr.lastBuild[k];
    AdmissibleIff(template, i, p);
    AdmittedNames(pr.lastBuild, template, true, p.name);
    if MayCarry(template[i], p.value) {
      AdmittedValue(pr.lastBuild, template, true, k);
    }
  }

  /** A source value of a parameter, its only one, is staged unless the last build overrides it exactly if the
      parameter is not ephemeral, and then overrides the command line and the file. */
  lemma SourceIsStaged(pr: Resolver, template: seq<TemplateParam>, i: nat, k: nat)
    requires DistinctTemplate(template) && i < |template| && k < |pr.source| && pr.source[k].name == template[i].name
    requires forall j :: 0 <= j < |pr.source| && j != k ==> pr.source[j].name != pr.source[k].name
    requires pr.lastBuild == []
    ensures var p := pr.source[k];
            if !template[i].ephemeral then p.name in Staged(pr, template) && Staged(pr, template)[p.name] == p.value
            else (p.name in Staged(pr, template) <==> p.name in Flag(pr) || p.name in pr.file)
  {
    var p := pr.source[k];
    AdmissibleIff(template, i, p);
    AdmittedNames(pr.source, template, false, p.name);
    if !template[i].ephemeral {
      AdmittedValue(pr.source, template, false, k);
    }
  }

  /** A value from neither build: the file's unless a flag overrides it, an ephemeral flag before a rich one. */
  lemma FlagsAndFile(pr: Resolver, template: seq<TemplateParam>, name: string)
    requires pr.lastBuild == [] && pr.source == []
    ensures name in Staged(pr, template) <==> Has(pr.rich, name) || Has(pr.ephemeral, name) || name in pr.file
    ensures (name in ToMap(pr.rich) <==> Has(pr.rich, name))
            && (name in ToMap(pr.ephemeral) <==> Has(pr.ephemeral, name))
    ensures name in Staged(pr, template) ==>
              Staged(pr, template)[name] ==
              if name in ToMap(pr.ephemeral) then ToMap(pr.ephemeral)[name]
              else if name in ToMap(pr.rich) then ToMap(pr.rich)[name]
              else pr.file[name]
  {
    ToMapNames(pr.rich, name);
    ToMapNames(pr.ephemeral, name);
    assert Admitted([], template, false) == [] && Admitted([], template, true) == [];
  }

  lemma {:induction false} ToMapNames(params: seq<Param>, name: string)
    ensures name in ToMap(params) <==> Has(params, name)
    decreases |params|
  {
    if params != [] {
      var rest, p := params[..|params| - 1], params[|params| - 1];
      ToMapNames(rest, name);
      assert params == rest + [p];
      HasLast(rest, p, name);
    }
  }

  lemma HasLast(rest: seq<Param>, p: Param, name: string)
    ensures Has(rest + [p], name) <==> Has(rest, name) || p.name == name
  {
    var ps := rest + [p];
    assert ps[|rest|] == p && forall i :: 0 <= i < |rest| ==> ps[i] == rest[i];
  }
}
