/**
 * `DfE::Wizard::Step`: how a step class's name becomes its formatted name,
 * route name and step name, and how a step asks its wizard's URL helpers for
 * the path of another step.
 */
module Step {
  import opened Wrappers
  import opened Inflector
  import opened CamelCase

  /** The Ruby values that flow through parameters, attributes and path arguments. */
  datatype Value = Nil | Str(s: string) | Int(i: int) | Sym(name: string) | Bool(b: bool)

  /** A Ruby hash with symbol keys. */
  type Hash = map<string, Value>

  /**
   * The application's named-route helpers (`url_helpers.public_send`): the
   * helper's name and its one argument, `nil` or a hash, give the path; `None`
   * when no helper of that name exists.
   */
  type UrlHelpers = (string, Option<Hash>) -> Option<string>

  /** Whether an object responds to a method and, if it does, what the method returns. */
  datatype Hook<T> = Undefined | Defined(result: T)

  datatype Failure =
    | NotImplementedError              // a hook the step class does not override
    | NoMethodError(name: string)      // no URL helper, or no method, of that name
    | MissingStepError(message: string)
    | Unspecified(what: string)        // an orchestrator case whose outcome is not pinned down

  /** What a step sees of its wizard. */
  datatype WizardView = WizardView(
    defaultPathArguments: Hook<Option<Hash>>,
    defaultPathPrefix: Option<string>,    // `None` is `nil`
    urlHelpers: UrlHelpers)

  /** A step instance: its wizard and what its two path-argument hooks return. */
  datatype StepContext = StepContext(
    wizard: WizardView,
    nextStepPathArguments: Option<Hash>,
    previousStepPathArguments: Option<Hash>)

  /**
   * Calling `next_step`, `previous_step` or `permitted_params` on a step: the
   * step class's own definition when it has one, otherwise the base class's,
   * which raises `NotImplementedError`. A definition that returns `nil` is not
   * the base one.
   */
  function Invoke<T>(h: Hook<T>): (r: Result<T, Failure>)
    ensures r.Err? <==> h.Undefined?
    ensures r.Err? ==> r.error == NotImplementedError
    ensures h.Defined? ==> r == Ok(h.result)
  {
    match h
    case Undefined => Err(NotImplementedError)
    case Defined(v) => Ok(v)
  }

  // ---------------------------------------------------------------------------
  // Names
  // ---------------------------------------------------------------------------

  /**
   * `formatted_name`: a trailing `::Step` removed, then the first `Step`.
   * It never lengthens the name, and a name without `Step` is kept whole.
   */
  function FormattedName(name: string): (r: string)
    ensures |r| <= |name|
    ensures IndexOf(name, "Step") == None ==> r == name
  {
    NoStepNoSuffix(name);
    Sub(DeleteSuffix(name, "::Step"), "Step", "")
  }

  /** A name without `Step` does not end in `::Step`. */
  lemma NoStepNoSuffix(name: string)
    ensures IndexOf(name, "Step") == None ==> DeleteSuffix(name, "::Step") == name
  {
    if 6 <= |name| && name[|name| - 6..] == "::Step" {
      assert name[|name| - 4..] == name[|name| - 6..][2..];
      assert StartsWith(name[|name| - 4..], "Step");
    }
  }

  /** `route_name`: the underscored formatted name with `/` turned into `_`. */
  function RouteName(name: string, acronyms: seq<string>): (r: string)
    ensures '/' !in r
  {
    var u := Underscore(FormattedName(name), acronyms);
    var r := ReplaceChar(u, '/', '_');
    assert forall i :: 0 <= i < |r| ==> r[i] != '/';
    r
  }

  /**
   * `step_name`: the model name, which is the demodulized formatted name: a
   * tail of the formatted name that holds no `::`.
   */
  function StepName(name: string): (r: string)
    ensures |r| <= |FormattedName(name)| && r == FormattedName(name)[|FormattedName(name)| - |r|..]
    ensures forall j :: 0 <= j <= |r| ==> !StartsWith(r[j..], "::")
  {
    DemodulizeTail(FormattedName(name));
    Demodulize(FormattedName(name))
  }

  /** `Array#compact`: the `nil`s dropped. */
  function Compact(xs: seq<Option<string>>): (r: seq<string>)
    ensures |r| <= |xs|
    ensures forall s :: s in r <==> Some(s) in xs
  {
    if xs == [] then []
    else (if xs[0].Some? then [xs[0].value] else []) + Compact(xs[1..])
  }

  /** `compact` keeps a non-`nil` entry as it is. */
  lemma CompactSome(v: string)
    ensures Compact([Some(v)]) == [v]
  {
  }

  /** `compact` drops a `nil` entry. */
  lemma CompactNone()
    ensures Compact([None]) == []
  {
  }

  /**
   * `compact` works entry by entry: together with the two lemmas above it
   * fixes the order and the multiplicity of what it keeps.
   */
  lemma {:induction false} CompactAppend(a: seq<Option<string>>, b: seq<Option<string>>)
    ensures Compact(a + b) == Compact(a) + Compact(b)
    decreases |a|
  {
    if a == [] {
      assert a + b == b;
    } else {
      assert (a + b)[0] == a[0];
      assert (a + b)[1..] == a[1..] + b;
      CompactAppend(a[1..], b);
    }
  }

  /**
   * `next_route_name` and `previous_route_name`, which share one expression:
   * `[wizard.default_path_prefix, klass.route_name].compact.join('_')`.
   */
  function PrefixedRouteName(w: WizardView, target: string, acronyms: seq<string>): (r: string)
    ensures |RouteName(target, acronyms)| <= |r|
    ensures r[|r| - |RouteName(target, acronyms)|..] == RouteName(target, acronyms)
  {
    CompactJoin(w.defaultPathPrefix, RouteName(target, acronyms));
    Join(Compact([w.defaultPathPrefix, Some(RouteName(target, acronyms))]), "_")
  }

  /** `[prefix, route].compact.join('_')` drops only a `nil` prefix. */
  lemma CompactJoin(prefix: Option<string>, route: string)
    ensures prefix == None ==> Join(Compact([prefix, Some(route)]), "_") == route
    ensures prefix.Some? ==> Join(Compact([prefix, Some(route)]), "_") == prefix.value + "_" + route
  {
    assert Compact([Some(route)]) == [route];
    assert [prefix, Some(route)][1..] == [Some(route)];
    if prefix.Some? {
      var parts := [prefix.value, route];
      assert Compact([prefix, Some(route)]) == parts;
      assert parts[1..] == [route];
    }
  }

  /**
   * Only a `nil` prefix is dropped: any other prefix, the empty string
   * included, is followed by `_`.
   */
  lemma PrefixedRouteNameIs(w: WizardView, target: string, acronyms: seq<string>)
    ensures w.defaultPathPrefix == None ==>
      PrefixedRouteName(w, target, acronyms) == RouteName(target, acronyms)
    ensures w.defaultPathPrefix.Some? ==>
      PrefixedRouteName(w, target, acronyms) ==
        w.defaultPathPrefix.value + "_" + RouteName(target, acronyms)
  {
    CompactJoin(w.defaultPathPrefix, RouteName(target, acronyms));
  }

  // ---------------------------------------------------------------------------
  // Path arguments and paths
  // ---------------------------------------------------------------------------

  /**
   * The base `next_step_path_arguments` and `previous_step_path_arguments`:
   * the wizard's `default_path_arguments` when it defines that method,
   * otherwise `nil`.
   */
  function DefaultStepPathArguments(w: WizardView): (r: Option<Hash>)
    ensures w.defaultPathArguments.Undefined? ==> r == None
    ensures w.defaultPathArguments.Defined? ==> r == w.defaultPathArguments.result
  {
    match w.defaultPathArguments
    case Undefined => None
    case Defined(args) => args
  }

  /** `url_helpers.public_send(helper, args)`: the helper's result, returned verbatim. */
  function Resolve(helpers: UrlHelpers, helper: string, args: Option<Hash>): (r: Result<string, Failure>)
    ensures r.Ok? <==> helpers(helper, args).Some?
    ensures r.Ok? ==> r.value == helpers(helper, args).value
    ensures r.Err? ==> r.error == NoMethodError(helper)
  {
    match helpers(helper, args)
    case Some(path) => Ok(path)
    case None => Err(NoMethodError(helper))
  }

  /** `next_step_path(klass)`. */
  function NextStepPath(step: StepContext, target: string, acronyms: seq<string>): (r: Result<string, Failure>)
    ensures r.Err? ==> r.error == NoMethodError(PrefixedRouteName(step.wizard, target, acronyms) + "_path")
    ensures r.Ok? ==> step.wizard.urlHelpers(PrefixedRouteName(step.wizard, target, acronyms) + "_path", step.nextStepPathArguments) == Some(r.value)
  {
    Resolve(step.wizard.urlHelpers, PrefixedRouteName(step.wizard, target, acronyms) + "_path",
            step.nextStepPathArguments)
  }

  /** `previous_step_path(klass)`. */
  function PreviousStepPath(step: StepContext, target: string, acronyms: seq<string>): (r: Result<string, Failure>)
    ensures r.Err? ==> r.error == NoMethodError(PrefixedRouteName(step.wizard, target, acronyms) + "_path")
    ensures r.Ok? ==> step.wizard.urlHelpers(PrefixedRouteName(step.wizard, target, acronyms) + "_path", step.previousStepPathArguments) == Some(r.value)
  {
    Resolve(step.wizard.urlHelpers, PrefixedRouteName(step.wizard, target, acronyms) + "_path",
            step.previousStepPathArguments)
  }

  /** `next_edit_step_path(klass)`: the `edit_` route, never prefixed. */
  function NextEditStepPath(step: StepContext, target: string, acronyms: seq<string>): (r: Result<string, Failure>)
    ensures r.Err? ==> r.error == NoMethodError("edit_" + RouteName(target, acronyms) + "_path")
    ensures r.Ok? ==> step.wizard.urlHelpers("edit_" + RouteName(target, acronyms) + "_path", step.nextStepPathArguments) == Some(r.value)
  {
    Resolve(step.wizard.urlHelpers, "edit_" + RouteName(target, acronyms) + "_path",
            step.nextStepPathArguments)
  }

  /**
   * The next-step path is what the URL helper named after the prefixed route
   * returns for the step's next-step arguments, and nothing else is asked.
   */
  lemma NextStepPathIs(step: StepContext, target: string, acronyms: seq<string>, path: string)
    ensures NextStepPath(step, target, acronyms) == Ok(path) <==>
      step.wizard.urlHelpers(PrefixedRouteName(step.wizard, target, acronyms) + "_path",
                             step.nextStepPathArguments) == Some(path)
  {
  }

  /** The previous-step path, likewise, with the previous-step arguments. */
  lemma PreviousStepPathIs(step: StepContext, target: string, acronyms: seq<string>, path: string)
    ensures PreviousStepPath(step, target, acronyms) == Ok(path) <==>
      step.wizard.urlHelpers(PrefixedRouteName(step.wizard, target, acronyms) + "_path",
                             step.previousStepPathArguments) == Some(path)
  {
  }

  /** Next and previous paths to the same class agree when the two hooks do. */
  lemma NextAndPreviousAgree(step: StepContext, target: string, acronyms: seq<string>)
    requires step.nextStepPathArguments == step.previousStepPathArguments
    ensures NextStepPath(step, target, acronyms) == PreviousStepPath(step, target, acronyms)
  {
  }

  /** The edit path uses `edit_<route_name>_path` whatever the wizard's prefix. */
  lemma NextEditStepPathIs(step: StepContext, target: string, acronyms: seq<string>, prefix: Option<string>, path: string)
    ensures NextEditStepPath(step, target, acronyms) == Ok(path) <==>
      step.wizard.urlHelpers("edit_" + RouteName(target, acronyms) + "_path",
                             step.nextStepPathArguments) == Some(path)
    ensures NextEditStepPath(step, target, acronyms) ==
      NextEditStepPath(step.(wizard := step.wizard.(defaultPathPrefix := prefix)), target, acronyms)
  {
  }

  // ---------------------------------------------------------------------------
  // Names of CamelCase classes
  // ---------------------------------------------------------------------------

  const StepWord := "Step"

  lemma StepWordIsCamel()
    ensures CamelWord(StepWord)
  {
    assert AllLower("tep") by {
      assert "tep"[1..] == "ep" && "ep"[1..] == "p" && "p"[1..] == "";
    }
    assert StepWord[1..] == "tep";
  }

  /** A CamelCase path with no word `Step…` has no `Step` in it. */
  lemma SubStepAbsent(segs: seq<seq<string>>)
    requires WellFormed(segs) && SegmentsAvoid(segs, StepWord)
    ensures Sub(Path(segs, "::"), StepWord, "") == Path(segs, "::")
  {
    StepWordIsCamel();
    PathAvoids(segs, [], StepWord);
    IndexOfAbsent(Path(segs, "::"), StepWord);
  }

  /**
   * `formatted_name` of a class named by a CamelCase path, with or without a
   * final `Step`: the path itself.
   */
  lemma {:induction false} FormattedNameOfPath(segs: seq<seq<string>>, suffix: string)
    requires WellFormed(segs) && SegmentsAvoid(segs, StepWord)
    requires suffix == [] || suffix == StepWord
    ensures FormattedName(Path(segs, "::") + suffix) == Path(segs, "::")
  {
    var q := Path(segs, "::");
    var s := q + suffix;
    StepWordIsCamel();
    PathEndsLower(segs, "::");
    PathAvoids(segs, suffix, StepWord);
    if |s| >= 6 {
      if suffix == [] {
        assert s[|s| - 6..][2..] == q[|q| - 4..];
        assert !StartsWith(s[|s| - 4..], StepWord);
      } else {
        assert s[|s| - 6..][1] == q[|q| - 1];
      }
    }
    assert DeleteSuffix(s, "::Step") == s;
    if suffix == [] {
      assert s == q;
      SubStepAbsent(segs);
    } else {
      assert s[|q|..] == StepWord;
      IndexOfIs(s, StepWord, |q|);
      assert s[..|q|] == q && s[|q| + 4..] == [];
    }
  }

  /** Only the first `Step` goes: `…StepStep` keeps one. */
  lemma FormattedNameFirstOnly(segs: seq<seq<string>>)
    requires WellFormed(segs) && SegmentsAvoid(segs, StepWord)
    ensures FormattedName(Path(segs, "::") + "StepStep") == Path(segs, "::") + StepWord
  {
    var q := Path(segs, "::");
    var s := q + "StepStep";
    StepWordIsCamel();
    PathAvoids(segs, "StepStep", StepWord);
    assert s[|s| - 5] == 'p';
    DeleteSuffixMismatch(s, "::Step", 1);
    assert StepWord + StepWord == "StepStep";
    assert s == q + StepWord + StepWord;
    SubFirst(q, StepWord, StepWord);
  }

  /** A final `::Step` segment goes first. */
  lemma FormattedNameOfModuleStep(segs: seq<seq<string>>)
    requires WellFormed(segs) && SegmentsAvoid(segs, StepWord)
    ensures FormattedName(Path(segs, "::") + "::Step") == Path(segs, "::")
  {
    DeleteSuffixOf(Path(segs, "::"), "::Step");
    SubStepAbsent(segs);
  }

  /**
   * `route_name` of such a class: its words, down-cased, all joined by `_`,
   * when every acronym ends in a capital.
   */
  lemma RouteNameOfPath(segs: seq<seq<string>>, suffix: string, acronyms: seq<string>)
    requires WellFormed(segs) && SegmentsAvoid(segs, StepWord) && EndInCapital(acronyms)
    requires suffix == [] || suffix == StepWord
    ensures RouteName(Path(segs, "::") + suffix, acronyms) == SnakePath(segs, "_")
  {
    FormattedNameOfPath(segs, suffix);
    UnderscorePath(segs, acronyms);
    SnakePathFlat(segs);
  }

  /** `step_name` of such a class: the last segment of the path. */
  lemma StepNameOfPath(segs: seq<seq<string>>, suffix: string)
    requires WellFormed(segs) && SegmentsAvoid(segs, StepWord)
    requires suffix == [] || suffix == StepWord
    ensures StepName(Path(segs, "::") + suffix) == Camel(segs[|segs| - 1])
  {
    FormattedNameOfPath(segs, suffix);
    DemodulizePath(segs);
  }

  /**
   * The three names of a class `<Ns>::<Ws><suffix>` nested in a one-segment
   * module: the formatted name drops the suffix, the route name is the two
   * snake-cased segments joined by `_`, and the step name is the class's own
   * words.
   */
  lemma NestedClassNames(ns: seq<string>, ws: seq<string>, suffix: string, acronyms: seq<string>)
    requires ns != [] && CamelWords(ns) && WordsAvoid(ns, StepWord)
    requires ws != [] && CamelWords(ws) && WordsAvoid(ws, StepWord)
    requires suffix == [] || suffix == StepWord
    requires EndInCapital(acronyms)
    ensures FormattedName(Camel(ns) + "::" + Camel(ws) + suffix) == Camel(ns) + "::" + Camel(ws)
    ensures RouteName(Camel(ns) + "::" + Camel(ws) + suffix, acronyms) == Snake(ns) + "_" + Snake(ws)
    ensures StepName(Camel(ns) + "::" + Camel(ws) + suffix) == Camel(ws)
  {
    var segs := [ns, ws];
    assert segs[1..] == [ws] && [ws][1..] == [];
    assert WellFormed(segs) && SegmentsAvoid(segs, StepWord);
    PathCons(segs, "::");
    PathCons([ws], "::");
    SnakePathCons(segs, "_");
    SnakePathCons([ws], "_");
    assert Path(segs, "::") == Camel(ns) + "::" + Camel(ws);
    assert SnakePath(segs, "_") == Snake(ns) + "_" + Snake(ws);
    assert Camel(ns) + "::" + Camel(ws) + suffix == Path(segs, "::") + suffix;
    FormattedNameOfPath(segs, suffix);
    RouteNameOfPath(segs, suffix, acronyms);
    StepNameOfPath(segs, suffix);
  }
}
