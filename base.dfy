/**
 * `DfE::Wizard::Base`, the orchestrator, as far as its behaviour is pinned
 * down by its specification examples: which step is current and with which
 * attributes, where the current step leads, and the path of the next and the
 * previous step. Cases those examples never reach give `Unspecified`.
 *
 * `lib/dfe/wizard/base.rb` itself is not part of this model.
 */
module Base {
  import opened Wrappers
  import opened Step
  import opened TestWizard
  import Registry

  /** A step instance: its class and the attributes bound to it. */
  datatype StepInstance = StepInstance(stepClass: StepClass, attributes: Hash)

  /**
   * What a wizard is built with: `new(current_step:, step_params:, **attributes)`,
   * and the application's URL helpers it finds through `Rails.application`.
   */
  datatype Config = Config(
    wizard: WizardClass,
    currentStep: Option<string>,
    stepParams: map<string, Hash>,
    attributes: Hash,
    urlHelpers: UrlHelpers)

  /** What the steps of a wizard see of it. */
  function View(cfg: Config): (w: WizardView)
    ensures w.urlHelpers == cfg.urlHelpers
    ensures w.defaultPathPrefix == DefaultPathPrefix(cfg.wizard)
    ensures w.defaultPathArguments == DefaultPathArguments(cfg.wizard, cfg.attributes)
  {
    WizardView(DefaultPathArguments(cfg.wizard, cfg.attributes), DefaultPathPrefix(cfg.wizard), cfg.urlHelpers)
  }

  /** `params.permit(*permitted)`: only the permitted keys are kept, with their values. */
  function Permit(params: Hash, permitted: seq<string>): (r: Hash)
    ensures forall k :: k in r <==> k in params && k in permitted
    ensures forall k :: k in r ==> r[k] == params[k]
  {
    map k | k in params && k in permitted :: params[k]
  }

  /**
   * `current_step`: no step without a current step key; otherwise an instance
   * of the registered class, with the key's step params bound through the
   * class's `permitted_params` when there are any, and no attributes when
   * there are none.
   */
  function CurrentStep(cfg: Config): (r: Result<Option<StepInstance>, Failure>)
    ensures cfg.currentStep == None ==> r == Ok(None)
    ensures r.Ok? && r.value.Some? ==>
      cfg.currentStep.Some? && StepFor(cfg.wizard, cfg.currentStep.value) == Some(r.value.value.stepClass)
  {
    match cfg.currentStep
    case None => Ok(None)
    case Some(key) =>
      match StepFor(cfg.wizard, key)
      case None => Err(Unspecified("current step is not registered"))
      case Some(c) =>
        if key !in cfg.stepParams then Ok(Some(StepInstance(c, map[])))
        else
          match PermittedParams(c)
          case Err(_) => Err(Unspecified("step params for a step without permitted_params"))
          case Ok(permitted) => Ok(Some(StepInstance(c, Permit(cfg.stepParams[key], permitted))))
  }

  /**
   * `current_step_name`: the current step key, as given. It is `nil` exactly
   * when there is no current step, and it names the class of the step built.
   */
  function CurrentStepName(cfg: Config): (r: Option<string>)
    ensures r.None? <==> CurrentStep(cfg) == Ok(None)
    ensures Current(cfg).Ok? ==> r.Some? && StepFor(cfg.wizard, r.value) == Some(Current(cfg).value.stepClass)
  {
    cfg.currentStep
  }

  /** The current step, which the remaining operations need. */
  function Current(cfg: Config): (r: Result<StepInstance, Failure>)
    ensures r.Ok? <==> CurrentStep(cfg).Ok? && CurrentStep(cfg).value.Some?
    ensures r.Ok? ==> r.value == CurrentStep(cfg).value.value
  {
    var step :- CurrentStep(cfg);
    if step.None? then Err(Unspecified("no current step")) else Ok(step.value)
  }

  /** `permitted_params`: the current step's. */
  function WizardPermittedParams(cfg: Config): Result<seq<string>, Failure> {
    var step :- Current(cfg);
    PermittedParams(step.stepClass)
  }

  /** `next_step`: the current step's. */
  function WizardNextStep(cfg: Config): Result<Option<string>, Failure> {
    var step :- Current(cfg);
    NextStep(step.stepClass, step.attributes)
  }

  /** `current_step.errors` once validated. */
  function StepErrors(cfg: Config): Result<map<string, seq<string>>, Failure> {
    var step :- Current(cfg);
    Ok(Errors(step.stepClass, step.attributes))
  }

  /** `valid_step?`: whether the current step has no errors. */
  function ValidStep(cfg: Config): (r: Result<bool, Failure>)
    ensures r.Ok? <==> StepErrors(cfg).Ok?
    ensures r.Ok? ==> (r.value <==> StepErrors(cfg).value == map[])
  {
    var step :- Current(cfg);
    Ok(Valid(step.stepClass, step.attributes))
  }

  /** The message of the `MissingStepError` raised for a step with no next step. */
  function MissingStepMessage(c: StepClass): (r: string)
    ensures |r| >= 23
    ensures r[..14] == "Next step for " && r[|r| - 9..] == " missing."
    ensures r[14..|r| - 9] == StepName(ClassName(c))
  {
    var name := StepName(ClassName(c));
    ConcatParts("Next step for ", name, " missing.");
    "Next step for " + name + " missing."
  }

  /** The three parts of `a + s + b` can be read back from it. */
  lemma ConcatParts(a: string, s: string, b: string)
    ensures (a + s + b)[..|a|] == a && (a + s + b)[|a| + |s|..] == b && (a + s + b)[|a|..|a| + |s|] == s
  {
  }

  /**
   * `next_step_path`: a step with no next step raises `MissingStepError`; the
   * `exit` key gives the step's own `exit_path`; any other key gives the
   * path of the class registered under it, prefixed and with the current
   * step's next-step arguments.
   */
  function NextStepPath(cfg: Config, acronyms: seq<string>): (r: Result<string, Failure>)
    ensures r.Ok? ==> Current(cfg).Ok? && NextStep(Current(cfg).value.stepClass, Current(cfg).value.attributes).Ok?
    ensures r.Err? && r.error.MissingStepError? ==>
      Current(cfg).Ok? && NextStep(Current(cfg).value.stepClass, Current(cfg).value.attributes) == Ok(None)
  {
    var step :- Current(cfg);
    var next :- NextStep(step.stepClass, step.attributes);
    match next
    case None => Err(MissingStepError(MissingStepMessage(step.stepClass)))
    case Some(key) =>
      if key == "exit" then ExitPath(step.stepClass)
      else
        match StepFor(cfg.wizard, key)
        case None => Err(Unspecified("next step is not registered"))
        case Some(target) =>
          Step.NextStepPath(Context(step.stepClass, step.attributes, View(cfg)), ClassName(target), acronyms)
  }

  /**
   * `previous_step_path(fallback:)`: the path of the class registered under
   * the current step's previous key, prefixed and with the previous-step
   * arguments; the fallback when that key is not registered.
   */
  function PreviousStepPath(cfg: Config, fallback: Option<string>, acronyms: seq<string>): (r: Result<string, Failure>)
    ensures r.Ok? ==> Current(cfg).Ok? && PreviousStep(Current(cfg).value.stepClass).Ok?
    ensures r.Ok? && fallback.None? ==>
      StepFor(cfg.wizard, PreviousStep(Current(cfg).value.stepClass).value).Some?
  {
    var step :- Current(cfg);
    var previous :- PreviousStep(step.stepClass);
    match StepFor(cfg.wizard, previous)
    case None =>
      if fallback.Some? then Ok(fallback.value) else Err(Unspecified("previous step without fallback"))
    case Some(target) =>
      Step.PreviousStepPath(Context(step.stepClass, step.attributes, View(cfg)), ClassName(target), acronyms)
  }

  /**
   * Seen from any wizard with the prefix of wizard class `wc`, the URL helper
   * for step class `target` is `helper`.
   */
  ghost predicate HelperNamed(wc: WizardClass, target: StepClass, acronyms: seq<string>, helper: string) {
    forall w: WizardView :: w.defaultPathPrefix == DefaultPathPrefix(wc) ==>
      PrefixedRouteName(w, ClassName(target), acronyms) + "_path" == helper
  }

  // ---------------------------------------------------------------------------
  // How each result comes about
  // ---------------------------------------------------------------------------

  /** A step key given with params binds exactly the permitted ones. */
  lemma CurrentStepBinds(cfg: Config, key: string, c: StepClass, permitted: seq<string>)
    requires cfg.currentStep == Some(key) && StepFor(cfg.wizard, key) == Some(c)
    requires key in cfg.stepParams && PermittedParams(c) == Ok(permitted)
    ensures Current(cfg).Ok? && Current(cfg).value.stepClass == c
    ensures forall a :: a in Current(cfg).value.attributes <==> a in cfg.stepParams[key] && a in permitted
    ensures forall a :: a in Current(cfg).value.attributes ==>
      Current(cfg).value.attributes[a] == cfg.stepParams[key][a]
  {
  }

  /** A step key given without params gives a step with no attributes. */
  lemma CurrentStepUnbound(cfg: Config, key: string, c: StepClass)
    requires cfg.currentStep == Some(key) && StepFor(cfg.wizard, key) == Some(c)
    requires key !in cfg.stepParams
    ensures Current(cfg) == Ok(StepInstance(c, map[]))
  {
  }

  /** A missing next step raises `MissingStepError` naming the current step. */
  lemma NextStepPathMissing(cfg: Config, acronyms: seq<string>, step: StepInstance)
    requires Current(cfg) == Ok(step)
    requires NextStep(step.stepClass, step.attributes) == Ok(None)
    ensures NextStepPath(cfg, acronyms) == Err(MissingStepError(MissingStepMessage(step.stepClass)))
  {
  }

  /** The `exit` key asks no URL helper: the result is the step's `exit_path`. */
  lemma NextStepPathExit(cfg: Config, acronyms: seq<string>, step: StepInstance)
    requires Current(cfg) == Ok(step)
    requires NextStep(step.stepClass, step.attributes) == Ok(Some("exit"))
    ensures NextStepPath(cfg, acronyms) == ExitPath(step.stepClass)
    ensures NextStepPath(cfg.(urlHelpers := (h, a) => None), acronyms) == NextStepPath(cfg, acronyms)
  {
    var other := cfg.(urlHelpers := (h, a) => None);
    assert CurrentStep(other) == CurrentStep(cfg);
  }

  /**
   * A registered next key resolves the helper named after the target's
   * prefixed route with the current step's next-step arguments, and returns
   * what that helper returns.
   */
  lemma NextStepPathResolves(cfg: Config, acronyms: seq<string>, step: StepInstance, key: string,
                             target: StepClass, helper: string, args: Option<Hash>, path: string)
    requires Current(cfg) == Ok(step)
    requires NextStep(step.stepClass, step.attributes) == Ok(Some(key)) && key != "exit"
    requires StepFor(cfg.wizard, key) == Some(target)
    requires HelperNamed(cfg.wizard, target, acronyms, helper)
    requires NextStepPathArguments(step.stepClass, step.attributes, View(cfg)) == args
    requires cfg.urlHelpers(helper, args) == Some(path)
    ensures NextStepPath(cfg, acronyms) == Resolve(cfg.urlHelpers, helper, args)
    ensures NextStepPath(cfg, acronyms) == Ok(path)
  {
  }

  /** An unregistered previous key gives the fallback, whatever the URL helpers. */
  lemma PreviousStepPathFallback(cfg: Config, fallback: string, acronyms: seq<string>, step: StepInstance, key: string)
    requires Current(cfg) == Ok(step)
    requires PreviousStep(step.stepClass) == Ok(key)
    requires StepFor(cfg.wizard, key) == None
    ensures PreviousStepPath(cfg, Some(fallback), acronyms) == Ok(fallback)
  {
  }

  /**
   * A registered previous key resolves the helper named after the target's
   * prefixed route with the previous-step arguments, whatever the fallback.
   */
  lemma PreviousStepPathResolves(cfg: Config, fallback: Option<string>, acronyms: seq<string>, step: StepInstance,
                                 key: string, target: StepClass, helper: string,
                                 args: Option<Hash>, path: string)
    requires Current(cfg) == Ok(step)
    requires PreviousStep(step.stepClass) == Ok(key)
    requires StepFor(cfg.wizard, key) == Some(target)
    requires HelperNamed(cfg.wizard, target, acronyms, helper)
    requires DefaultStepPathArguments(View(cfg)) == args
    requires cfg.urlHelpers(helper, args) == Some(path)
    ensures PreviousStepPath(cfg, fallback, acronyms) == Resolve(cfg.urlHelpers, helper, args)
    ensures PreviousStepPath(cfg, fallback, acronyms) == Ok(path)
  {
  }
}
