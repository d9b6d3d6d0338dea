/**
 * The examples the orchestrator is specified by, one lemma per example:
 * each builds the wizard the example builds and states what the example
 * expects of it. The URL helpers are a parameter, of which each lemma
 * assumes only the routes the example stubs.
 */
module BaseSpec {
  import opened Wrappers
  import opened Step
  import opened CamelCase
  import opened TestWizard
  import opened FixtureNames
  import Registry
  import Base
  import WizardObject

  // ---------------------------------------------------------------------------
  // The wizards the examples build
  // ---------------------------------------------------------------------------

  /** `MyAwesomeCourseSelectionWizard.new(current_step:, step_params:)`. */
  function MyAwesome(current: Option<string>, params: map<string, Hash>, helpers: UrlHelpers): Base.Config {
    Base.Config(MyAwesomeCourseSelectionWizard, current, params, map[], helpers)
  }

  /** `AnotherWizard.new(current_step: :test_another_wizard_first)`. */
  function Another(helpers: UrlHelpers): Base.Config {
    Base.Config(AnotherWizard, Some("test_another_wizard_first"), map[], map[], helpers)
  }

  /** The attributes the default-scope wizard is built with. */
  function ScopeAttributes(): Hash {
    map["provider_code" := Str("1TZ"), "recruitment_cycle_year" := Int(2025), "code" := Str("2T3F")]
  }

  /** `WizardWithDefaultScope.new(current_step:, step_params: {}, provider_code: '1TZ', …)`. */
  function DefaultScope(current: string, helpers: UrlHelpers): Base.Config {
    Base.Config(WizardWithDefaultScope, Some(current), map[], ScopeAttributes(), helpers)
  }

  /** `{ test_do_you_know_which_course: { answer: } }`. */
  function AnswerParams(key: string, answer: string): map<string, Hash> {
    map[key := map["answer" := Str(answer)]]
  }

  // ---------------------------------------------------------------------------
  // Facts the examples share
  // ---------------------------------------------------------------------------

  /** The registry of `MyAwesomeCourseSelectionWizard`: its eight keys and their classes. */
  lemma MyAwesomeSteps(key: string)
    ensures StepFor(MyAwesomeCourseSelectionWizard, key).Some? <==>
      key in {"test_do_you_know_which_course", "test_go_to_find", "test_provider_selection",
              "test_course_name_selection", "test_course_study_mode_selection",
              "test_course_site_selection", "test_find_selection", "test_review"}
    ensures StepFor(MyAwesomeCourseSelectionWizard, "test_do_you_know_which_course") == Some(TestDoYouKnowWhichCourse)
    ensures StepFor(MyAwesomeCourseSelectionWizard, "test_go_to_find") == Some(TestGoToFindStep)
    ensures StepFor(MyAwesomeCourseSelectionWizard, "test_provider_selection") == Some(TestProviderSelection)
    ensures StepFor(MyAwesomeCourseSelectionWizard, "test_course_name_selection") == Some(TestCourseNameSelection)
    ensures StepFor(MyAwesomeCourseSelectionWizard, "test_course_study_mode_selection") == Some(TestCourseStudyModeSelection)
    ensures StepFor(MyAwesomeCourseSelectionWizard, "test_course_site_selection") == Some(TestCourseSiteSelection)
    ensures StepFor(MyAwesomeCourseSelectionWizard, "test_find_selection") == Some(TestFindSelection)
    ensures StepFor(MyAwesomeCourseSelectionWizard, "test_review") == Some(TestReview)
  {
    var groups := Steps(MyAwesomeCourseSelectionWizard);
    Registry.FlattenKeys(groups, key);
    assert Registry.Flatten(groups) == groups[0] by {
      assert groups[..0] == [];
    }
  }

  /** `step_params` for a key, bound through `permitted_params: [key]`, keep that key's value. */
  lemma PermitOne(key: string, v: Value)
    ensures Base.Permit(map[key := v], [key]) == map[key := v]
  {
    assert forall k :: k in Base.Permit(map[key := v], [key]) <==> k == key;
  }

  /** The current `TestDoYouKnowWhichCourse` step holds the answer it was given. */
  lemma DoYouKnowCurrent(answer: string, helpers: UrlHelpers)
    ensures Base.Current(MyAwesome(Some("test_do_you_know_which_course"),
                                   AnswerParams("test_do_you_know_which_course", answer), helpers))
      == Ok(Base.StepInstance(TestDoYouKnowWhichCourse, map["answer" := Str(answer)]))
  {
    MyAwesomeSteps("test_do_you_know_which_course");
    PermitOne("answer", Str(answer));
  }

  /** A current step given no params holds no attributes. */
  lemma MyAwesomeCurrentUnbound(key: string, c: StepClass, helpers: UrlHelpers)
    requires StepFor(MyAwesomeCourseSelectionWizard, key) == Some(c)
    ensures Base.Current(MyAwesome(Some(key), map[], helpers)) == Ok(Base.StepInstance(c, map[]))
  {
    Base.CurrentStepUnbound(MyAwesome(Some(key), map[], helpers), key, c);
  }

  // ---------------------------------------------------------------------------
  // `.steps`, `#steps`, `#current_step`, `#current_step_name`
  // ---------------------------------------------------------------------------

  /** Without a current step there is no current step and no current step name. */
  lemma NoCurrentStep(params: map<string, Hash>, helpers: UrlHelpers)
    ensures Base.CurrentStep(MyAwesome(None, params, helpers)) == Ok(None)
    ensures Base.CurrentStepName(MyAwesome(None, params, helpers)) == None
  {
  }

  /** The current step `:test_go_to_find` is a `TestGoToFindStep`, and is named by its key. */
  lemma GoToFindIsCurrent(helpers: UrlHelpers)
    ensures Base.CurrentStep(MyAwesome(Some("test_go_to_find"), map[], helpers))
      == Ok(Some(Base.StepInstance(TestGoToFindStep, map[])))
    ensures Base.CurrentStepName(MyAwesome(Some("test_go_to_find"), map[], helpers)) == Some("test_go_to_find")
  {
    MyAwesomeSteps("test_go_to_find");
    MyAwesomeCurrentUnbound("test_go_to_find", TestGoToFindStep, helpers);
  }

  // ---------------------------------------------------------------------------
  // `#step_params`, `#next_step`, `#valid_step?`, `#permitted_params`
  // ---------------------------------------------------------------------------

  /** The params of the current step's key are bound to it. */
  lemma StepParamsAssigned(helpers: UrlHelpers)
    ensures Base.Current(MyAwesome(Some("test_do_you_know_which_course"),
                                   AnswerParams("test_do_you_know_which_course", "yes"), helpers)).Ok?
    ensures Get(Base.Current(MyAwesome(Some("test_do_you_know_which_course"),
                                       AnswerParams("test_do_you_know_which_course", "yes"), helpers)).value.attributes,
                "answer") == Str("yes")
  {
    DoYouKnowCurrent("yes", helpers);
  }

  /** Answering `yes` leads to the provider selection, any other answer to `:test_go_to_find`. */
  lemma NextStepBranches(helpers: UrlHelpers)
    ensures Base.WizardNextStep(MyAwesome(Some("test_do_you_know_which_course"),
                                          AnswerParams("test_do_you_know_which_course", "yes"), helpers))
      == Ok(Some("test_provider_selection"))
    ensures Base.WizardNextStep(MyAwesome(Some("test_do_you_know_which_course"),
                                          AnswerParams("test_do_you_know_which_course", "no"), helpers))
      == Ok(Some("test_go_to_find"))
  {
    DoYouKnowCurrent("yes", helpers);
    DoYouKnowCurrent("no", helpers);
    DoYouKnowWhichCourseBranches(map["answer" := Str("yes")]);
    DoYouKnowWhichCourseBranches(map["answer" := Str("no")]);
  }

  /** With an answer the step is valid and has no errors. */
  lemma ValidWithAnswer(helpers: UrlHelpers)
    ensures Base.ValidStep(MyAwesome(Some("test_do_you_know_which_course"),
                                     AnswerParams("test_do_you_know_which_course", "yes"), helpers)) == Ok(true)
    ensures Base.StepErrors(MyAwesome(Some("test_do_you_know_which_course"),
                                      AnswerParams("test_do_you_know_which_course", "yes"), helpers)) == Ok(map[])
  {
    DoYouKnowCurrent("yes", helpers);
    AnswerPresence(map["answer" := Str("yes")]);
  }

  /** Without params the step is invalid, with `can't be blank` on `answer`. */
  lemma InvalidWithoutAnswer(helpers: UrlHelpers)
    ensures Base.ValidStep(MyAwesome(Some("test_do_you_know_which_course"), map[], helpers)) == Ok(false)
    ensures Base.StepErrors(MyAwesome(Some("test_do_you_know_which_course"), map[], helpers)).Ok?
    ensures Base.StepErrors(MyAwesome(Some("test_do_you_know_which_course"), map[], helpers)).value["answer"]
      == ["can't be blank"]
  {
    MyAwesomeSteps("test_do_you_know_which_course");
    MyAwesomeCurrentUnbound("test_do_you_know_which_course", TestDoYouKnowWhichCourse, helpers);
    AnswerPresence(map[]);
  }

  /** The wizard's permitted params are its current step's: `[:answer]`. */
  lemma PermittedParamsOfCurrent(helpers: UrlHelpers)
    ensures Base.WizardPermittedParams(MyAwesome(Some("test_do_you_know_which_course"), map[], helpers))
      == Ok(["answer"])
  {
    MyAwesomeSteps("test_do_you_know_which_course");
    MyAwesomeCurrentUnbound("test_do_you_know_which_course", TestDoYouKnowWhichCourse, helpers);
  }

  // ---------------------------------------------------------------------------
  // The helper names and messages, spelt out
  // ---------------------------------------------------------------------------

  // Spelling facts only: they split the literal helper names into the parts
  // the general lemmas produce, and state nothing about the wizard.

  lemma DoYouKnowHelperSpelling()
    ensures "test_wizard_test_do_you_know_which_course_path" == "test_wizard_test_do_you_know_which_course" + "_path"
  {
  }

  lemma GoToFindHelperSpelling()
    ensures "test_wizard_test_go_to_find_path" == "test_wizard_test_go_to_find" + "_path"
  {
  }

  lemma ProviderSelectionHelperSpelling()
    ensures "test_wizard_test_provider_selection_path" == "test_wizard_test_provider_selection" + "_path"
  {
  }

  lemma CourseNameSelectionHelperSpelling()
    ensures "test_wizard_test_course_name_selection_path" == "test_wizard_test_course_name_selection" + "_path"
  {
  }

  lemma AnotherWizardSecondHelperSpelling()
    ensures "test_wizard_test_another_wizard_second_path" == "test_wizard_test_another_wizard_second" + "_path"
  {
  }

  lemma SomeFirstHelperSpelling()
    ensures "some_prefix_test_wizard_some_first_path" == "some_prefix" + "_" + "test_wizard_some_first" + "_path"
  {
  }

  lemma SomeSecondHelperSpelling()
    ensures "some_prefix_test_wizard_some_second_path" == "some_prefix" + "_" + "test_wizard_some_second" + "_path"
  {
  }

  lemma GoToFindMessage()
    ensures "Next step for TestGoToFind missing." == "Next step for " + "TestGoToFind" + " missing."
  {
  }

  // ---------------------------------------------------------------------------
  // The URL helper of each target, for an unprefixed and for the prefixed wizard
  // ---------------------------------------------------------------------------

  /** `TestDoYouKnowWhichCourse` is reached through `test_wizard_test_do_you_know_which_course_path`. */
  lemma DoYouKnowHelper(acronyms: seq<string>)
    requires EndInCapital(acronyms)
    ensures Base.HelperNamed(MyAwesomeCourseSelectionWizard, TestDoYouKnowWhichCourse, acronyms,
                            "test_wizard_test_do_you_know_which_course_path")
  {
    TestDoYouKnowWhichCourseNames(acronyms);
    DoYouKnowHelperSpelling();
    forall w: WizardView | w.defaultPathPrefix == DefaultPathPrefix(MyAwesomeCourseSelectionWizard)
      ensures PrefixedRouteName(w, ClassName(TestDoYouKnowWhichCourse), acronyms) + "_path"
        == "test_wizard_test_do_you_know_which_course_path"
    {
      PrefixedRouteNameIs(w, ClassName(TestDoYouKnowWhichCourse), acronyms);
    }
  }

  /** `TestGoToFindStep` is reached through `test_wizard_test_go_to_find_path`. */
  lemma GoToFindHelper(acronyms: seq<string>)
    requires EndInCapital(acronyms)
    ensures Base.HelperNamed(MyAwesomeCourseSelectionWizard, TestGoToFindStep, acronyms,
                            "test_wizard_test_go_to_find_path")
  {
    TestGoToFindStepNames(acronyms);
    GoToFindHelperSpelling();
    forall w: WizardView | w.defaultPathPrefix == DefaultPathPrefix(MyAwesomeCourseSelectionWizard)
      ensures PrefixedRouteName(w, ClassName(TestGoToFindStep), acronyms) + "_path"
        == "test_wizard_test_go_to_find_path"
    {
      PrefixedRouteNameIs(w, ClassName(TestGoToFindStep), acronyms);
    }
  }

  /** `TestProviderSelection` is reached through `test_wizard_test_provider_selection_path`. */
  lemma ProviderSelectionHelper(acronyms: seq<string>)
    requires EndInCapital(acronyms)
    ensures Base.HelperNamed(MyAwesomeCourseSelectionWizard, TestProviderSelection, acronyms,
                            "test_wizard_test_provider_selection_path")
  {
    TestProviderSelectionNames(acronyms);
    ProviderSelectionHelperSpelling();
    forall w: WizardView | w.defaultPathPrefix == DefaultPathPrefix(MyAwesomeCourseSelectionWizard)
      ensures PrefixedRouteName(w, ClassName(TestProviderSelection), acronyms) + "_path"
        == "test_wizard_test_provider_selection_path"
    {
      PrefixedRouteNameIs(w, ClassName(TestProviderSelection), acronyms);
    }
  }

  /** `TestCourseNameSelection` is reached through `test_wizard_test_course_name_selection_path`. */
  lemma CourseNameSelectionHelper(acronyms: seq<string>)
    requires EndInCapital(acronyms)
    ensures Base.HelperNamed(MyAwesomeCourseSelectionWizard, TestCourseNameSelection, acronyms,
                            "test_wizard_test_course_name_selection_path")
  {
    TestCourseNameSelectionNames(acronyms);
    CourseNameSelectionHelperSpelling();
    forall w: WizardView | w.defaultPathPrefix == DefaultPathPrefix(MyAwesomeCourseSelectionWizard)
      ensures PrefixedRouteName(w, ClassName(TestCourseNameSelection), acronyms) + "_path"
        == "test_wizard_test_course_name_selection_path"
    {
      PrefixedRouteNameIs(w, ClassName(TestCourseNameSelection), acronyms);
    }
  }

  /** `TestAnotherWizardSecondStep` is reached through `test_wizard_test_another_wizard_second_path`. */
  lemma AnotherWizardSecondHelper(acronyms: seq<string>)
    requires EndInCapital(acronyms)
    ensures Base.HelperNamed(AnotherWizard, TestAnotherWizardSecondStep, acronyms,
                            "test_wizard_test_another_wizard_second_path")
  {
    TestAnotherWizardSecondStepNames(acronyms);
    AnotherWizardSecondHelperSpelling();
    forall w: WizardView | w.defaultPathPrefix == DefaultPathPrefix(AnotherWizard)
      ensures PrefixedRouteName(w, ClassName(TestAnotherWizardSecondStep), acronyms) + "_path"
        == "test_wizard_test_another_wizard_second_path"
    {
      PrefixedRouteNameIs(w, ClassName(TestAnotherWizardSecondStep), acronyms);
    }
  }

  /** `SomeFirstStep` is reached through `some_prefix_test_wizard_some_first_path`. */
  lemma SomeFirstHelper(acronyms: seq<string>)
    requires EndInCapital(acronyms)
    ensures Base.HelperNamed(WizardWithDefaultScope, SomeFirstStep, acronyms,
                            "some_prefix_test_wizard_some_first_path")
  {
    SomeFirstStepNames(acronyms);
    SomeFirstHelperSpelling();
    forall w: WizardView | w.defaultPathPrefix == DefaultPathPrefix(WizardWithDefaultScope)
      ensures PrefixedRouteName(w, ClassName(SomeFirstStep), acronyms) + "_path"
        == "some_prefix_test_wizard_some_first_path"
    {
      PrefixedRouteNameIs(w, ClassName(SomeFirstStep), acronyms);
    }
  }

  /** `SomeSecondStep` is reached through `some_prefix_test_wizard_some_second_path`. */
  lemma SomeSecondHelper(acronyms: seq<string>)
    requires EndInCapital(acronyms)
    ensures Base.HelperNamed(WizardWithDefaultScope, SomeSecondStep, acronyms,
                            "some_prefix_test_wizard_some_second_path")
  {
    SomeSecondStepNames(acronyms);
    SomeSecondHelperSpelling();
    forall w: WizardView | w.defaultPathPrefix == DefaultPathPrefix(WizardWithDefaultScope)
      ensures PrefixedRouteName(w, ClassName(SomeSecondStep), acronyms) + "_path"
        == "some_prefix_test_wizard_some_second_path"
    {
      PrefixedRouteNameIs(w, ClassName(SomeSecondStep), acronyms);
    }
  }

  /** The message for `TestGoToFindStep` names it `TestGoToFind`. */
  lemma GoToFindMissingMessage()
    ensures Base.MissingStepMessage(TestGoToFindStep) == "Next step for TestGoToFind missing."
  {
    TestGoToFindStepNames([]);
    GoToFindMessage();
  }

  // ---------------------------------------------------------------------------
  // The current steps of the path examples
  // ---------------------------------------------------------------------------

  /** A current step whose class permits `answer` holds the answer it was given. */
  lemma AnswerCurrent(key: string, c: StepClass, answer: string, helpers: UrlHelpers)
    requires StepFor(MyAwesomeCourseSelectionWizard, key) == Some(c) && PermittedParams(c) == Ok(["answer"])
    ensures Base.Current(MyAwesome(Some(key), AnswerParams(key, answer), helpers))
      == Ok(Base.StepInstance(c, map["answer" := Str(answer)]))
  {
    PermitOne("answer", Str(answer));
  }

  lemma FindSelectionCurrent(helpers: UrlHelpers)
    ensures Base.Current(MyAwesome(Some("test_find_selection"), AnswerParams("test_find_selection", "no"), helpers))
      == Ok(Base.StepInstance(TestFindSelection, map["answer" := Str("no")]))
    ensures NextStep(TestFindSelection, map["answer" := Str("no")]) == Ok(Some("exit"))
  {
    MyAwesomeSteps("test_find_selection");
    AnswerCurrent("test_find_selection", TestFindSelection, "no", helpers);
    FindSelectionExits(map["answer" := Str("no")]);
  }

  lemma ProviderSelectionPrevious(helpers: UrlHelpers)
    ensures Base.Current(MyAwesome(Some("test_provider_selection"), map[], helpers))
      == Ok(Base.StepInstance(TestProviderSelection, map[]))
    ensures PreviousStep(TestProviderSelection) == Ok("test_do_you_know_which_course")
    ensures StepFor(MyAwesomeCourseSelectionWizard, "test_do_you_know_which_course") == Some(TestDoYouKnowWhichCourse)
  {
    MyAwesomeSteps("test_provider_selection");
    MyAwesomeCurrentUnbound("test_provider_selection", TestProviderSelection, helpers);
  }

  /** `{ test_provider_selection: { provider_id: 10 } }`. */
  function ProviderParams(): map<string, Hash> {
    map["test_provider_selection" := map["provider_id" := Int(10)]]
  }

  lemma ProviderSelectionNext(helpers: UrlHelpers)
    ensures Base.Current(MyAwesome(Some("test_provider_selection"), ProviderParams(), helpers))
      == Ok(Base.StepInstance(TestProviderSelection, map["provider_id" := Int(10)]))
    ensures NextStep(TestProviderSelection, map["provider_id" := Int(10)]) == Ok(Some("test_course_name_selection"))
    ensures StepFor(MyAwesomeCourseSelectionWizard, "test_course_name_selection") == Some(TestCourseNameSelection)
    ensures NextStepPathArguments(TestProviderSelection, map["provider_id" := Int(10)],
                                  Base.View(MyAwesome(Some("test_provider_selection"), ProviderParams(), helpers)))
      == Some(map["provider_id" := Int(10)])
  {
    MyAwesomeSteps("test_provider_selection");
    MyAwesomeSteps("test_course_name_selection");
    PermitOne("provider_id", Int(10));
  }

  lemma DoYouKnowNext(answer: string, helpers: UrlHelpers)
    ensures Base.Current(MyAwesome(Some("test_do_you_know_which_course"),
                                   AnswerParams("test_do_you_know_which_course", answer), helpers))
      == Ok(Base.StepInstance(TestDoYouKnowWhichCourse, map["answer" := Str(answer)]))
    ensures StepFor(MyAwesomeCourseSelectionWizard, "test_provider_selection") == Some(TestProviderSelection)
    ensures StepFor(MyAwesomeCourseSelectionWizard, "test_go_to_find") == Some(TestGoToFindStep)
    ensures NextStepPathArguments(TestDoYouKnowWhichCourse, map["answer" := Str(answer)],
                                  Base.View(MyAwesome(Some("test_do_you_know_which_course"),
                                                      AnswerParams("test_do_you_know_which_course", answer), helpers)))
      == None
  {
    DoYouKnowCurrent(answer, helpers);
    MyAwesomeSteps("test_provider_selection");
  }

  lemma AnotherFirstNext(helpers: UrlHelpers)
    ensures Base.Current(Another(helpers)) == Ok(Base.StepInstance(TestAnotherWizardFirstStep, map[]))
    ensures NextStep(TestAnotherWizardFirstStep, map[]) == Ok(Some("test_another_wizard_second"))
    ensures StepFor(AnotherWizard, "test_another_wizard_second") == Some(TestAnotherWizardSecondStep)
    ensures NextStepPathArguments(TestAnotherWizardFirstStep, map[], Base.View(Another(helpers))) == None
  {
    var groups := Steps(AnotherWizard);
    StepsDisjoint(AnotherWizard);
    Registry.LookupFinds(groups, 0, "test_another_wizard_first");
    Registry.LookupFinds(groups, 0, "test_another_wizard_second");
    Base.CurrentStepUnbound(Another(helpers), "test_another_wizard_first", TestAnotherWizardFirstStep);
  }

  /** `{ provider_code: '1TZ', recruitment_cycle_year: 2025, code: '2T3F' }`. */
  function ScopeArguments(): Hash {
    map["provider_code" := Str("1TZ"), "recruitment_cycle_year" := Int(2025), "code" := Str("2T3F")]
  }

  /** Both steps of the default-scope wizard take the wizard's default path arguments. */
  lemma ScopeStep(key: string, c: StepClass, helpers: UrlHelpers)
    requires (key, c) == ("some_first_step", SomeFirstStep) || (key, c) == ("some_second_step", SomeSecondStep)
    ensures StepFor(WizardWithDefaultScope, "some_first_step") == Some(SomeFirstStep)
    ensures StepFor(WizardWithDefaultScope, "some_second_step") == Some(SomeSecondStep)
    ensures Base.Current(DefaultScope(key, helpers)) == Ok(Base.StepInstance(c, map[]))
    ensures Base.View(DefaultScope(key, helpers)).defaultPathPrefix == Some("some_prefix")
    ensures NextStepPathArguments(c, map[], Base.View(DefaultScope(key, helpers))) == Some(ScopeArguments())
    ensures DefaultStepPathArguments(Base.View(DefaultScope(key, helpers))) == Some(ScopeArguments())
  {
    DefaultScopeRegistry(key);
    Base.CurrentStepUnbound(DefaultScope(key, helpers), key, c);
  }

  /** Where `:some_first_step` of the default-scope wizard leads, and with which arguments. */
  lemma ScopeFirstNext(helpers: UrlHelpers)
    ensures Base.Current(DefaultScope("some_first_step", helpers)) == Ok(Base.StepInstance(SomeFirstStep, map[]))
    ensures NextStep(SomeFirstStep, map[]) == Ok(Some("some_second_step"))
    ensures StepFor(WizardWithDefaultScope, "some_second_step") == Some(SomeSecondStep)
    ensures NextStepPathArguments(SomeFirstStep, map[], Base.View(DefaultScope("some_first_step", helpers)))
      == Some(ScopeArguments())
  {
    ScopeStep("some_first_step", SomeFirstStep, helpers);
  }

  /** Where `:some_second_step` of the default-scope wizard goes back to, and with which arguments. */
  lemma ScopeSecondPrevious(helpers: UrlHelpers)
    ensures Base.Current(DefaultScope("some_second_step", helpers)) == Ok(Base.StepInstance(SomeSecondStep, map[]))
    ensures PreviousStep(SomeSecondStep) == Ok("some_first_step")
    ensures StepFor(WizardWithDefaultScope, "some_first_step") == Some(SomeFirstStep)
    ensures DefaultStepPathArguments(Base.View(DefaultScope("some_second_step", helpers))) == Some(ScopeArguments())
  {
    ScopeStep("some_second_step", SomeSecondStep, helpers);
  }

  // ---------------------------------------------------------------------------
  // `#previous_step_path`
  // ---------------------------------------------------------------------------

  /** On the first page the previous key `:first_step` is not registered: the fallback is returned. */
  lemma PreviousStepPathOfFirstPage(helpers: UrlHelpers, acronyms: seq<string>)
    ensures Base.PreviousStepPath(MyAwesome(Some("test_do_you_know_which_course"), map[], helpers),
                                  Some("/fallback"), acronyms) == Ok("/fallback")
  {
    var cfg := MyAwesome(Some("test_do_you_know_which_course"), map[], helpers);
    MyAwesomeSteps("test_do_you_know_which_course");
    MyAwesomeSteps("first_step");
    MyAwesomeCurrentUnbound("test_do_you_know_which_course", TestDoYouKnowWhichCourse, helpers);
    Base.PreviousStepPathFallback(cfg, "/fallback", acronyms, Base.StepInstance(TestDoYouKnowWhichCourse, map[]),
                                  "first_step");
  }

  /** On the provider selection the previous path is the helper for `TestDoYouKnowWhichCourse`'s route. */
  lemma PreviousStepPathOfOtherPage(helpers: UrlHelpers, acronyms: seq<string>)
    requires EndInCapital(acronyms)
    requires helpers("test_wizard_test_do_you_know_which_course_path", None) == Some("/do-you-know-which-course")
    ensures Base.PreviousStepPath(MyAwesome(Some("test_provider_selection"), map[], helpers), None, acronyms)
      == Ok("/do-you-know-which-course")
  {
    var cfg := MyAwesome(Some("test_provider_selection"), map[], helpers);
    ProviderSelectionPrevious(helpers);
    DoYouKnowHelper(acronyms);
    Base.PreviousStepPathResolves(cfg, None, acronyms, Base.StepInstance(TestProviderSelection, map[]),
      "test_do_you_know_which_course", TestDoYouKnowWhichCourse,
      "test_wizard_test_do_you_know_which_course_path", None,
      "/do-you-know-which-course");
  }

  /**
   * From `:some_second_step` of the default-scope wizard the previous path is
   * the prefixed helper of `SomeFirstStep`, given the default path arguments,
   * and no other helper is asked.
   */
  lemma PreviousStepPathWithDefaultScope(helpers: UrlHelpers, acronyms: seq<string>, path: string)
    requires EndInCapital(acronyms)
    requires helpers("some_prefix_test_wizard_some_first_path", Some(ScopeArguments())) == Some(path)
    ensures Base.PreviousStepPath(DefaultScope("some_second_step", helpers), None, acronyms)
      == Resolve(helpers, "some_prefix_test_wizard_some_first_path", Some(ScopeArguments()))
    ensures Base.PreviousStepPath(DefaultScope("some_second_step", helpers), None, acronyms) == Ok(path)
  {
    var cfg := DefaultScope("some_second_step", helpers);
    ScopeSecondPrevious(helpers);
    SomeFirstHelper(acronyms);
    Base.PreviousStepPathResolves(cfg, None, acronyms, Base.StepInstance(SomeSecondStep, map[]),
      "some_first_step", SomeFirstStep,
      "some_prefix_test_wizard_some_first_path", Some(ScopeArguments()), path);
  }

  // ---------------------------------------------------------------------------
  // `#next_step_path`
  // ---------------------------------------------------------------------------

  /** `TestGoToFindStep` has no next step: `MissingStepError`, naming it `TestGoToFind`. */
  lemma NextStepPathMissing(helpers: UrlHelpers, acronyms: seq<string>)
    ensures Base.NextStepPath(MyAwesome(Some("test_go_to_find"), map[], helpers), acronyms)
      == Err(MissingStepError("Next step for TestGoToFind missing."))
  {
    GoToFindIsCurrent(helpers);
    HooksRaiseUnlessDefined(TestGoToFindStep, map[]);
    GoToFindMissingMessage();
    Base.NextStepPathMissing(MyAwesome(Some("test_go_to_find"), map[], helpers), acronyms,
                             Base.StepInstance(TestGoToFindStep, map[]));
  }

  /** Answering `no` on `TestFindSelection` exits through its `exit_path`, whatever the URL helpers. */
  lemma NextStepPathExits(helpers: UrlHelpers, acronyms: seq<string>)
    ensures Base.NextStepPath(MyAwesome(Some("test_find_selection"), AnswerParams("test_find_selection", "no"), helpers),
                              acronyms) == Ok("custom_exit_path")
  {
    FindSelectionCurrent(helpers);
    Base.NextStepPathExit(MyAwesome(Some("test_find_selection"), AnswerParams("test_find_selection", "no"), helpers),
                          acronyms, Base.StepInstance(TestFindSelection, map["answer" := Str("no")]));
  }

  /** Answering `yes` leads to the provider selection's helper, with no arguments. */
  lemma NextStepPathOneBranch(helpers: UrlHelpers, acronyms: seq<string>)
    requires EndInCapital(acronyms)
    requires helpers("test_wizard_test_provider_selection_path", None) == Some("/provider-selection")
    ensures Base.NextStepPath(MyAwesome(Some("test_do_you_know_which_course"),
                                        AnswerParams("test_do_you_know_which_course", "yes"), helpers), acronyms)
      == Ok("/provider-selection")
  {
    var cfg := MyAwesome(Some("test_do_you_know_which_course"), AnswerParams("test_do_you_know_which_course", "yes"), helpers);
    DoYouKnowNext("yes", helpers);
    DoYouKnowWhichCourseBranches(map["answer" := Str("yes")]);
    ProviderSelectionHelper(acronyms);
    Base.NextStepPathResolves(cfg, acronyms, Base.StepInstance(TestDoYouKnowWhichCourse, map["answer" := Str("yes")]),
      "test_provider_selection", TestProviderSelection,
      "test_wizard_test_provider_selection_path", None, "/provider-selection");
  }

  /** Answering `no` leads to the helper of `TestGoToFindStep`, whose route drops `Step`. */
  lemma NextStepPathOtherBranch(helpers: UrlHelpers, acronyms: seq<string>)
    requires EndInCapital(acronyms)
    requires helpers("test_wizard_test_go_to_find_path", None) == Some("/go-to-find")
    ensures Base.NextStepPath(MyAwesome(Some("test_do_you_know_which_course"),
                                        AnswerParams("test_do_you_know_which_course", "no"), helpers), acronyms)
      == Ok("/go-to-find")
  {
    var cfg := MyAwesome(Some("test_do_you_know_which_course"), AnswerParams("test_do_you_know_which_course", "no"), helpers);
    DoYouKnowNext("no", helpers);
    DoYouKnowWhichCourseBranches(map["answer" := Str("no")]);
    GoToFindHelper(acronyms);
    Base.NextStepPathResolves(cfg, acronyms, Base.StepInstance(TestDoYouKnowWhichCourse, map["answer" := Str("no")]),
      "test_go_to_find", TestGoToFindStep,
      "test_wizard_test_go_to_find_path", None, "/go-to-find");
  }

  /** `TestProviderSelection` passes its `provider_id` to the next step's helper. */
  lemma NextStepPathWithMoreArguments(helpers: UrlHelpers, acronyms: seq<string>)
    requires EndInCapital(acronyms)
    requires helpers("test_wizard_test_course_name_selection_path", Some(map["provider_id" := Int(10)]))
      == Some("/provider/10/courses")
    ensures Base.NextStepPath(MyAwesome(Some("test_provider_selection"), ProviderParams(), helpers), acronyms)
      == Ok("/provider/10/courses")
  {
    var cfg := MyAwesome(Some("test_provider_selection"), ProviderParams(), helpers);
    ProviderSelectionNext(helpers);
    CourseNameSelectionHelper(acronyms);
    Base.NextStepPathResolves(cfg, acronyms, Base.StepInstance(TestProviderSelection, map["provider_id" := Int(10)]),
      "test_course_name_selection", TestCourseNameSelection,
      "test_wizard_test_course_name_selection_path", Some(map["provider_id" := Int(10)]), "/provider/10/courses");
  }

  /** `AnotherWizard` goes from its first step to its second step's helper. */
  lemma NextStepPathOfAnotherWizard(helpers: UrlHelpers, acronyms: seq<string>)
    requires EndInCapital(acronyms)
    requires helpers("test_wizard_test_another_wizard_second_path", None) == Some("/second-path")
    ensures Base.NextStepPath(Another(helpers), acronyms) == Ok("/second-path")
  {
    AnotherFirstNext(helpers);
    AnotherWizardSecondHelper(acronyms);
    Base.NextStepPathResolves(Another(helpers), acronyms, Base.StepInstance(TestAnotherWizardFirstStep, map[]),
      "test_another_wizard_second", TestAnotherWizardSecondStep,
      "test_wizard_test_another_wizard_second_path", None, "/second-path");
  }

  /**
   * From `:some_first_step` of the default-scope wizard the next path is the
   * prefixed helper of `SomeSecondStep`, given the default path arguments;
   * the unprefixed `test_wizard_some_second_path` is never asked.
   */
  lemma NextStepPathWithDefaultScope(helpers: UrlHelpers, acronyms: seq<string>, path: string)
    requires EndInCapital(acronyms)
    requires helpers("some_prefix_test_wizard_some_second_path", Some(ScopeArguments())) == Some(path)
    ensures Base.NextStepPath(DefaultScope("some_first_step", helpers), acronyms)
      == Resolve(helpers, "some_prefix_test_wizard_some_second_path", Some(ScopeArguments()))
    ensures Base.NextStepPath(DefaultScope("some_first_step", helpers), acronyms) == Ok(path)
  {
    var cfg := DefaultScope("some_first_step", helpers);
    ScopeFirstNext(helpers);
    SomeSecondHelper(acronyms);
    Base.NextStepPathResolves(cfg, acronyms, Base.StepInstance(SomeFirstStep, map[]),
      "some_second_step", SomeSecondStep,
      "some_prefix_test_wizard_some_second_path", Some(ScopeArguments()), path);
  }

  // ---------------------------------------------------------------------------
  // Logging and `#save`
  // ---------------------------------------------------------------------------

  /**
   * For a current key that builds a step, `current_step` sends the logger a
   * message exactly when `log_condition?` holds.
   */
  method CurrentStepLogs(config: Base.Config, logCondition: bool) returns (logged: bool)
    requires Base.Current(config).Ok?
    ensures logged <==> logCondition
  {
    var wizard := new WizardObject.Wizard(config, logCondition);
    var step := wizard.CurrentStep();
    logged := wizard.infoCalls > 0;
  }

  /**
   * For a current key that builds a step, `next_step_path` sends the logger
   * a message exactly when `log_condition?` holds.
   */
  method NextStepPathLogs(config: Base.Config, logCondition: bool, acronyms: seq<string>) returns (logged: bool)
    requires Base.Current(config).Ok?
    ensures logged <==> logCondition
  {
    var wizard := new WizardObject.Wizard(config, logCondition);
    var path := wizard.NextStepPath(acronyms);
    logged := wizard.infoCalls > 0;
  }

  /**
   * The four logging examples. `AnotherWizard` on its first step, with
   * `log_condition?` stubbed to false, logs neither in `current_step` nor in
   * `next_step_path`. `MyAwesomeCourseSelectionWizard` logs in both: on
   * `:test_go_to_find` with `log_condition?` stubbed to true, and on
   * `:test_do_you_know_which_course` with the class's own `log_condition?`.
   */
  method LoggingExamples(helpers: UrlHelpers, acronyms: seq<string>)
    returns (currentQuiet: bool, currentLogged: bool, nextQuiet: bool, nextLogged: bool)
    ensures !currentQuiet
    ensures currentLogged
    ensures !nextQuiet
    ensures nextLogged
  {
    AnotherFirstNext(helpers);
    MyAwesomeSteps("test_go_to_find");
    MyAwesomeCurrentUnbound("test_go_to_find", TestGoToFindStep, helpers);
    MyAwesomeCurrentUnbound("test_do_you_know_which_course", TestDoYouKnowWhichCourse, helpers);
    currentQuiet := CurrentStepLogs(Another(helpers), false);
    currentLogged := CurrentStepLogs(MyAwesome(Some("test_go_to_find"), map[], helpers), true);
    nextQuiet := NextStepPathLogs(Another(helpers), false, acronyms);
    nextLogged := NextStepPathLogs(MyAwesome(Some("test_do_you_know_which_course"), map[], helpers),
                                   LogCondition(MyAwesomeCourseSelectionWizard).result, acronyms);
  }

  /**
   * `MyAwesomeCourseSelectionWizard#save` returns what its store returns,
   * and its store holds the wizard itself; `AnotherWizard#save` is falsey.
   */
  method SaveThroughStore(helpers: UrlHelpers) returns (saved: Value, storeHoldsWizard: bool, otherSaved: Value)
    ensures saved == Sym("save_from_store_service")
    ensures storeHoldsWizard
    ensures WizardObject.Falsey(otherSaved)
  {
    var wizard := new WizardObject.Wizard(MyAwesome(None, map[], helpers), true);
    saved := wizard.Save();
    storeHoldsWizard := wizard.store != null && wizard.store.wizard == wizard;
    var other := new WizardObject.Wizard(Another(helpers), true);
    otherSaved := other.Save();
  }
}
