# dfe-wizard step sequencing, in Dafny

This project models the core of the `dfe-wizard` Ruby gem, which runs
multi-page forms. A wizard is built with:

- a current step key;
- the params posted for each step;
- some attributes of its own.

It looks the key up in its step registry, binds the permitted params to an
instance of the registered step class, and moves to the next or previous
step through the application's named URL helpers. The helper's name comes
from the target class's name.

The modules are:

- `Step`: `DfE::Wizard::Step` (`lib/dfe/wizard/step.rb`).
  - `formatted_name` drops a trailing `::Step`, then the first `Step`.
  - `route_name` is the formatted name underscored, with `/` turned into `_`.
  - `step_name` is the formatted name demodulized. The blank case, where
    ActiveModel raises, is listed under "Left out".
  - `next_route_name` and `previous_route_name` prepend the wizard's default
    path prefix unless it is `nil`.
  - The three path methods ask one URL helper, with the step's path arguments.
  - The base `next_step`, `previous_step` and `permitted_params` raise
    `NotImplementedError`.
- `Inflector` and `CamelCase`: the ActiveSupport string operations these
  names are built from.
  - `sub` and `gsub` with a literal pattern, `tr`, `downcase` and `demodulize`.
  - `underscore` with its acronym inflections and both of its word-break rules.
  - Laws about how these act on CamelCase constant paths.
- `Registry`: a wizard's `steps` block is a list of groups. Lookups search the
  groups merged.
- `TestWizard`: the two fixture files. Each step class overrides some of the
  hooks; the wizards have registries, a store service, a default path prefix
  and default path arguments.
- `Base`: the orchestrator `DfE::Wizard::Base`, reconstructed from its
  examples (`spec/dfe/wizard/base_spec.rb`). It covers:
  - the current step and its bound params;
  - `next_step`, `valid_step?` and `permitted_params`;
  - `next_step_path`, with `MissingStepError` and the `exit` key;
  - `previous_step_path` with its fallback.

  Most cases those examples never reach give a distinct `Unspecified`
  failure, so that nothing is claimed about them. `current_step_name` is
  the exception: it returns the key as given, registered or not.
- `WizardObject`: a wizard instance as a class. Two things are stateful in the
  source, and this class keeps them:
  - how many messages the logger has been sent, gated by `log_condition?`;
  - the store service the wizard builds with itself.
- `FixtureSpelling` and `FixtureNames`: the route and step names of the twelve
  fixture classes, worked out from their CamelCase words.
- `BaseSpec` and `StepSpec`: one lemma or method per example of the two
  specification files.

The URL helpers are a function parameter `(helper name, argument) -> Option<path>`.
`None` stands for a failed helper call, reported as `NoMethodError`. The acronym inflections are a parameter
too:

- General lemmas hold for any acronyms that end in a capital.
- The `DfE::Wizard::Step` examples use the test application's `["DfE"]`.

## Model

| member | source | states |
|---|---|---|
| Step.Invoke | lib/dfe/wizard/step.rb:26-40 | A hook the class does not override raises `NotImplementedError`, and only then. An override that returns `nil` is returned as it is. |
| Step.FormattedName | lib/dfe/wizard/step.rb:18-20 | The formatted name is never longer than the class name. A name holding no `Step` is its own formatted name. |
| Step.StepName | lib/dfe/wizard/step.rb:30-32 | The step name is a tail of the formatted name and holds no `::`. |
| Step.RouteName | lib/dfe/wizard/step.rb:22-24 | A route name never contains `/`. |
| Step.FormattedNameOfPath | lib/dfe/wizard/step.rb:18-20 | Take a CamelCase constant path with no word starting `Step`, with or without a final `Step`. Its formatted name is the path itself. |
| Step.FormattedNameFirstOnly | lib/dfe/wizard/step.rb:18-20 | Only the first `Step` is removed: `…StepStep` keeps one `Step`. |
| Step.FormattedNameOfModuleStep | lib/dfe/wizard/step.rb:18-20 | A final `::Step` segment is removed whole. |
| Step.RouteNameOfPath | lib/dfe/wizard/step.rb:22-24 | The route name of such a class is its words, downcased, all joined by `_`. This holds for any acronyms ending in a capital. |
| Step.StepNameOfPath | lib/dfe/wizard/step.rb:30-32 | The step name of such a class is its last segment, without `Step`. |
| Step.NestedClassNames | lib/dfe/wizard/step.rb:18-32 | For `<Ns>::<Ws><suffix>`: the formatted name drops the suffix, the route name is `snake(Ns)_snake(Ws)`, and the step name is `Ws`. |
| CamelCase.UnderscorePath | lib/dfe/wizard/step.rb:22-24 | `underscore` of a CamelCase path downcases its words, joins them by `_` and its segments by `/`. |
| Step.Compact | lib/dfe/wizard/step.rb:62-68 | `compact` keeps only entries that are present and keeps every one of them. It never lengthens the list. |
| Step.CompactSome | lib/dfe/wizard/step.rb:62-68 | A non-`nil` entry is kept as it is. |
| Step.CompactNone | lib/dfe/wizard/step.rb:62-68 | A `nil` entry is dropped. |
| Step.CompactAppend | lib/dfe/wizard/step.rb:62-68 | `compact` of a concatenation is the concatenation of the two compacts. With the two rows above, this fixes the order and the count of what is kept. |
| Step.PrefixedRouteName | lib/dfe/wizard/step.rb:62-68 | The target's `route_name` always ends the prefixed route name: a prefix can only come before it. |
| Step.CompactJoin | lib/dfe/wizard/step.rb:62-68 | `[prefix, route].compact.join('_')` is the route when the prefix is `nil`, and `prefix_route` otherwise. |
| Step.PrefixedRouteNameIs | lib/dfe/wizard/step.rb:62-68 | With a `nil` prefix the route name is the target's `route_name`. With any other prefix, even an empty one, it is `prefix + "_" + route_name`. |
| Step.DefaultStepPathArguments | lib/dfe/wizard/step.rb:54-60 | The path arguments are the wizard's `default_path_arguments` when it defines that method, and `nil` otherwise. |
| Step.Resolve | lib/dfe/wizard/step.rb:46-52 | A helper call succeeds exactly when the helper exists, and returns its result unchanged. Otherwise it fails with `NoMethodError` naming the helper. |
| Step.NextStepPathIs | lib/dfe/wizard/step.rb:46-48 | The next-step path is `path` exactly when the helper `<prefixed route>_path`, given the next-step arguments, returns `path`. |
| Step.PreviousStepPathIs | lib/dfe/wizard/step.rb:50-52 | The same for the previous-step path, with the previous-step arguments. |
| Step.NextStepPath | lib/dfe/wizard/step.rb:46-48 | On failure the error is `NoMethodError` for `<prefixed route>_path`. On success the path is what that helper returns for the next-step arguments. |
| Step.PreviousStepPath | lib/dfe/wizard/step.rb:50-52 | The same, with the previous-step arguments. |
| Step.NextEditStepPath | lib/dfe/wizard/step.rb:42-44 | On failure the error is `NoMethodError` for `edit_<route_name>_path`. On success the path is that helper's result for the next-step arguments. |
| Step.NextAndPreviousAgree | lib/dfe/wizard/step.rb:62-68 | The next and previous route names are built alike, so the two paths to one class agree whenever the two argument hooks do. |
| Step.NextEditStepPathIs | lib/dfe/wizard/step.rb:42-44 | The edit path asks `edit_<route_name>_path` with the next-step arguments. It is the same whatever the wizard's prefix. |
| Registry.Lookup | spec/support/wizards/wizard_with_default_scope.rb:17-22 | A key is found exactly when the merged groups hold it, with the class they give it. |
| Registry.FlattenKeys | spec/support/wizards/wizard_with_default_scope.rb:17-22 | A key is in the merged registry exactly when some group declares it. |
| Registry.LookupFinds | spec/support/wizards/wizard_with_default_scope.rb:17-22 | When the groups are disjoint, a key resolves to the class that its own group gives it. |
| Registry.LookupMisses | spec/support/wizards/test_wizard.rb:11-13 | A key that no group declares, like `:first_step`, is not found. |
| TestWizard.Get | spec/support/wizards/test_wizard.rb:3 | An attribute reads `nil` until it is assigned. After that it reads its value. |
| TestWizard.NextStepPathArguments | spec/support/wizards/test_wizard.rb:39-41 | `TestProviderSelection` passes `{provider_id:}` from its own attribute. Every other class uses the base arguments. |
| TestWizard.ExitPath | spec/support/wizards/test_wizard.rb:68-70 | Only `TestFindSelection` has an `exit_path`. On any other class it is a missing method. |
| TestWizard.PermittedParamsHook | spec/support/wizards/test_wizard.rb:7-62 | Only `TestDoYouKnowWhichCourse`, `TestProviderSelection` and `TestFindSelection` define `permitted_params`. They permit `[:answer]`, `[:provider_id]` and `[:answer]` respectively. |
| TestWizard.NextStepHook | spec/support/wizards/test_wizard.rb:15-66 | Exactly six classes define `next_step`, counting `TestAnotherWizardFirstStep` and `SomeFirstStep`. Only `TestGoToFindStep` and `TestFindSelection` can answer `nil`. |
| TestWizard.PreviousStepHook | spec/support/wizards/test_wizard.rb:11-33 | Only `TestDoYouKnowWhichCourse`, `TestProviderSelection` and `SomeSecondStep` define `previous_step`. |
| TestWizard.Steps | spec/support/wizards/test_wizard.rb:89-134 | The two wizards of this file declare one group each. The default-scope wizard declares two groups of one key each. |
| TestWizard.DefaultPathPrefix | spec/support/wizards/wizard_with_default_scope.rb:28-30 | Only the default-scope wizard has a prefix, and it is `some_prefix`. |
| TestWizard.Errors | spec/support/wizards/test_wizard.rb:5 | `TestDoYouKnowWhichCourse` has exactly one error, `can't be blank` on `answer`, when `answer` is blank. No other class has errors. |
| TestWizard.DefaultPathArguments | spec/support/wizards/wizard_with_default_scope.rb:24-26 | Only the default-scope wizard defines the default arguments. They are exactly `provider_code`, `recruitment_cycle_year` and `code`, read from its attributes. |
| TestWizard.MyAwesomeStoreService.constructor | spec/support/wizards/test_wizard.rb:79-81 | The store keeps the wizard it is built with. |
| TestWizard.MyAwesomeStoreService.Save | spec/support/wizards/test_wizard.rb:83-85 | `save` returns `:save_from_store_service`. |
| TestWizard.DoYouKnowWhichCourseBranches | spec/support/wizards/test_wizard.rb:15-21 | The next key is `:test_provider_selection` exactly when `answer == 'yes'`, and `:test_go_to_find` exactly when it is not. |
| TestWizard.FindSelectionExits | spec/support/wizards/test_wizard.rb:64-66 | The next key is `:exit` exactly when `answer == 'no'`. Otherwise it is `nil`. |
| TestWizard.HooksRaiseUnlessDefined | spec/support/wizards/test_wizard.rb:2-74 | For each hook (`next_step`, `previous_step`, `permitted_params`), states exactly which classes raise `NotImplementedError`. `TestGoToFindStep#next_step` gives `nil` and does not raise. |
| TestWizard.AnswerPresence | spec/support/wizards/test_wizard.rb:5 | The step is valid exactly when `answer` is not blank. Otherwise the one error is `["can't be blank"]`. |
| TestWizard.StepsDisjoint | spec/support/wizards/test_wizard.rb:89-133 | No key is declared in two groups of any fixture wizard. |
| TestWizard.DefaultScopeRegistry | spec/support/wizards/wizard_with_default_scope.rb:17-22 | Both keys are found although they sit in separate groups, and no other key is. |
| FixtureNames.TestDoYouKnowWhichCourseNames | spec/support/wizards/test_wizard.rb:2 | Route `test_wizard_test_do_you_know_which_course`, step name `TestDoYouKnowWhichCourse`. |
| FixtureNames.TestProviderSelectionNames | spec/support/wizards/test_wizard.rb:24 | Route `test_wizard_test_provider_selection`, step name `TestProviderSelection`. |
| FixtureNames.TestGoToFindStepNames | spec/support/wizards/test_wizard.rb:44 | The class name's `Step` is dropped: route `test_wizard_test_go_to_find`, step name `TestGoToFind`. |
| FixtureNames.TestCourseNameSelectionNames | spec/support/wizards/test_wizard.rb:48 | Route `test_wizard_test_course_name_selection`, step name `TestCourseNameSelection`. |
| FixtureNames.TestCourseStudyModeSelectionNames | spec/support/wizards/test_wizard.rb:51 | Route `test_wizard_test_course_study_mode_selection`. |
| FixtureNames.TestCourseSiteSelectionNames | spec/support/wizards/test_wizard.rb:54 | Route `test_wizard_test_course_site_selection`. |
| FixtureNames.TestFindSelectionNames | spec/support/wizards/test_wizard.rb:57 | Route `test_wizard_test_find_selection`. |
| FixtureNames.TestReviewNames | spec/support/wizards/test_wizard.rb:73 | Route `test_wizard_test_review`. |
| FixtureNames.TestAnotherWizardFirstStepNames | spec/support/wizards/test_wizard.rb:117 | Route `test_wizard_test_another_wizard_first`, step name `TestAnotherWizardFirst`. |
| FixtureNames.TestAnotherWizardSecondStepNames | spec/support/wizards/test_wizard.rb:123 | Route `test_wizard_test_another_wizard_second`. |
| FixtureNames.SomeFirstStepNames | spec/support/wizards/wizard_with_default_scope.rb:2 | Route `test_wizard_some_first`, from the class name and not from the key `:some_first_step`. |
| FixtureNames.SomeSecondStepNames | spec/support/wizards/wizard_with_default_scope.rb:8 | Route `test_wizard_some_second`, from the class name and not from the key `:some_second_step`. |
| Base.View | spec/support/wizards/wizard_with_default_scope.rb:24-30 | A step sees its wizard's URL helpers, its default path prefix, and its default path arguments built from the wizard's attributes. |
| Base.Permit | spec/dfe/wizard/base_spec.rb:111-120 | The bound params are exactly the posted keys that are permitted, with their posted values. |
| Base.CurrentStep | spec/dfe/wizard/base_spec.rb:51-66 | No current step without a key. A step that is built has the class registered under the key. |
| Base.Current | spec/dfe/wizard/base_spec.rb:51-66 | The current step is available exactly when `current_step` builds one. |
| Base.ValidStep | spec/dfe/wizard/base_spec.rb:146-173 | `valid_step?` holds exactly when the current step has no errors. |
| Base.CurrentStepBinds | spec/dfe/wizard/base_spec.rb:111-120 | A key posted with params binds exactly the permitted ones, with their values. |
| Base.CurrentStepUnbound | spec/dfe/wizard/base_spec.rb:60-66 | A registered key with no params gives an instance of its class with no attributes. |
| Base.CurrentStepName | spec/dfe/wizard/base_spec.rb:93-109 | The name is `nil` exactly when `current_step` is `nil`. When a step is built, the name is the key under which its class is registered. |
| Base.MissingStepMessage | spec/dfe/wizard/base_spec.rb:241-249 | The message reads `Next step for `, then the step name of the class, then ` missing.`. |
| Base.NextStepPathMissing | spec/dfe/wizard/base_spec.rb:241-249 | A `nil` next step raises `MissingStepError`. The message is `Next step for <step_name> missing.`. |
| Base.NextStepPath | spec/dfe/wizard/base_spec.rb:238-380 | A path requires a current step whose `next_step` does not raise. `MissingStepError` is raised only when that `next_step` is `nil`. |
| Base.NextStepPathExit | spec/dfe/wizard/base_spec.rb:251-260 | The `:exit` key gives the step's `exit_path`. The result is the same whatever the URL helpers. |
| Base.NextStepPathResolves | spec/dfe/wizard/base_spec.rb:300-379 | A registered next key gives what the target's prefixed helper returns for the next-step arguments. |
| Base.PreviousStepPathFallback | spec/dfe/wizard/base_spec.rb:186-192 | An unregistered previous key gives the fallback. |
| Base.PreviousStepPathResolves | spec/dfe/wizard/base_spec.rb:194-235 | A registered previous key gives what the target's prefixed helper returns for the previous-step arguments, whatever the fallback. |
| Base.PreviousStepPath | spec/dfe/wizard/base_spec.rb:183-236 | A path requires a current step whose `previous_step` does not raise. Without a fallback, a path comes only from a registered previous key. |
| WizardObject.Wizard.constructor | spec/dfe/wizard/base_spec.rb:382-401 | A wizard whose class declares a store gets a fresh store service that holds the wizard itself. Other wizards get none. |
| WizardObject.Wizard.Log | lib/dfe/wizard/logger.rb:13-19 | A logger message is recorded exactly when `log_condition?` is truthy. |
| WizardObject.Wizard.CurrentStep | spec/dfe/wizard/base_spec.rb:68-90 | `current_step` returns the orchestrator's result. It logs when a step is built and `log_condition?` holds. It does not log when `log_condition?` fails or there is no current key. |
| WizardObject.Wizard.NextStepPath | spec/dfe/wizard/base_spec.rb:262-298 | `next_step_path` returns the orchestrator's result. It logs when a current step is built and `log_condition?` holds. It does not log when `log_condition?` fails or there is no current key. |
| WizardObject.Wizard.Save | spec/dfe/wizard/base_spec.rb:382-401 | `save` returns the store's result when there is a store, and a falsey value otherwise. |
| BaseSpec.MyAwesomeSteps | spec/dfe/wizard/base_spec.rb:37-49 | The registry holds exactly the eight declared keys, each mapped to its class. |
| BaseSpec.NoCurrentStep | spec/dfe/wizard/base_spec.rb:52-58 | Without a current step key, `current_step` and `current_step_name` are `nil`. |
| BaseSpec.GoToFindIsCurrent | spec/dfe/wizard/base_spec.rb:60-66 | `:test_go_to_find` builds a `TestGoToFindStep`, and `current_step_name` is that key. |
| BaseSpec.StepParamsAssigned | spec/dfe/wizard/base_spec.rb:111-120 | The posted `answer: 'yes'` is bound to the current step. |
| BaseSpec.NextStepBranches | spec/dfe/wizard/base_spec.rb:122-144 | `yes` leads to `:test_provider_selection`, and `no` to `:test_go_to_find`. |
| BaseSpec.ValidWithAnswer | spec/dfe/wizard/base_spec.rb:149-159 | With an answer the step is valid and has no errors. |
| BaseSpec.InvalidWithoutAnswer | spec/dfe/wizard/base_spec.rb:161-172 | Without params the step is invalid, and `errors[:answer]` is `["can't be blank"]`. |
| BaseSpec.PermittedParamsOfCurrent | spec/dfe/wizard/base_spec.rb:175-181 | The wizard's permitted params are `[:answer]`. |
| BaseSpec.DoYouKnowHelper | spec/dfe/wizard/base_spec.rb:202-203 | `TestDoYouKnowWhichCourse` is reached through `test_wizard_test_do_you_know_which_course_path`. |
| BaseSpec.ProviderSelectionHelper | spec/dfe/wizard/base_spec.rb:308 | `TestProviderSelection` is reached through `test_wizard_test_provider_selection_path`. |
| BaseSpec.GoToFindHelper | spec/dfe/wizard/base_spec.rb:325 | `TestGoToFindStep` is reached through `test_wizard_test_go_to_find_path`. |
| BaseSpec.CourseNameSelectionHelper | spec/dfe/wizard/base_spec.rb:343-345 | `TestCourseNameSelection` is reached through `test_wizard_test_course_name_selection_path`. |
| BaseSpec.AnotherWizardSecondHelper | spec/dfe/wizard/base_spec.rb:288 | `TestAnotherWizardSecondStep` is reached through `test_wizard_test_another_wizard_second_path`. |
| BaseSpec.SomeFirstHelper | spec/dfe/wizard/base_spec.rb:226-227 | Under the default-scope wizard's prefix, `SomeFirstStep` is reached through `some_prefix_test_wizard_some_first_path`. |
| BaseSpec.SomeSecondHelper | spec/dfe/wizard/base_spec.rb:368-372 | `SomeSecondStep` is reached through `some_prefix_test_wizard_some_second_path`, not the unprefixed helper. |
| BaseSpec.GoToFindMissingMessage | spec/dfe/wizard/base_spec.rb:247 | The missing-step message for `TestGoToFindStep` is `Next step for TestGoToFind missing.`. |
| BaseSpec.PreviousStepPathOfFirstPage | spec/dfe/wizard/base_spec.rb:186-192 | On the first page, `previous_step_path(fallback: '/fallback')` is `/fallback`, whatever the URL helpers and acronyms. |
| BaseSpec.PreviousStepPathOfOtherPage | spec/dfe/wizard/base_spec.rb:194-210 | On the provider selection, the previous path is what `test_wizard_test_do_you_know_which_course_path` returns. |
| BaseSpec.PreviousStepPathWithDefaultScope | spec/dfe/wizard/base_spec.rb:212-235 | The result is exactly what `some_prefix_test_wizard_some_first_path` returns for `{provider_code: '1TZ', recruitment_cycle_year: 2025, code: '2T3F'}`. |
| BaseSpec.NextStepPathMissing | spec/dfe/wizard/base_spec.rb:241-249 | `TestGoToFindStep` raises `MissingStepError` with `Next step for TestGoToFind missing.`. |
| BaseSpec.NextStepPathExits | spec/dfe/wizard/base_spec.rb:251-260 | Answering `no` on `TestFindSelection` gives `custom_exit_path`, whatever the URL helpers. |
| BaseSpec.NextStepPathOneBranch | spec/dfe/wizard/base_spec.rb:300-315 | Answering `yes` gives what `test_wizard_test_provider_selection_path` returns. |
| BaseSpec.NextStepPathOtherBranch | spec/dfe/wizard/base_spec.rb:317-332 | Answering `no` gives what `test_wizard_test_go_to_find_path` returns. |
| BaseSpec.NextStepPathWithMoreArguments | spec/dfe/wizard/base_spec.rb:334-352 | From the provider selection, `test_wizard_test_course_name_selection_path` is asked with `{provider_id: 10}`. |
| BaseSpec.NextStepPathOfAnotherWizard | spec/dfe/wizard/base_spec.rb:279-298 | `AnotherWizard` goes from its first step to `test_wizard_test_another_wizard_second_path`. |
| BaseSpec.NextStepPathWithDefaultScope | spec/dfe/wizard/base_spec.rb:354-379 | The result is exactly what `some_prefix_test_wizard_some_second_path` returns for the default arguments. No other helper is consulted. |
| BaseSpec.CurrentStepLogs | spec/dfe/wizard/base_spec.rb:68-90 | For a current key that builds a step, `current_step` logs exactly when `log_condition?` holds. |
| BaseSpec.NextStepPathLogs | spec/dfe/wizard/base_spec.rb:262-298 | For a current key that builds a step, `next_step_path` logs exactly when `log_condition?` holds. |
| BaseSpec.LoggingExamples | spec/dfe/wizard/base_spec.rb:68-298 | `AnotherWizard`, with `log_condition?` stubbed false, logs in neither call. `MyAwesomeCourseSelectionWizard` logs in both: once with the stub set to true, once with the class's own `log_condition?`. |
| BaseSpec.SaveThroughStore | spec/dfe/wizard/base_spec.rb:382-401 | `save` gives `:save_from_store_service`, and the store holds the wizard itself. `AnotherWizard#save` is falsey. |
| StepSpec.AcronymModuleNames | lib/dfe/wizard/step.rb:18-32 | For `<A>::<W>::Step`, with `A` an acronym inflection: the formatted name is `A::W`, the route name is `a_w` with the acronym kept whole, and the step name is `W`. |
| StepSpec.FormattedNameOfBaseStep | spec/dfe/wizard/step_spec.rb:16-20 | `DfE::Wizard::Step.formatted_name` is `DfE::Wizard`. |
| StepSpec.RouteNameOfBaseStep | spec/dfe/wizard/step_spec.rb:22-26 | `DfE::Wizard::Step.route_name` is `dfe_wizard` under the acronym `DfE`. |
| StepSpec.StepNameOfBaseStep | spec/dfe/wizard/step_spec.rb:28-32 | `DfE::Wizard::Step.new.step_name` is `Wizard`. |

## Left out

- `lib/dfe/wizard/base.rb` is not part of this model. The orchestrator follows
  only what `spec/dfe/wizard/base_spec.rb` pins down. The following cases give
  a separate `Unspecified` failure and nothing is proved about them:
  - a current or next key that is not registered. The exception is
    `current_step_name`, which returns the key as given, and whether
    `current_step` logs for such a key is left open;
  - a previous key that is not registered, with no fallback;
  - params posted for a step class without `permitted_params`;
  - duplicate keys across groups (`Registry.Flatten` lets the later group win,
    but no lemma relies on that);
  - the caching of step instances.
- `Step.model_name` and `i18n_key` (ActiveModel naming): only the `name` that
  `step_name` reads is modelled. It is the demodulized formatted name,
  whenever that name is not blank.
- `Step.StepName`: a class whose demodulized formatted name is blank, such as
  `Step` or `Foo::Step::Step`, makes `ActiveModel::Name.new` raise
  `ArgumentError` (`lib/dfe/wizard/step.rb:13`). The model returns `""`
  instead, so the message from `Base.MissingStepMessage` would have an empty
  step name. No class of the fixtures has such a name.
- ActiveModel validation is modelled only as the one presence check the
  fixtures declare.
- `TestWizard.Blank`: treats only ASCII white space as blank, not all Unicode
  space characters.
- `Inflector.DowncaseAll` lowers only the ASCII letters, whereas Ruby's
  `String#downcase` folds all Unicode letters. The same holds for the
  character classes of `underscore`.
- ActionController parameters are plain maps of values. Symbol and string keys
  are not distinguished.
- Rails URL helpers are a function parameter. `None` covers two Rails
  failures: a helper that does not exist (`NoMethodError`), and a helper
  that rejects its arguments (`ActionController::UrlGenerationError`).
  `Step.Resolve` reports both as `NoMethodError` naming the helper.
- The acronym inflections are a parameter. The general lemmas assume every
  acronym ends in a capital.
- Logging is a count of the messages the logger accepts. The following are
  left out:
  - the message text and its ANSI colouring (`lib/dfe/wizard/logger.rb:16-18`);
  - the `@logger ||=` memoization;
  - which other orchestrator calls log.
  - `log_condition?` is given to the wizard object when it is built. This
    stands for the examples' stubs or for the class's own answer
    (`TestWizard.LogCondition`).
- `WizardObject.Wizard.Save`: for a wizard without a store it states only a
  falsey result, which is what the examples check. The model returns `false`.
- `DfE::Wizard::Store` (`lib/dfe/wizard/store.rb`), the abstract base whose
  `save` raises, is not modelled. Only the fixture's store service is.
- `lib/dfe/wizard.rb` only loads the other files.
