/**
 * The names of the fixture step classes: each class name is the module
 * `TestWizard` and the class's CamelCase words, so its route name and step
 * name follow from `Step.NestedClassNames`. Each class is worked out in three
 * steps kept apart: the spelling of its strings, the shape of its words, and
 * the names themselves.
 */
module FixtureNames {
  import opened Inflector
  import opened CamelCase
  import opened Step
  import opened TestWizard
  import opened FixtureSpelling

  /** One CamelCase word that does not begin with `Step`, with its down-cased form. */
  lemma Word(w: string, lower: string, k: nat)
    requires |w| >= 2 && IsUpper(w[0]) && forall i :: 1 <= i < |w| ==> IsLower(w[i])
    requires lower == [Downcase(w[0])] + w[1..]
    requires k < |w| && k < |StepWord| && w[k] != StepWord[k]
    ensures CamelWord(w) && DowncaseAll(w) == lower && !StartsWith(w, StepWord)
  {
    WordOf(w, lower);
    NotPrefixAt(w, StepWord, k);
  }

  /** `Step.NestedClassNames`, with the three strings named. */
  lemma NestedNames(name: string, route: string, model: string, ns: seq<string>, ws: seq<string>,
                    suffix: string, acronyms: seq<string>)
    requires ns != [] && CamelWords(ns) && WordsAvoid(ns, StepWord)
    requires ws != [] && CamelWords(ws) && WordsAvoid(ws, StepWord)
    requires suffix == [] || suffix == StepWord
    requires EndInCapital(acronyms)
    requires name == Camel(ns) + "::" + Camel(ws) + suffix
    requires route == Snake(ns) + "_" + Snake(ws)
    requires model == Camel(ws)
    ensures RouteName(name, acronyms) == route && StepName(name) == model
  {
    NestedClassNames(ns, ws, suffix, acronyms);
  }

  /** `NestedNames` for a class whose name does not end in `Step`. */
  lemma PlainNames(name: string, route: string, model: string, ns: seq<string>, ws: seq<string>,
                   acronyms: seq<string>)
    requires ns != [] && CamelWords(ns) && WordsAvoid(ns, StepWord)
    requires ws != [] && CamelWords(ws) && WordsAvoid(ws, StepWord)
    requires EndInCapital(acronyms)
    requires name == Camel(ns) + "::" + Camel(ws)
    requires route == Snake(ns) + "_" + Snake(ws)
    requires model == Camel(ws)
    ensures RouteName(name, acronyms) == route && StepName(name) == model
  {
    assert name == Camel(ns) + "::" + Camel(ws) + [];
    NestedClassNames(ns, ws, [], acronyms);
  }

  lemma Words2(a: string, b: string, la: string, lb: string)
    requires CamelWord(a) && !StartsWith(a, StepWord) && DowncaseAll(a) == la
    requires CamelWord(b) && !StartsWith(b, StepWord) && DowncaseAll(b) == lb
    ensures CamelWords([a, b]) && WordsAvoid([a, b], StepWord)
    ensures Camel([a, b]) == a + b
    ensures Snake([a, b]) == la + ("_" + lb)
  {
    WordsAll([a, b]);
    AvoidAll([a, b], StepWord);
    Camel2(a, b);
    Snake2(a, b);
  }

  lemma Words3(a: string, b: string, c: string, la: string, lb: string, lc: string)
    requires CamelWord(a) && !StartsWith(a, StepWord) && DowncaseAll(a) == la
    requires CamelWord(b) && !StartsWith(b, StepWord) && DowncaseAll(b) == lb
    requires CamelWord(c) && !StartsWith(c, StepWord) && DowncaseAll(c) == lc
    ensures CamelWords([a, b, c]) && WordsAvoid([a, b, c], StepWord)
    ensures Camel([a, b, c]) == a + (b + c)
    ensures Snake([a, b, c]) == la + ("_" + (lb + ("_" + lc)))
  {
    WordsAll([a, b, c]);
    AvoidAll([a, b, c], StepWord);
    Camel3(a, b, c);
    Snake3(a, b, c);
  }

  lemma Words4(a: string, b: string, c: string, d: string, la: string, lb: string, lc: string, ld: string)
    requires CamelWord(a) && !StartsWith(a, StepWord) && DowncaseAll(a) == la
    requires CamelWord(b) && !StartsWith(b, StepWord) && DowncaseAll(b) == lb
    requires CamelWord(c) && !StartsWith(c, StepWord) && DowncaseAll(c) == lc
    requires CamelWord(d) && !StartsWith(d, StepWord) && DowncaseAll(d) == ld
    ensures CamelWords([a, b, c, d]) && WordsAvoid([a, b, c, d], StepWord)
    ensures Camel([a, b, c, d]) == a + (b + (c + d))
    ensures Snake([a, b, c, d]) == la + ("_" + (lb + ("_" + (lc + ("_" + ld)))))
  {
    WordsAll([a, b, c, d]);
    AvoidAll([a, b, c, d], StepWord);
    Camel4(a, b, c, d);
    Snake4(a, b, c, d);
  }

  lemma Words5(a: string, b: string, c: string, d: string, e: string, la: string, lb: string, lc: string, ld: string, le: string)
    requires CamelWord(a) && !StartsWith(a, StepWord) && DowncaseAll(a) == la
    requires CamelWord(b) && !StartsWith(b, StepWord) && DowncaseAll(b) == lb
    requires CamelWord(c) && !StartsWith(c, StepWord) && DowncaseAll(c) == lc
    requires CamelWord(d) && !StartsWith(d, StepWord) && DowncaseAll(d) == ld
    requires CamelWord(e) && !StartsWith(e, StepWord) && DowncaseAll(e) == le
    ensures CamelWords([a, b, c, d, e]) && WordsAvoid([a, b, c, d, e], StepWord)
    ensures Camel([a, b, c, d, e]) == a + (b + (c + (d + e)))
    ensures Snake([a, b, c, d, e]) == la + ("_" + (lb + ("_" + (lc + ("_" + (ld + ("_" + le)))))))
  {
    WordsAll([a, b, c, d, e]);
    AvoidAll([a, b, c, d, e], StepWord);
    Camel5(a, b, c, d, e);
    Snake5(a, b, c, d, e);
  }

  lemma Words6(a: string, b: string, c: string, d: string, e: string, f: string, la: string, lb: string, lc: string, ld: string, le: string, lf: string)
    requires CamelWord(a) && !StartsWith(a, StepWord) && DowncaseAll(a) == la
    requires CamelWord(b) && !StartsWith(b, StepWord) && DowncaseAll(b) == lb
    requires CamelWord(c) && !StartsWith(c, StepWord) && DowncaseAll(c) == lc
    requires CamelWord(d) && !StartsWith(d, StepWord) && DowncaseAll(d) == ld
    requires CamelWord(e) && !StartsWith(e, StepWord) && DowncaseAll(e) == le
    requires CamelWord(f) && !StartsWith(f, StepWord) && DowncaseAll(f) == lf
    ensures CamelWords([a, b, c, d, e, f]) && WordsAvoid([a, b, c, d, e, f], StepWord)
    ensures Camel([a, b, c, d, e, f]) == a + (b + (c + (d + (e + f))))
    ensures Snake([a, b, c, d, e, f]) == la + ("_" + (lb + ("_" + (lc + ("_" + (ld + ("_" + (le + ("_" + lf)))))))))
  {
    WordsAll([a, b, c, d, e, f]);
    AvoidAll([a, b, c, d, e, f], StepWord);
    Camel6(a, b, c, d, e, f);
    Snake6(a, b, c, d, e, f);
  }

  /** The module `TestWizard`. */
  lemma Namespace(t: string, w: string)
    requires t == "Test" && w == "Wizard"
    ensures CamelWords([t, w]) && WordsAvoid([t, w], StepWord)
    ensures Camel([t, w]) == "TestWizard" && Snake([t, w]) == "test_wizard"
  {
    Word(t, "test", 0);
    Word(w, "wizard", 0);
    Words2(t, w, "test", "wizard");
    NamespaceSpelling();
    NamespaceRouteSpelling();
  }

  /** The words of `TestDoYouKnowWhichCourse`. */
  lemma TestDoYouKnowWhichCourseWords(a: string, b: string, c: string, d: string, e: string, f: string)
    requires a == "Test" && b == "Do" && c == "You" && d == "Know" && e == "Which" && f == "Course"
    ensures CamelWords([a, b, c, d, e, f]) && WordsAvoid([a, b, c, d, e, f], StepWord)
    ensures Camel([a, b, c, d, e, f]) == "TestDoYouKnowWhichCourse" && Snake([a, b, c, d, e, f]) == "test_do_you_know_which_course"
  {
    Word(a, "test", 0);
    Word(b, "do", 0);
    Word(c, "you", 0);
    Word(d, "know", 0);
    Word(e, "which", 0);
    Word(f, "course", 0);
    Words6(a, b, c, d, e, f, "test", "do", "you", "know", "which", "course");
    TestDoYouKnowWhichCourseModelSpelling();
    TestDoYouKnowWhichCourseWordRouteSpelling();
  }

  /** The class name and route name of `TestDoYouKnowWhichCourse`, in terms of its words. */
  lemma TestDoYouKnowWhichCourseShape(t: string, w: string, a: string, b: string, c: string, d: string, e: string, f: string)
    requires t == "Test" && w == "Wizard" && a == "Test" && b == "Do" && c == "You" && d == "Know" && e == "Which" && f == "Course"
    ensures CamelWords([t, w]) && WordsAvoid([t, w], StepWord)
    ensures CamelWords([a, b, c, d, e, f]) && WordsAvoid([a, b, c, d, e, f], StepWord)
    ensures "TestWizard::TestDoYouKnowWhichCourse" == Camel([t, w]) + "::" + Camel([a, b, c, d, e, f])
    ensures "test_wizard_test_do_you_know_which_course" == Snake([t, w]) + "_" + Snake([a, b, c, d, e, f])
    ensures "TestDoYouKnowWhichCourse" == Camel([a, b, c, d, e, f])
  {
    Namespace(t, w);
    TestDoYouKnowWhichCourseWords(a, b, c, d, e, f);
    TestDoYouKnowWhichCourseSpelling();
    TestDoYouKnowWhichCourseRouteSpelling();
  }

  /** `TestDoYouKnowWhichCourse` routes as `test_wizard_test_do_you_know_which_course` and is named `TestDoYouKnowWhichCourse`. */
  lemma TestDoYouKnowWhichCourseNames(acronyms: seq<string>)
    requires EndInCapital(acronyms)
    ensures RouteName(ClassName(TestDoYouKnowWhichCourse), acronyms) == "test_wizard_test_do_you_know_which_course"
    ensures StepName(ClassName(TestDoYouKnowWhichCourse)) == "TestDoYouKnowWhichCourse"
  {
    TestDoYouKnowWhichCourseShape("Test", "Wizard", "Test", "Do", "You", "Know", "Which", "Course");
    PlainNames(ClassName(TestDoYouKnowWhichCourse), "test_wizard_test_do_you_know_which_course", "TestDoYouKnowWhichCourse", ["Test", "Wizard"], ["Test", "Do", "You", "Know", "Which", "Course"], acronyms);
  }

  /** The words of `TestProviderSelection`. */
  lemma TestProviderSelectionWords(a: string, b: string, c: string)
    requires a == "Test" && b == "Provider" && c == "Selection"
    ensures CamelWords([a, b, c]) && WordsAvoid([a, b, c], StepWord)
    ensures Camel([a, b, c]) == "TestProviderSelection" && Snake([a, b, c]) == "test_provider_selection"
  {
    Word(a, "test", 0);
    Word(b, "provider", 0);
    Word(c, "selection", 1);
    Words3(a, b, c, "test", "provider", "selection");
    TestProviderSelectionModelSpelling();
    TestProviderSelectionWordRouteSpelling();
  }

  /** The class name and route name of `TestProviderSelection`, in terms of its words. */
  lemma TestProviderSelectionShape(t: string, w: string, a: string, b: string, c: string)
    requires t == "Test" && w == "Wizard" && a == "Test" && b == "Provider" && c == "Selection"
    ensures CamelWords([t, w]) && WordsAvoid([t, w], StepWord)
    ensures CamelWords([a, b, c]) && WordsAvoid([a, b, c], StepWord)
    ensures "TestWizard::TestProviderSelection" == Camel([t, w]) + "::" + Camel([a, b, c])
    ensures "test_wizard_test_provider_selection" == Snake([t, w]) + "_" + Snake([a, b, c])
    ensures "TestProviderSelection" == Camel([a, b, c])
  {
    Namespace(t, w);
    TestProviderSelectionWords(a, b, c);
    TestProviderSelectionSpelling();
    TestProviderSelectionRouteSpelling();
  }

  /** `TestProviderSelection` routes as `test_wizard_test_provider_selection` and is named `TestProviderSelection`. */
  lemma TestProviderSelectionNames(acronyms: seq<string>)
    requires EndInCapital(acronyms)
    ensures RouteName(ClassName(TestProviderSelection), acronyms) == "test_wizard_test_provider_selection"
    ensures StepName(ClassName(TestProviderSelection)) == "TestProviderSelection"
  {
    TestProviderSelectionShape("Test", "Wizard", "Test", "Provider", "Selection");
    PlainNames(ClassName(TestProviderSelection), "test_wizard_test_provider_selection", "TestProviderSelection", ["Test", "Wizard"], ["Test", "Provider", "Selection"], acronyms);
  }

  /** The words of `TestGoToFind`. */
  lemma TestGoToFindStepWords(a: string, b: string, c: string, d: string)
    requires a == "Test" && b == "Go" && c == "To" && d == "Find"
    ensures CamelWords([a, b, c, d]) && WordsAvoid([a, b, c, d], StepWord)
    ensures Camel([a, b, c, d]) == "TestGoToFind" && Snake([a, b, c, d]) == "test_go_to_find"
  {
    Word(a, "test", 0);
    Word(b, "go", 0);
    Word(c, "to", 0);
    Word(d, "find", 0);
    Words4(a, b, c, d, "test", "go", "to", "find");
    TestGoToFindStepModelSpelling();
    TestGoToFindStepWordRouteSpelling();
  }

  /** The class name and route name of `TestGoToFindStep`, in terms of its words. */
  lemma TestGoToFindStepShape(t: string, w: string, a: string, b: string, c: string, d: string)
    requires t == "Test" && w == "Wizard" && a == "Test" && b == "Go" && c == "To" && d == "Find"
    ensures CamelWords([t, w]) && WordsAvoid([t, w], StepWord)
    ensures CamelWords([a, b, c, d]) && WordsAvoid([a, b, c, d], StepWord)
    ensures "TestWizard::TestGoToFindStep" == Camel([t, w]) + "::" + Camel([a, b, c, d]) + StepWord
    ensures "test_wizard_test_go_to_find" == Snake([t, w]) + "_" + Snake([a, b, c, d])
    ensures "TestGoToFind" == Camel([a, b, c, d])
  {
    Namespace(t, w);
    TestGoToFindStepWords(a, b, c, d);
    TestGoToFindStepSpelling();
    TestGoToFindStepRouteSpelling();
  }

  /** `TestGoToFindStep` routes as `test_wizard_test_go_to_find` and is named `TestGoToFind`. */
  lemma TestGoToFindStepNames(acronyms: seq<string>)
    requires EndInCapital(acronyms)
    ensures RouteName(ClassName(TestGoToFindStep), acronyms) == "test_wizard_test_go_to_find"
    ensures StepName(ClassName(TestGoToFindStep)) == "TestGoToFind"
  {
    TestGoToFindStepShape("Test", "Wizard", "Test", "Go", "To", "Find");
    NestedNames(ClassName(TestGoToFindStep), "test_wizard_test_go_to_find", "TestGoToFind", ["Test", "Wizard"], ["Test", "Go", "To", "Find"], StepWord, acronyms);
  }

  /** The words of `TestCourseNameSelection`. */
  lemma TestCourseNameSelectionWords(a: string, b: string, c: string, d: string)
    requires a == "Test" && b == "Course" && c == "Name" && d == "Selection"
    ensures CamelWords([a, b, c, d]) && WordsAvoid([a, b, c, d], StepWord)
    ensures Camel([a, b, c, d]) == "TestCourseNameSelection" && Snake([a, b, c, d]) == "test_course_name_selection"
  {
    Word(a, "test", 0);
    Word(b, "course", 0);
    Word(c, "name", 0);
    Word(d, "selection", 1);
    Words4(a, b, c, d, "test", "course", "name", "selection");
    TestCourseNameSelectionModelSpelling();
    TestCourseNameSelectionWordRouteSpelling();
  }

  /** The class name and route name of `TestCourseNameSelection`, in terms of its words. */
  lemma TestCourseNameSelectionShape(t: string, w: string, a: string, b: string, c: string, d: string)
    requires t == "Test" && w == "Wizard" && a == "Test" && b == "Course" && c == "Name" && d == "Selection"
    ensures CamelWords([t, w]) && WordsAvoid([t, w], StepWord)
    ensures CamelWords([a, b, c, d]) && WordsAvoid([a, b, c, d], StepWord)
    ensures "TestWizard::TestCourseNameSelection" == Camel([t, w]) + "::" + Camel([a, b, c, d])
    ensures "test_wizard_test_course_name_selection" == Snake([t, w]) + "_" + Snake([a, b, c, d])
    ensures "TestCourseNameSelection" == Camel([a, b, c, d])
  {
    Namespace(t, w);
    TestCourseNameSelectionWords(a, b, c, d);
    TestCourseNameSelectionSpelling();
    TestCourseNameSelectionRouteSpelling();
  }

  /** `TestCourseNameSelection` routes as `test_wizard_test_course_name_selection` and is named `TestCourseNameSelection`. */
  lemma TestCourseNameSelectionNames(acronyms: seq<string>)
    requires EndInCapital(acronyms)
    ensures RouteName(ClassName(TestCourseNameSelection), acronyms) == "test_wizard_test_course_name_selection"
    ensures StepName(ClassName(TestCourseNameSelection)) == "TestCourseNameSelection"
  {
    TestCourseNameSelectionShape("Test", "Wizard", "Test", "Course", "Name", "Selection");
    PlainNames(ClassName(TestCourseNameSelection), "test_wizard_test_course_name_selection", "TestCourseNameSelection", ["Test", "Wizard"], ["Test", "Course", "Name", "Selection"], acronyms);
  }

  /** The words of `TestCourseStudyModeSelection`. */
  lemma TestCourseStudyModeSelectionWords(a: string, b: string, c: string, d: string, e: string)
    requires a == "Test" && b == "Course" && c == "Study" && d == "Mode" && e == "Selection"
    ensures CamelWords([a, b, c, d, e]) && WordsAvoid([a, b, c, d, e], StepWord)
    ensures Camel([a, b, c, d, e]) == "TestCourseStudyModeSelection" && Snake([a, b, c, d, e]) == "test_course_study_mode_selection"
  {
    Word(a, "test", 0);
    Word(b, "course", 0);
    Word(c, "study", 2);
    Word(d, "mode", 0);
    Word(e, "selection", 1);
    Words5(a, b, c, d, e, "test", "course", "study", "mode", "selection");
    TestCourseStudyModeSelectionModelSpelling();
    TestCourseStudyModeSelectionWordRouteSpelling();
  }

  /** The class name and route name of `TestCourseStudyModeSelection`, in terms of its words. */
  lemma TestCourseStudyModeSelectionShape(t: string, w: string, a: string, b: string, c: string, d: string, e: string)
    requires t == "Test" && w == "Wizard" && a == "Test" && b == "Course" && c == "Study" && d == "Mode" && e == "Selection"
    ensures CamelWords([t, w]) && WordsAvoid([t, w], StepWord)
    ensures CamelWords([a, b, c, d, e]) && WordsAvoid([a, b, c, d, e], StepWord)
    ensures "TestWizard::TestCourseStudyModeSelection" == Camel([t, w]) + "::" + Camel([a, b, c, d, e])
    ensures "test_wizard_test_course_study_mode_selection" == Snake([t, w]) + "_" + Snake([a, b, c, d, e])
    ensures "TestCourseStudyModeSelection" == Camel([a, b, c, d, e])
  {
    Namespace(t, w);
    TestCourseStudyModeSelectionWords(a, b, c, d, e);
    TestCourseStudyModeSelectionSpelling();
    TestCourseStudyModeSelectionRouteSpelling();
  }

  /** `TestCourseStudyModeSelection` routes as `test_wizard_test_course_study_mode_selection` and is named `TestCourseStudyModeSelection`. */
  lemma TestCourseStudyModeSelectionNames(acronyms: seq<string>)
    requires EndInCapital(acronyms)
    ensures RouteName(ClassName(TestCourseStudyModeSelection), acronyms) == "test_wizard_test_course_study_mode_selection"
    ensures StepName(ClassName(TestCourseStudyModeSelection)) == "TestCourseStudyModeSelection"
  {
    TestCourseStudyModeSelectionShape("Test", "Wizard", "Test", "Course", "Study", "Mode", "Selection");
    PlainNames(ClassName(TestCourseStudyModeSelection), "test_wizard_test_course_study_mode_selection", "TestCourseStudyModeSelection", ["Test", "Wizard"], ["Test", "Course", "Study", "Mode", "Selection"], acronyms);
  }

  /** The words of `TestCourseSiteSelection`. */
  lemma TestCourseSiteSelectionWords(a: string, b: string, c: string, d: string)
    requires a == "Test" && b == "Course" && c == "Site" && d == "Selection"
    ensures CamelWords([a, b, c, d]) && WordsAvoid([a, b, c, d], StepWord)
    ensures Camel([a, b, c, d]) == "TestCourseSiteSelection" && Snake([a, b, c, d]) == "test_course_site_selection"
  {
    Word(a, "test", 0);
    Word(b, "course", 0);
    Word(c, "site", 1);
    Word(d, "selection", 1);
    Words4(a, b, c, d, "test", "course", "site", "selection");
    TestCourseSiteSelectionModelSpelling();
    TestCourseSiteSelectionWordRouteSpelling();
  }

  /** The class name and route name of `TestCourseSiteSelection`, in terms of its words. */
  lemma TestCourseSiteSelectionShape(t: string, w: string, a: string, b: string, c: string, d: string)
    requires t == "Test" && w == "Wizard" && a == "Test" && b == "Course" && c == "Site" && d == "Selection"
    ensures CamelWords([t, w]) && WordsAvoid([t, w], StepWord)
    ensures CamelWords([a, b, c, d]) && WordsAvoid([a, b, c, d], StepWord)
    ensures "TestWizard::TestCourseSiteSelection" == Camel([t, w]) + "::" + Camel([a, b, c, d])
    ensures "test_wizard_test_course_site_selection" == Snake([t, w]) + "_" + Snake([a, b, c, d])
    ensures "TestCourseSiteSelection" == Camel([a, b, c, d])
  {
    Namespace(t, w);
    TestCourseSiteSelectionWords(a, b, c, d);
    TestCourseSiteSelectionSpelling();
    TestCourseSiteSelectionRouteSpelling();
  }

  /** `TestCourseSiteSelection` routes as `test_wizard_test_course_site_selection` and is named `TestCourseSiteSelection`. */
  lemma TestCourseSiteSelectionNames(acronyms: seq<string>)
    requires EndInCapital(acronyms)
    ensures RouteName(ClassName(TestCourseSiteSelection), acronyms) == "test_wizard_test_course_site_selection"
    ensures StepName(ClassName(TestCourseSiteSelection)) == "TestCourseSiteSelection"
  {
    TestCourseSiteSelectionShape("Test", "Wizard", "Test", "Course", "Site", "Selection");
    PlainNames(ClassName(TestCourseSiteSelection), "test_wizard_test_course_site_selection", "TestCourseSiteSelection", ["Test", "Wizard"], ["Test", "Course", "Site", "Selection"], acronyms);
  }

  /** The words of `TestFindSelection`. */
  lemma TestFindSelectionWords(a: string, b: string, c: string)
    requires a == "Test" && b == "Find" && c == "Selection"
    ensures CamelWords([a, b, c]) && WordsAvoid([a, b, c], StepWord)
    ensures Camel([a, b, c]) == "TestFindSelection" && Snake([a, b, c]) == "test_find_selection"
  {
    Word(a, "test", 0);
    Word(b, "find", 0);
    Word(c, "selection", 1);
    Words3(a, b, c, "test", "find", "selection");
    TestFindSelectionModelSpelling();
    TestFindSelectionWordRouteSpelling();
  }

  /** The class name and route name of `TestFindSelection`, in terms of its words. */
  lemma TestFindSelectionShape(t: string, w: string, a: string, b: string, c: string)
    requires t == "Test" && w == "Wizard" && a == "Test" && b == "Find" && c == "Selection"
    ensures CamelWords([t, w]) && WordsAvoid([t, w], StepWord)
    ensures CamelWords([a, b, c]) && WordsAvoid([a, b, c], StepWord)
    ensures "TestWizard::TestFindSelection" == Camel([t, w]) + "::" + Camel([a, b, c])
    ensures "test_wizard_test_find_selection" == Snake([t, w]) + "_" + Snake([a, b, c])
    ensures "TestFindSelection" == Camel([a, b, c])
  {
    Namespace(t, w);
    TestFindSelectionWords(a, b, c);
    TestFindSelectionSpelling();
    TestFindSelectionRouteSpelling();
  }

  /** `TestFindSelection` routes as `test_wizard_test_find_selection` and is named `TestFindSelection`. */
  lemma TestFindSelectionNames(acronyms: seq<string>)
    requires EndInCapital(acronyms)
    ensures RouteName(ClassName(TestFindSelection), acronyms) == "test_wizard_test_find_selection"
    ensures StepName(ClassName(TestFindSelection)) == "TestFindSelection"
  {
    TestFindSelectionShape("Test", "Wizard", "Test", "Find", "Selection");
    PlainNames(ClassName(TestFindSelection), "test_wizard_test_find_selection", "TestFindSelection", ["Test", "Wizard"], ["Test", "Find", "Selection"], acronyms);
  }

  /** The words of `TestReview`. */
  lemma TestReviewWords(a: string, b: string)
    requires a == "Test" && b == "Review"
    ensures CamelWords([a, b]) && WordsAvoid([a, b], StepWord)
    ensures Camel([a, b]) == "TestReview" && Snake([a, b]) == "test_review"
  {
    Word(a, "test", 0);
    Word(b, "review", 0);
    Words2(a, b, "test", "review");
    TestReviewModelSpelling();
    TestReviewWordRouteSpelling();
  }

  /** The class name and route name of `TestReview`, in terms of its words. */
  lemma TestReviewShape(t: string, w: string, a: string, b: string)
    requires t == "Test" && w == "Wizard" && a == "Test" && b == "Review"
    ensures CamelWords([t, w]) && WordsAvoid([t, w], StepWord)
    ensures CamelWords([a, b]) && WordsAvoid([a, b], StepWord)
    ensures "TestWizard::TestReview" == Camel([t, w]) + "::" + Camel([a, b])
    ensures "test_wizard_test_review" == Snake([t, w]) + "_" + Snake([a, b])
    ensures "TestReview" == Camel([a, b])
  {
    Namespace(t, w);
    TestReviewWords(a, b);
    TestReviewSpelling();
    TestReviewRouteSpelling();
  }

  /** `TestReview` routes as `test_wizard_test_review` and is named `TestReview`. */
  lemma TestReviewNames(acronyms: seq<string>)
    requires EndInCapital(acronyms)
    ensures RouteName(ClassName(TestReview), acronyms) == "test_wizard_test_review"
    ensures StepName(ClassName(TestReview)) == "TestReview"
  {
    TestReviewShape("Test", "Wizard", "Test", "Review");
    PlainNames(ClassName(TestReview), "test_wizard_test_review", "TestReview", ["Test", "Wizard"], ["Test", "Review"], acronyms);
  }

  /** The words of `TestAnotherWizardFirst`. */
  lemma TestAnotherWizardFirstStepWords(a: string, b: string, c: string, d: string)
    requires a == "Test" && b == "Another" && c == "Wizard" && d == "First"
    ensures CamelWords([a, b, c, d]) && WordsAvoid([a, b, c, d], StepWord)
    ensures Camel([a, b, c, d]) == "TestAnotherWizardFirst" && Snake([a, b, c, d]) == "test_another_wizard_first"
  {
    Word(a, "test", 0);
    Word(b, "another", 0);
    Word(c, "wizard", 0);
    Word(d, "first", 0);
    Words4(a, b, c, d, "test", "another", "wizard", "first");
    TestAnotherWizardFirstStepModelSpelling();
    TestAnotherWizardFirstStepWordRouteSpelling();
  }

  /** The class name and route name of `TestAnotherWizardFirstStep`, in terms of its words. */
  lemma TestAnotherWizardFirstStepShape(t: string, w: string, a: string, b: string, c: string, d: string)
    requires t == "Test" && w == "Wizard" && a == "Test" && b == "Another" && c == "Wizard" && d == "First"
    ensures CamelWords([t, w]) && WordsAvoid([t, w], StepWord)
    ensures CamelWords([a, b, c, d]) && WordsAvoid([a, b, c, d], StepWord)
    ensures "TestWizard::TestAnotherWizardFirstStep" == Camel([t, w]) + "::" + Camel([a, b, c, d]) + StepWord
    ensures "test_wizard_test_another_wizard_first" == Snake([t, w]) + "_" + Snake([a, b, c, d])
    ensures "TestAnotherWizardFirst" == Camel([a, b, c, d])
  {
    Namespace(t, w);
    TestAnotherWizardFirstStepWords(a, b, c, d);
    TestAnotherWizardFirstStepSpelling();
    TestAnotherWizardFirstStepRouteSpelling();
  }

  /** `TestAnotherWizardFirstStep` routes as `test_wizard_test_another_wizard_first` and is named `TestAnotherWizardFirst`. */
  lemma TestAnotherWizardFirstStepNames(acronyms: seq<string>)
    requires EndInCapital(acronyms)
    ensures RouteName(ClassName(TestAnotherWizardFirstStep), acronyms) == "test_wizard_test_another_wizard_first"
    ensures StepName(ClassName(TestAnotherWizardFirstStep)) == "TestAnotherWizardFirst"
  {
    TestAnotherWizardFirstStepShape("Test", "Wizard", "Test", "Another", "Wizard", "First");
    NestedNames(ClassName(TestAnotherWizardFirstStep), "test_wizard_test_another_wizard_first", "TestAnotherWizardFirst", ["Test", "Wizard"], ["Test", "Another", "Wizard", "First"], StepWord, acronyms);
  }

  /** The words of `TestAnotherWizardSecond`. */
  lemma TestAnotherWizardSecondStepWords(a: string, b: string, c: string, d: string)
    requires a == "Test" && b == "Another" && c == "Wizard" && d == "Second"
    ensures CamelWords([a, b, c, d]) && WordsAvoid([a, b, c, d], StepWord)
    ensures Camel([a, b, c, d]) == "TestAnotherWizardSecond" && Snake([a, b, c, d]) == "test_another_wizard_second"
  {
    Word(a, "test", 0);
    Word(b, "another", 0);
    Word(c, "wizard", 0);
    Word(d, "second", 1);
    Words4(a, b, c, d, "test", "another", "wizard", "second");
    TestAnotherWizardSecondStepModelSpelling();
    TestAnotherWizardSecondStepWordRouteSpelling();
  }

  /** The class name and route name of `TestAnotherWizardSecondStep`, in terms of its words. */
  lemma TestAnotherWizardSecondStepShape(t: string, w: string, a: string, b: string, c: string, d: string)
    requires t == "Test" && w == "Wizard" && a == "Test" && b == "Another" && c == "Wizard" && d == "Second"
    ensures CamelWords([t, w]) && WordsAvoid([t, w], StepWord)
    ensures CamelWords([a, b, c, d]) && WordsAvoid([a, b, c, d], StepWord)
    ensures "TestWizard::TestAnotherWizardSecondStep" == Camel([t, w]) + "::" + Camel([a, b, c, d]) + StepWord
    ensures "test_wizard_test_another_wizard_second" == Snake([t, w]) + "_" + Snake([a, b, c, d])
    ensures "TestAnotherWizardSecond" == Camel([a, b, c, d])
  {
    Namespace(t, w);
    TestAnotherWizardSecondStepWords(a, b, c, d);
    TestAnotherWizardSecondStepSpelling();
    TestAnotherWizardSecondStepRouteSpelling();
  }

  /** `TestAnotherWizardSecondStep` routes as `test_wizard_test_another_wizard_second` and is named `TestAnotherWizardSecond`. */
  lemma TestAnotherWizardSecondStepNames(acronyms: seq<string>)
    requires EndInCapital(acronyms)
    ensures RouteName(ClassName(TestAnotherWizardSecondStep), acronyms) == "test_wizard_test_another_wizard_second"
    ensures StepName(ClassName(TestAnotherWizardSecondStep)) == "TestAnotherWizardSecond"
  {
    TestAnotherWizardSecondStepShape("Test", "Wizard", "Test", "Another", "Wizard", "Second");
    NestedNames(ClassName(TestAnotherWizardSecondStep), "test_wizard_test_another_wizard_second", "TestAnotherWizardSecond", ["Test", "Wizard"], ["Test", "Another", "Wizard", "Second"], StepWord, acronyms);
  }

  /** The words of `SomeFirst`. */
  lemma SomeFirstStepWords(a: string, b: string)
    requires a == "Some" && b == "First"
    ensures CamelWords([a, b]) && WordsAvoid([a, b], StepWord)
    ensures Camel([a, b]) == "SomeFirst" && Snake([a, b]) == "some_first"
  {
    Word(a, "some", 1);
    Word(b, "first", 0);
    Words2(a, b, "some", "first");
    SomeFirstStepModelSpelling();
    SomeFirstStepWordRouteSpelling();
  }

  /** The class name and route name of `SomeFirstStep`, in terms of its words. */
  lemma SomeFirstStepShape(t: string, w: string, a: string, b: string)
    requires t == "Test" && w == "Wizard" && a == "Some" && b == "First"
    ensures CamelWords([t, w]) && WordsAvoid([t, w], StepWord)
    ensures CamelWords([a, b]) && WordsAvoid([a, b], StepWord)
    ensures "TestWizard::SomeFirstStep" == Camel([t, w]) + "::" + Camel([a, b]) + StepWord
    ensures "test_wizard_some_first" == Snake([t, w]) + "_" + Snake([a, b])
    ensures "SomeFirst" == Camel([a, b])
  {
    Namespace(t, w);
    SomeFirstStepWords(a, b);
    SomeFirstStepSpelling();
    SomeFirstStepRouteSpelling();
  }

  /** `SomeFirstStep` routes as `test_wizard_some_first` and is named `SomeFirst`. */
  lemma SomeFirstStepNames(acronyms: seq<string>)
    requires EndInCapital(acronyms)
    ensures RouteName(ClassName(SomeFirstStep), acronyms) == "test_wizard_some_first"
    ensures StepName(ClassName(SomeFirstStep)) == "SomeFirst"
  {
    SomeFirstStepShape("Test", "Wizard", "Some", "First");
    NestedNames(ClassName(SomeFirstStep), "test_wizard_some_first", "SomeFirst", ["Test", "Wizard"], ["Some", "First"], StepWord, acronyms);
  }

  /** The words of `SomeSecond`. */
  lemma SomeSecondStepWords(a: string, b: string)
    requires a == "Some" && b == "Second"
    ensures CamelWords([a, b]) && WordsAvoid([a, b], StepWord)
    ensures Camel([a, b]) == "SomeSecond" && Snake([a, b]) == "some_second"
  {
    Word(a, "some", 1);
    Word(b, "second", 1);
    Words2(a, b, "some", "second");
    SomeSecondStepModelSpelling();
    SomeSecondStepWordRouteSpelling();
  }

  /** The class name and route name of `SomeSecondStep`, in terms of its words. */
  lemma SomeSecondStepShape(t: string, w: string, a: string, b: string)
    requires t == "Test" && w == "Wizard" && a == "Some" && b == "Second"
    ensures CamelWords([t, w]) && WordsAvoid([t, w], StepWord)
    ensures CamelWords([a, b]) && WordsAvoid([a, b], StepWord)
    ensures "TestWizard::SomeSecondStep" == Camel([t, w]) + "::" + Camel([a, b]) + StepWord
    ensures "test_wizard_some_second" == Snake([t, w]) + "_" + Snake([a, b])
    ensures "SomeSecond" == Camel([a, b])
  {
    Namespace(t, w);
    SomeSecondStepWords(a, b);
    SomeSecondStepSpelling();
    SomeSecondStepRouteSpelling();
  }

  /** `SomeSecondStep` routes as `test_wizard_some_second` and is named `SomeSecond`. */
  lemma SomeSecondStepNames(acronyms: seq<string>)
    requires EndInCapital(acronyms)
    ensures RouteName(ClassName(SomeSecondStep), acronyms) == "test_wizard_some_second"
    ensures StepName(ClassName(SomeSecondStep)) == "SomeSecond"
  {
    SomeSecondStepShape("Test", "Wizard", "Some", "Second");
    NestedNames(ClassName(SomeSecondStep), "test_wizard_some_second", "SomeSecond", ["Test", "Wizard"], ["Some", "Second"], StepWord, acronyms);
  }
}
