/**
 * The fixture class names, route names and step names spelt out word by
 * word: string facts that need no inflection. They state nothing about the
 * wizard; they only let the name lemmas of `FixtureNames` meet the general
 * lemmas of `Step` without the verifier evaluating long literals.
 */
module FixtureSpelling {
  lemma NamespaceSpelling()
    ensures "TestWizard" == "Test" + "Wizard"
  {
  }

  lemma NamespaceRouteSpelling()
    ensures "test_wizard" == "test" + ("_" + "wizard")
  {
  }

  lemma TestDoYouKnowWhichCourseSpelling()
    ensures "TestWizard::TestDoYouKnowWhichCourse" == "TestWizard" + "::" + "TestDoYouKnowWhichCourse"
  {
  }

  lemma TestDoYouKnowWhichCourseRouteSpelling()
    ensures "test_wizard_test_do_you_know_which_course" == "test_wizard" + "_" + "test_do_you_know_which_course"
  {
  }

  lemma TestDoYouKnowWhichCourseModelSpelling()
    ensures "TestDoYouKnowWhichCourse" == "Test" + ("Do" + ("You" + ("Know" + ("Which" + "Course"))))
  {
  }

  lemma TestDoYouKnowWhichCourseWordRouteSpelling()
    ensures "test_do_you_know_which_course" == "test" + ("_" + ("do" + ("_" + ("you" + ("_" + ("know" + ("_" + ("which" + ("_" + "course")))))))))
  {
  }

  lemma TestProviderSelectionSpelling()
    ensures "TestWizard::TestProviderSelection" == "TestWizard" + "::" + "TestProviderSelection"
  {
  }

  lemma TestProviderSelectionRouteSpelling()
    ensures "test_wizard_test_provider_selection" == "test_wizard" + "_" + "test_provider_selection"
  {
  }

  lemma TestProviderSelectionModelSpelling()
    ensures "TestProviderSelection" == "Test" + ("Provider" + "Selection")
  {
  }

  lemma TestProviderSelectionWordRouteSpelling()
    ensures "test_provider_selection" == "test" + ("_" + ("provider" + ("_" + "selection")))
  {
  }

  lemma TestGoToFindStepSpelling()
    ensures "TestWizard::TestGoToFindStep" == "TestWizard" + "::" + "TestGoToFind" + "Step"
  {
  }

  lemma TestGoToFindStepRouteSpelling()
    ensures "test_wizard_test_go_to_find" == "test_wizard" + "_" + "test_go_to_find"
  {
  }

  lemma TestGoToFindStepModelSpelling()
    ensures "TestGoToFind" == "Test" + ("Go" + ("To" + "Find"))
  {
  }

  lemma TestGoToFindStepWordRouteSpelling()
    ensures "test_go_to_find" == "test" + ("_" + ("go" + ("_" + ("to" + ("_" + "find")))))
  {
  }

  lemma TestCourseNameSelectionSpelling()
    ensures "TestWizard::TestCourseNameSelection" == "TestWizard" + "::" + "TestCourseNameSelection"
  {
  }

  lemma TestCourseNameSelectionRouteSpelling()
    ensures "test_wizard_test_course_name_selection" == "test_wizard" + "_" + "test_course_name_selection"
  {
  }

  lemma TestCourseNameSelectionModelSpelling()
    ensures "TestCourseNameSelection" == "Test" + ("Course" + ("Name" + "Selection"))
  {
  }

  lemma TestCourseNameSelectionWordRouteSpelling()
    ensures "test_course_name_selection" == "test" + ("_" + ("course" + ("_" + ("name" + ("_" + "selection")))))
  {
  }

  lemma TestCourseStudyModeSelectionSpelling()
    ensures "TestWizard::TestCourseStudyModeSelection" == "TestWizard" + "::" + "TestCourseStudyModeSelection"
  {
  }

  lemma TestCourseStudyModeSelectionRouteSpelling()
    ensures "test_wizard_test_course_study_mode_selection" == "test_wizard" + "_" + "test_course_study_mode_selection"
  {
  }

  lemma TestCourseStudyModeSelectionModelSpelling()
    ensures "TestCourseStudyModeSelection" == "Test" + ("Course" + ("Study" + ("Mode" + "Selection")))
  {
  }

  lemma TestCourseStudyModeSelectionWordRouteSpelling()
    ensures "test_course_study_mode_selection" == "test" + ("_" + ("course" + ("_" + ("study" + ("_" + ("mode" + ("_" + "selection")))))))
  {
  }

  lemma TestCourseSiteSelectionSpelling()
    ensures "TestWizard::TestCourseSiteSelection" == "TestWizard" + "::" + "TestCourseSiteSelection"
  {
  }

  lemma TestCourseSiteSelectionRouteSpelling()
    ensures "test_wizard_test_course_site_selection" == "test_wizard" + "_" + "test_course_site_selection"
  {
  }

  lemma TestCourseSiteSelectionModelSpelling()
    ensures "TestCourseSiteSelection" == "Test" + ("Course" + ("Site" + "Selection"))
  {
  }

  lemma TestCourseSiteSelectionWordRouteSpelling()
    ensures "test_course_site_selection" == "test" + ("_" + ("course" + ("_" + ("site" + ("_" + "selection")))))
  {
  }

  lemma TestFindSelectionSpelling()
    ensures "TestWizard::TestFindSelection" == "TestWizard" + "::" + "TestFindSelection"
  {
  }

  lemma TestFindSelectionRouteSpelling()
    ensures "test_wizard_test_find_selection" == "test_wizard" + "_" + "test_find_selection"
  {
  }

  lemma TestFindSelectionModelSpelling()
    ensures "TestFindSelection" == "Test" + ("Find" + "Selection")
  {
  }

  lemma TestFindSelectionWordRouteSpelling()
    ensures "test_find_selection" == "test" + ("_" + ("find" + ("_" + "selection")))
  {
  }

  lemma TestReviewSpelling()
    ensures "TestWizard::TestReview" == "TestWizard" + "::" + "TestReview"
  {
  }

  lemma TestReviewRouteSpelling()
    ensures "test_wizard_test_review" == "test_wizard" + "_" + "test_review"
  {
  }

  lemma TestReviewModelSpelling()
    ensures "TestReview" == "Test" + "Review"
  {
  }

  lemma TestReviewWordRouteSpelling()
    ensures "test_review" == "test" + ("_" + "review")
  {
  }

  lemma TestAnotherWizardFirstStepSpelling()
    ensures "TestWizard::TestAnotherWizardFirstStep" == "TestWizard" + "::" + "TestAnotherWizardFirst" + "Step"
  {
  }

  lemma TestAnotherWizardFirstStepRouteSpelling()
    ensures "test_wizard_test_another_wizard_first" == "test_wizard" + "_" + "test_another_wizard_first"
  {
  }

  lemma TestAnotherWizardFirstStepModelSpelling()
    ensures "TestAnotherWizardFirst" == "Test" + ("Another" + ("Wizard" + "First"))
  {
  }

  lemma TestAnotherWizardFirstStepWordRouteSpelling()
    ensures "test_another_wizard_first" == "test" + ("_" + ("another" + ("_" + ("wizard" + ("_" + "first")))))
  {
  }

  lemma TestAnotherWizardSecondStepSpelling()
    ensures "TestWizard::TestAnotherWizardSecondStep" == "TestWizard" + "::" + "TestAnotherWizardSecond" + "Step"
  {
  }

  lemma TestAnotherWizardSecondStepRouteSpelling()
    ensures "test_wizard_test_another_wizard_second" == "test_wizard" + "_" + "test_another_wizard_second"
  {
  }

  lemma TestAnotherWizardSecondStepModelSpelling()
    ensures "TestAnotherWizardSecond" == "Test" + ("Another" + ("Wizard" + "Second"))
  {
  }

  lemma TestAnotherWizardSecondStepWordRouteSpelling()
    ensures "test_another_wizard_second" == "test" + ("_" + ("another" + ("_" + ("wizard" + ("_" + "second")))))
  {
  }

  lemma SomeFirstStepSpelling()
    ensures "TestWizard::SomeFirstStep" == "TestWizard" + "::" + "SomeFirst" + "Step"
  {
  }

  lemma SomeFirstStepRouteSpelling()
    ensures "test_wizard_some_first" == "test_wizard" + "_" + "some_first"
  {
  }

  lemma SomeFirstStepModelSpelling()
    ensures "SomeFirst" == "Some" + "First"
  {
  }

  lemma SomeFirstStepWordRouteSpelling()
    ensures "some_first" == "some" + ("_" + "first")
  {
  }

  lemma SomeSecondStepSpelling()
    ensures "TestWizard::SomeSecondStep" == "TestWizard" + "::" + "SomeSecond" + "Step"
  {
  }

  lemma SomeSecondStepRouteSpelling()
    ensures "test_wizard_some_second" == "test_wizard" + "_" + "some_second"
  {
  }

  lemma SomeSecondStepModelSpelling()
    ensures "SomeSecond" == "Some" + "Second"
  {
  }

  lemma SomeSecondStepWordRouteSpelling()
    ensures "some_second" == "some" + ("_" + "second")
  {
  }
}
