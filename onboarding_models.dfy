/**
 * The onboarding value types: languages, industries, catalogue roles and courses, chat messages,
 * and the `OnboardingData` container with its two phase-completion predicates.
 */
module OnboardingModels {
  import opened Wrappers

  datatype Language =
    English | Spanish | French | German | Italian | Portuguese |
    Russian | Chinese | Japanese | Korean | Arabic | Hindi

  datatype Industry =
    Technology | Finance | Healthcare | Retail | Manufacturing | Education |
    Hospitality | Consulting | RealEstate | Marketing | Legal | Logistics

  /** A catalogue role; `id` is whatever identifier the role was created with. */
  datatype Role = Role(id: string, title: string, description: string, industry: string, commonTasks: seq<string>)

  /** `Role.init`: the task list defaults to empty. */
  function NewRole(id: string, title: string, description: string, industry: string, commonTasks: seq<string> := []): Role {
    Role(id, title, description, industry, commonTasks)
  }

  lemma NewRoleStoresFields(id: string, title: string, description: string, industry: string, commonTasks: seq<string>)
    ensures NewRole(id, title, description, industry).commonTasks == []
    ensures var r := NewRole(id, title, description, industry, commonTasks);
      r.id == id && r.title == title && r.description == description && r.industry == industry &&
      r.commonTasks == commonTasks
  {
  }

  /** A course, without its rating and its lesson outlines. */
  datatype Course = Course(id: string, name: string, description: string, functionalLanguage: seq<string>,
                           estimatedDuration: string, level: string)

  datatype CourseRecommendationResponse =
    CourseRecommendationResponse(courses: seq<Course>, customCoursesBeingCreated: bool, estimatedCreationTime: Option<string>)

  /** A chat message, without its identifier and time stamp. */
  datatype ConversationMessage = ConversationMessage(content: string, isUser: bool)

  datatype OnboardingData = OnboardingData(
    nativeLanguage: Option<Language>,
    industry: Option<Industry>,
    roleTitle: string,
    roleDescription: string,
    matchedRole: Option<Role>,
    conversationMessages: seq<ConversationMessage>,
    identifiedNeeds: seq<string>,
    selectedCourse: Option<Course>,
    availableCourses: seq<Course>)

  /** `OnboardingData()`: nothing chosen, everything empty. */
  const DefaultOnboardingData := OnboardingData(None, None, "", "", None, [], [], None, [])

  predicate IsPhase1Complete(d: OnboardingData) {
    d.nativeLanguage.Some? && d.industry.Some? && d.roleTitle != [] && d.roleDescription != []
  }

  predicate IsPhase2Complete(d: OnboardingData) {
    |d.conversationMessages| >= 6 && d.identifiedNeeds != []
  }

  /** Filling in the four first-phase fields completes phase 1, whatever else the data holds. */
  lemma Phase1NeedsOnlyItsFields(d: OnboardingData, language: Language, industry: Industry, title: string, description: string)
    requires title != [] && description != []
    ensures IsPhase1Complete(d.(nativeLanguage := Some(language), industry := Some(industry),
                                 roleTitle := title, roleDescription := description))
    ensures !IsPhase1Complete(d.(roleTitle := []))
  {
  }

  /** Phase 2 does not depend on phase-1 fields, and a sixth message can complete it. */
  lemma Phase2NeedsSixMessages(d: OnboardingData, m: ConversationMessage)
    requires |d.conversationMessages| == 5 && d.identifiedNeeds != []
    ensures !IsPhase2Complete(d)
    ensures IsPhase2Complete(d.(conversationMessages := d.conversationMessages + [m]))
  {
  }

  lemma DefaultIsIncomplete()
    ensures !IsPhase1Complete(DefaultOnboardingData) && !IsPhase2Complete(DefaultOnboardingData)
  {
  }
}
