# Fluentpro client logic in Dafny

Fluentpro is a SwiftUI language-learning client. Most of its code is view layout. This project models
the parts that are sequential logic:

- the seven-step onboarding machine and its per-step validation (`OnboardingViewModel`);
- the static input validators (`Validators`): email pattern, password rules, phone digit counts, names,
  and the Luhn card check of ISO/IEC 7812-1, Annex B;
- the per-field validators of the sign-up and login view models and of the two authentication screens;
- the mock role matcher and course recommender (`OnboardingMockService`);
- the status-code classification, error-message fallback and bearer-header rule of `NetworkService`
  (RFC 9110 section 15 for the status classes, RFC 6750 section 2.1 for the `Bearer` header);
- the endpoint table (`APIEndpoints`);
- the hex colour parser `Color(hex:)` up to its integer `(a, r, g, b)` tuple;
- the onboarding data container and its two phase predicates (`OnboardingModels`);
- the navigation coordinator's login, logout and session-restore flow over a key-value store;
- the home screen's logout confirmation and stats reset (`HomeViewModel`).

Each source file is one module. On top of them sit three helper modules:

- `Wrappers`: `Option`, `Result`, and an `Outcome` (succeeded or failed with a description) standing for
  the result of an awaited service call.
- `Text`: ASCII character classes, trimming, splitting on spaces, and decimal formatting.
- `Patterns`: hand-coded recognisers for the `NSPredicate` regular expressions. Each is proved equal to
  the expression read as "the string splits into pieces matching the parts".

Objects whose methods update fields are classes with those fields. Each method's `ensures` gives the
whole new state in terms of pure functions of the old state. The pure functions carry the properties as
lemmas.

An `async` service call becomes two methods:

- one for the synchronous part before `Task {`;
- one named `...TaskFinished` that takes the call's outcome.

## Model

| member | source | states |
|---|---|---|
| OnboardingFlow.StepRawRoundTrip | Fluentpro/Features/Onboarding/ViewModels/OnboardingViewModel.swift:7-14 | raw values 0..6 name the seven steps one each; `OnboardingStep(rawValue:)` is defined exactly on 0..6 and inverts `rawValue` |
| OnboardingFlow.RawValue | Fluentpro/Features/Onboarding/ViewModels/OnboardingViewModel.swift:7-14 | every step's raw value lies in 0..6 |
| OnboardingFlow.StepOf | Fluentpro/Features/Onboarding/ViewModels/OnboardingViewModel.swift:7-14 | `OnboardingStep(rawValue:)` gives a step exactly for 0..6, and that step's raw value is the argument |
| OnboardingFlow.Successor | Fluentpro/Features/Onboarding/ViewModels/OnboardingViewModel.swift:84-92 | no step follows `completion`; every other step is followed by the step whose raw value is one higher |
| OnboardingFlow.Predecessor | Fluentpro/Features/Onboarding/ViewModels/OnboardingViewModel.swift:95-100 | no step precedes `welcome`; every other step is preceded by the step whose raw value is one lower |
| OnboardingFlow.StepsMoveByOne | Fluentpro/Features/Onboarding/ViewModels/OnboardingViewModel.swift:84-100 | the next step has raw value + 1 and exists except at `completion`; the previous step has raw value − 1 and exists except at `welcome` |
| OnboardingFlow.ForwardBackInverse | Fluentpro/Features/Onboarding/ViewModels/OnboardingViewModel.swift:84-100 | going back undoes going forward and vice versa |
| OnboardingFlow.ValidationCases | Fluentpro/Features/Onboarding/ViewModels/OnboardingViewModel.swift:177-206 | `canProceed` holds at the language, level and goals steps iff the language is set, the level is set, the goals are non-empty, and at every other step; the skip button shows exactly at goals, daily goal and notifications |
| OnboardingFlow.ValidateStep | Fluentpro/Features/Onboarding/ViewModels/OnboardingViewModel.swift:177-206 | definition: the switch of `validateCurrentStep`, giving `canProceed` and `showSkipButton` for each step from its selection; its cases are stated by `ValidationCases` |
| OnboardingFlow.OnboardingViewModel.Validated | Fluentpro/Features/Onboarding/ViewModels/OnboardingViewModel.swift:208-215 | definition: `validateCurrentStep` applied to the current step, language, level and goals, as `updateStepValidation` passes them |
| OnboardingFlow.SkipOnGoalsNeedsAGoal | Fluentpro/Features/Onboarding/ViewModels/OnboardingViewModel.swift:102-105 | at the goals step with no goal the skip button shows but `canProceed` is false, so skipping cannot advance |
| OnboardingFlow.ToggleFlipsOne | Fluentpro/Features/Onboarding/ViewModels/OnboardingViewModel.swift:115-121 | one toggle flips exactly the toggled goal's membership; toggling twice restores the set |
| OnboardingFlow.Toggled | Fluentpro/Features/Onboarding/ViewModels/OnboardingViewModel.swift:115-121 | the toggled goal's membership is flipped, and the set is otherwise unchanged |
| OnboardingFlow.OnboardingViewModel.constructor | Fluentpro/Features/Onboarding/ViewModels/OnboardingViewModel.swift:56-81 | starts on `welcome` with the defaults (15 minutes, notifications on, time now); the validation subscription runs at once, so `canProceed` is true and the skip button hidden |
| OnboardingFlow.OnboardingViewModel.UpdateStepValidation | Fluentpro/Features/Onboarding/ViewModels/OnboardingViewModel.swift:208-215 | both flags equal the validation of the current step and selections |
| OnboardingFlow.OnboardingViewModel.NextStep | Fluentpro/Features/Onboarding/ViewModels/OnboardingViewModel.swift:84-93 | no change when `canProceed` is false; otherwise one step forward, or at `completion` the save starts; the flags stay validated; on `completion` both force-unwrapped selections are present |
| OnboardingFlow.OnboardingViewModel.PreviousStep | Fluentpro/Features/Onboarding/ViewModels/OnboardingViewModel.swift:95-100 | no-op at `welcome`, otherwise exactly one step back; the invariant is kept |
| OnboardingFlow.OnboardingViewModel.SkipStep | Fluentpro/Features/Onboarding/ViewModels/OnboardingViewModel.swift:102-105 | without the skip button, or when it cannot proceed, nothing changes; otherwise it moves to the successor step |
| OnboardingFlow.OnboardingViewModel.SelectLanguage | Fluentpro/Features/Onboarding/ViewModels/OnboardingViewModel.swift:107-109 | the language is set and the flags are revalidated |
| OnboardingFlow.OnboardingViewModel.SelectProficiencyLevel | Fluentpro/Features/Onboarding/ViewModels/OnboardingViewModel.swift:111-113 | the level is set and the flags are revalidated |
| OnboardingFlow.OnboardingViewModel.ToggleGoal | Fluentpro/Features/Onboarding/ViewModels/OnboardingViewModel.swift:115-121 | the goals become the toggled set and the flags are revalidated |
| OnboardingFlow.OnboardingViewModel.SetDailyGoal | Fluentpro/Features/Onboarding/ViewModels/OnboardingViewModel.swift:123-125 | stores the minutes unchecked |
| OnboardingFlow.OnboardingViewModel.ToggleNotifications | Fluentpro/Features/Onboarding/ViewModels/OnboardingViewModel.swift:127-129 | flips the notifications switch |
| OnboardingFlow.OnboardingViewModel.CompleteOnboarding | Fluentpro/Features/Onboarding/ViewModels/OnboardingViewModel.swift:131-134 | loading starts and the error clears |
| OnboardingFlow.OnboardingViewModel.SaveTaskFinished | Fluentpro/Features/Onboarding/ViewModels/OnboardingViewModel.swift:136-159 | the saved preferences carry the unwrapped selections; success sets `isOnboardingComplete`; failure sets `"Failed to save preferences: "` plus the description; loading ends either way |
| Validators.IsValidEmail | Fluentpro/Core/Utils/Validators.swift:8-12 | accepts exactly the strings the email pattern matches, with an unbounded final letter run |
| Validators.ValidEmailShape | Fluentpro/Core/Utils/Validators.swift:8-12 | an accepted address has exactly one `@`, does not start with it, and ends in a last `.` followed only by two or more letters |
| Patterns.MatchesEmailIsRegex | Fluentpro/Core/Utils/Validators.swift:9-11 | the recogniser (first `@`, last `.`) accepts exactly what the pattern matches for some choice of split points |
| Patterns.AcceptedEmailShape | Fluentpro/Core/Utils/Validators.swift:9-11 | the shape of an accepted address, for either bound on the final letters |
| Patterns.MatchesSomewhereIsRegex | Fluentpro/Features/Authentication/ViewModels/SignUpViewModel.swift:197-222 | `.*[P].*` matches iff some character is in the class and no character is a line terminator |
| Patterns.MatchesSomewhereIsRunRegex | Fluentpro/Features/Authentication/ViewModels/SignUpViewModel.swift:197-222 | `.*[P]+.*` matches the same strings as the recogniser |
| Validators.ValidatePassword | Fluentpro/Core/Utils/Validators.swift:20-58 | the error list is that of the enabled rules that fail, in rule order; `isValid` iff the list is empty |
| Validators.FailedUpToMembers | Fluentpro/Core/Utils/Validators.swift:26-55 | a message is in the list after the first n rules iff one of them is enabled, fails and has that message |
| Validators.PasswordErrorsExact | Fluentpro/Core/Utils/Validators.swift:26-55 | each rule's message is reported iff the rule is enabled and fails; at most five messages |
| Validators.PasswordValidIff | Fluentpro/Core/Utils/Validators.swift:57 | valid iff every enabled rule passes |
| Validators.DisabledRuleSilent | Fluentpro/Core/Utils/Validators.swift:33-55 | a rule whose `require*` flag is off never reports |
| Validators.FailedUpToOrdered | Fluentpro/Core/Utils/Validators.swift:26-55 | of two listed messages, the earlier belongs to the earlier rule |
| Validators.LastRuleReported | Fluentpro/Core/Utils/Validators.swift:26-55 | a message added by the n-th rule belongs to the rule of rank n-1 |
| Validators.ReportedRuleRank | Fluentpro/Core/Utils/Validators.swift:26-55 | a message listed after the first n rules belongs to a rule of rank below n |
| Validators.PasswordErrorsOrdered | Fluentpro/Core/Utils/Validators.swift:26-55 | messages appear in the order length, uppercase, lowercase, number, special |
| Validators.RuleMessagesDistinct | Fluentpro/Core/Utils/Validators.swift:29-55 | no two rules share a message, so a message names its rule |
| Validators.PhoneSeparatorsIgnored | Fluentpro/Core/Utils/Validators.swift:83-85 | characters that are not digits never change the phone verdict |
| Validators.IsValidPhoneNumber | Fluentpro/Core/Utils/Validators.swift:83-94 | an accepted number has 7 to 15 digits once the non-digits are removed, and a US one has 10 or 11 |
| Validators.UsPhoneDigits | Fluentpro/Core/Utils/Validators.swift:86-93 | for `"US"`, valid iff 10 digits, or 11 digits starting with `1` |
| Validators.UsPhoneValidElsewhere | Fluentpro/Core/Utils/Validators.swift:86-93 | a valid US number also meets the 7..15 digit rule of other countries |
| Validators.NamePaddingIgnored | Fluentpro/Core/Utils/Validators.swift:97-110 | leading and trailing whitespace and newlines never change the name verdict |
| Validators.IsValidName | Fluentpro/Core/Utils/Validators.swift:97-110 | definition: the trimmed name is between the two bounds and matches `^[a-zA-Z\s'-]+$`; its shape is stated by `ValidNameShape` |
| Validators.ValidNameShape | Fluentpro/Core/Utils/Validators.swift:97-110 | an accepted name's trimmed form is within the bounds and consists only of letters, whitespace, `'` and `-` |
| Validators.LuhnContribution | Fluentpro/Core/Utils/Validators.swift:131-139 | every contribution lies in 0..9 |
| Validators.LuhnContributionIsDigitSum | Fluentpro/Core/Utils/Validators.swift:135-137 | a doubled digit contributes its digit sum |
| Validators.LuhnContributionInjective | Fluentpro/Core/Utils/Validators.swift:131-139 | at one position, different digits contribute differently |
| Validators.LuhnSumCons | Fluentpro/Core/Utils/Validators.swift:128-141 | a digit added on the left adds its contribution at its own position from the right |
| Validators.IsValidCreditCard | Fluentpro/Core/Utils/Validators.swift:121-144 | valid iff the decimal digits number 13..19 and their Luhn sum is divisible by 10; other characters are ignored |
| Validators.LuhnSumSplit | Fluentpro/Core/Utils/Validators.swift:128-141 | the sum splits around any one digit |
| Validators.LuhnDetectsSingleDigitError | Fluentpro/Core/Utils/Validators.swift:128-143 | two digit strings differing in one digit never have the same sum modulo 10 |
| SignUp.FullNameAccepted | Fluentpro/Features/Authentication/ViewModels/SignUpViewModel.swift:139-165 | accepted iff 2..50 characters, all ASCII letters or spaces; the empty message wins |
| SignUp.FullNameError | Fluentpro/Features/Authentication/ViewModels/SignUpViewModel.swift:139-165 | definition: the message of the first failing rule (empty, under 2, over 50, characters outside `[a-zA-Z ]`), or `""`; what it accepts is stated by `FullNameAccepted` |
| SignUp.EmailError | Fluentpro/Features/Authentication/ViewModels/SignUpViewModel.swift:168-183 | definition: `"Email is required"` when empty, the invalid-address message when the pattern fails, else `""`; what it accepts is stated by `EmailAccepted` |
| SignUp.PasswordError | Fluentpro/Features/Authentication/ViewModels/SignUpViewModel.swift:186-227 | definition: the message of the first failing rule (empty, under 8, then upper-case, lower-case, digit and special patterns), or `""`; what it accepts is stated by `PasswordAccepted` |
| SignUp.ConfirmPasswordError | Fluentpro/Features/Authentication/ViewModels/SignUpViewModel.swift:230-243 | definition: a message when the confirmation is empty or differs from the password, else `""`; what it accepts is stated by `ConfirmPasswordAccepted` |
| SignUp.DateOfBirthError | Fluentpro/Features/Authentication/ViewModels/SignUpViewModel.swift:246-267 | definition: a message when the age is missing, under 13 or over 150, else `""`; what it accepts is stated by `DateOfBirthAccepted` |
| SignUp.EmailAccepted | Fluentpro/Features/Authentication/ViewModels/SignUpViewModel.swift:168-183 | accepted iff the pattern with a 2..64 letter ending matches; the empty message wins |
| SignUp.PasswordAccepted | Fluentpro/Features/Authentication/ViewModels/SignUpViewModel.swift:186-227 | accepted iff at least 8 characters and all four class patterns match; the empty message wins |
| SignUp.PasswordPatternsAreRegexes | Fluentpro/Features/Authentication/ViewModels/SignUpViewModel.swift:197-222 | the four class checks are exactly the four `.*[...]+.*` patterns |
| SignUp.ShortPasswordReportsLength | Fluentpro/Features/Authentication/ViewModels/SignUpViewModel.swift:192-195 | a non-empty password under 8 characters always reports the length message, whatever the later rules find |
| SignUp.LineTerminatorRejectsPassword | Fluentpro/Features/Authentication/ViewModels/SignUpViewModel.swift:197-222 | a line terminator anywhere makes the password fail |
| SignUp.ConfirmPasswordAccepted | Fluentpro/Features/Authentication/ViewModels/SignUpViewModel.swift:230-243 | accepted iff non-empty and equal to the password |
| SignUp.DateOfBirthAccepted | Fluentpro/Features/Authentication/ViewModels/SignUpViewModel.swift:246-267 | accepted iff the age is known and within 13..150; under 13 and over 150 give their own messages |
| SignUp.ValidatorsSpecialIsSignUpSpecial | Fluentpro/Features/Authentication/ViewModels/SignUpViewModel.swift:219 | every special character of the static validator is special here |
| SignUp.ValidatorsAcceptedPasswordAccepted | Fluentpro/Features/Authentication/ViewModels/SignUpViewModel.swift:186-227 | a password accepted by `Validators.validatePassword` with its defaults is accepted here |
| SignUp.UnderscoreOnlyHere | Fluentpro/Features/Authentication/ViewModels/SignUpViewModel.swift:219 | the converse fails: `Abcdefg1_` is accepted here but not by the static validator |
| SignUp.SignUpViewModel.constructor | Fluentpro/Features/Authentication/ViewModels/SignUpViewModel.swift:7-34 | fields start empty at age 0; the undebounced date-of-birth subscription sets the age error at once |
| SignUp.SignUpViewModel.SetDateOfBirth | Fluentpro/Features/Authentication/ViewModels/SignUpViewModel.swift:98-103 | a new date of birth is validated straight away |
| SignUp.SignUpViewModel.ValidateFullName | Fluentpro/Features/Authentication/ViewModels/SignUpViewModel.swift:139-165 | writes the first failing rule's message; returns true iff it wrote `""` |
| SignUp.SignUpViewModel.ValidateEmail | Fluentpro/Features/Authentication/ViewModels/SignUpViewModel.swift:168-183 | writes the first failing rule's message; returns true iff it wrote `""` |
| SignUp.SignUpViewModel.ValidatePassword | Fluentpro/Features/Authentication/ViewModels/SignUpViewModel.swift:186-227 | writes the first failing rule's message; returns true iff it wrote `""` |
| SignUp.SignUpViewModel.ValidateConfirmPassword | Fluentpro/Features/Authentication/ViewModels/SignUpViewModel.swift:230-243 | writes the first failing rule's message; returns true iff it wrote `""` |
| SignUp.SignUpViewModel.ValidateDateOfBirth | Fluentpro/Features/Authentication/ViewModels/SignUpViewModel.swift:246-267 | writes the first failing rule's message; returns true iff it wrote `""` |
| SignUp.SignUpViewModel.ValidateForm | Fluentpro/Features/Authentication/ViewModels/SignUpViewModel.swift:107-136 | all five error slots are refreshed, with no short-circuit; the result is true iff all are empty |
| SignUp.SignUpViewModel.SignUp | Fluentpro/Features/Authentication/ViewModels/SignUpViewModel.swift:37-45 | clears the general error and refreshes every slot; loading starts and the call is made iff the form is valid |
| SignUp.SignUpViewModel.SignUpTaskFinished | Fluentpro/Features/Authentication/ViewModels/SignUpViewModel.swift:48-62 | success sets `isSignUpSuccessful` and clears the form; failure stores the description and changes nothing else; loading ends either way |
| SignUp.SignUpViewModel.ClearForm | Fluentpro/Features/Authentication/ViewModels/SignUpViewModel.swift:279-291 | every field and error back to empty, age back to 0 |
| Login.InputAccepted | Fluentpro/Features/Authentication/ViewModels/LoginViewModel.swift:47-71 | input passes iff the email matches the 2..64 pattern and the password has at least 6 characters |
| Login.InputError | Fluentpro/Features/Authentication/ViewModels/LoginViewModel.swift:47-71 | definition: the message of the first failing check (email empty, email invalid, password empty, password under 6) or none; what it accepts is stated by `InputAccepted` |
| Login.EmailCheckedFirst | Fluentpro/Features/Authentication/ViewModels/LoginViewModel.swift:49-57 | a bad email is reported whatever the password; an empty email gets `"Please enter your email"` |
| Login.SameEmailRuleAsSignUp | Fluentpro/Features/Authentication/ViewModels/LoginViewModel.swift:73-77 | login's email rule accepts the same addresses as sign-up's |
| Login.IsValidEmail | Fluentpro/Features/Authentication/ViewModels/LoginViewModel.swift:73-77 | definition: the regular expression `[A-Z0-9a-z._%+-]+@[A-Za-z0-9.-]+\.[A-Za-z]{2,64}` matches the whole address; stated by `Login.SameEmailRuleAsSignUp` |
| Login.LoginViewModel.constructor | Fluentpro/Features/Authentication/ViewModels/LoginViewModel.swift:7-20 | every field starts empty and false |
| Login.LoginViewModel.ValidateInput | Fluentpro/Features/Authentication/ViewModels/LoginViewModel.swift:47-71 | true iff all four checks pass; otherwise the first failing check's message is stored |
| Login.LoginViewModel.Login | Fluentpro/Features/Authentication/ViewModels/LoginViewModel.swift:23-31 | the message is cleared first; loading starts iff validation passes, otherwise the validation message stays and loading is untouched |
| Login.LoginViewModel.LoginTaskFinished | Fluentpro/Features/Authentication/ViewModels/LoginViewModel.swift:34-43 | success sets `isLoggedIn` and clears the form; failure stores the description; loading ends either way |
| Login.LoginViewModel.ClearForm | Fluentpro/Features/Authentication/ViewModels/LoginViewModel.swift:89-93 | email, password and message empty |
| SignUpScreen.ChecksPassIff | Fluentpro/Features/Authentication/Views/SignUpView.swift:260-309 | the screen accepts iff the name has at least 2 characters, the email holds `@` and `.`, the password has at least 8, the confirmation is non-empty and equal, and the age is unknown or at least 13 |
| SignUpScreen.ChecksImplyFilled | Fluentpro/Features/Authentication/Views/SignUpView.swift:248-258 | the screen's checks pass iff all four text fields are non-empty and none of the five field checks reports a message |
| SignUpScreen.ViewModelIsStricter | Fluentpro/Features/Authentication/Views/SignUpView.swift:260-309 | whatever the view model accepts, the screen accepts |
| SignUpScreen.ScreenAcceptsMore | Fluentpro/Features/Authentication/Views/SignUpView.swift:270-278 | the converse fails: the screen accepts `@.` |
| SignUpScreen.SignUpForm.constructor | Fluentpro/Features/Authentication/Views/SignUpView.swift:4-17 | empty fields, no errors, not loading |
| SignUpScreen.SignUpForm.IsFormValid | Fluentpro/Features/Authentication/Views/SignUpView.swift:248-258 | a valid form has four non-empty text fields; while every error slot is current, the form is valid iff the five checks pass |
| SignUpScreen.SignUpForm.ButtonDisabled | Fluentpro/Features/Authentication/Views/SignUpView.swift:188 | an enabled button means nothing is loading and four text fields are non-empty; with current error slots it is enabled iff nothing is loading and the five checks pass |
| SignUpScreen.SignUpForm.ValidateFullName | Fluentpro/Features/Authentication/Views/SignUpView.swift:260-268 | the slot holds the check's message, or nil |
| SignUpScreen.SignUpForm.ValidateEmail | Fluentpro/Features/Authentication/Views/SignUpView.swift:270-278 | the slot holds the check's message, or nil |
| SignUpScreen.SignUpForm.ValidatePassword | Fluentpro/Features/Authentication/Views/SignUpView.swift:280-288 | the slot holds the check's message, or nil |
| SignUpScreen.SignUpForm.ValidateConfirmPassword | Fluentpro/Features/Authentication/Views/SignUpView.swift:290-298 | the slot is nil iff the confirmation is non-empty and equals the password |
| SignUpScreen.SignUpForm.ValidateDateOfBirth | Fluentpro/Features/Authentication/Views/SignUpView.swift:300-309 | only a known age under 13 is an error |
| SignUpScreen.SignUpForm.EditDateOfBirth | Fluentpro/Features/Authentication/Views/SignUpView.swift:230-240 | a picked date gives the new age, and `Done` leaves the age check's message, or nil; current error slots stay current |
| SignUpScreen.SignUpForm.EditFullName | Fluentpro/Features/Authentication/Views/SignUpView.swift:60-62 | a changed value is re-checked; current error slots stay current |
| SignUpScreen.SignUpForm.EditEmail | Fluentpro/Features/Authentication/Views/SignUpView.swift:83-85 | a changed value is re-checked; current error slots stay current |
| SignUpScreen.SignUpForm.EditPassword | Fluentpro/Features/Authentication/Views/SignUpView.swift:103-106 | a changed password re-runs both the password and the confirmation checks; current error slots stay current |
| SignUpScreen.SignUpForm.EditConfirmPassword | Fluentpro/Features/Authentication/Views/SignUpView.swift:124-126 | a changed confirmation is re-checked; current error slots stay current |
| SignUpScreen.SignUpForm.HandleSignUp | Fluentpro/Features/Authentication/Views/SignUpView.swift:311-324 | all five checks run before the guard; loading starts iff the form is valid, which is iff all checks pass; afterwards every error slot is current |
| SignUpScreen.SignUpForm.SignUpTimerFired | Fluentpro/Features/Authentication/Views/SignUpView.swift:327-332 | loading ends and the screen is dismissed |
| LoginScreen.LoginGuardPasses | Fluentpro/Features/Authentication/Views/LoginView.swift:129-138 | the guards pass iff both fields are non-empty and the email holds `@` and `.` |
| LoginScreen.LoginGuard | Fluentpro/Features/Authentication/Views/LoginView.swift:129-138 | the "fill in all fields" message comes iff a field is empty; the only other message is the invalid-address one |
| LoginScreen.ButtonDisabledFor | Fluentpro/Features/Authentication/Views/LoginView.swift:89 | definition: disabled while loading or while a field is empty; stated by `LoginScreen.EnabledButtonFillsFields` |
| LoginScreen.EnabledButtonFillsFields | Fluentpro/Features/Authentication/Views/LoginView.swift:89 | with the button enabled, the "fill in all fields" message cannot appear |
| LoginScreen.ViewModelIsStricter | Fluentpro/Features/Authentication/Views/LoginView.swift:129-138 | input the view model accepts passes the screen's guards |
| LoginScreen.LoginForm.constructor | Fluentpro/Features/Authentication/Views/LoginView.swift:4-7 | empty fields, no message, not loading |
| LoginScreen.LoginForm.ButtonDisabled | Fluentpro/Features/Authentication/Views/LoginView.swift:89 | an enabled button means nothing is loading and both fields are filled, so the "fill in all fields" message cannot follow |
| LoginScreen.LoginForm.HandleLogin | Fluentpro/Features/Authentication/Views/LoginView.swift:124-141 | a failing guard shows its message and leaves loading alone; passing guards start loading and clear the message |
| LoginScreen.LoginForm.LoginTimerFired | Fluentpro/Features/Authentication/Views/LoginView.swift:144-149 | loading ends with the "not implemented" message |
| OnboardingMock.TitleScoreCases | Fluentpro/Services/OnboardingMockService.swift:232-236 | title score 50 iff equal, 30 iff unequal and one contains the other, else 0; never both |
| OnboardingMock.TitleScore | Fluentpro/Services/OnboardingMockService.swift:232-236 | definition: 50 for equal lower-cased titles, else 30 when either contains the other, else 0; its cases are stated by `TitleScoreCases` |
| OnboardingMock.Score | Fluentpro/Services/OnboardingMockService.swift:229-247 | definition: the title score, plus 2 per distinct shared description word, plus 20 for the same industry or `"Any"`, in hundredths; `ScoreRole` is proved to compute it |
| OnboardingMock.EmptyTitleIsPartial | Fluentpro/Services/OnboardingMockService.swift:234 | an empty title earns the partial score against every non-empty role title |
| OnboardingMock.SharedWordsSymmetric | Fluentpro/Services/OnboardingMockService.swift:239-242 | the shared-word count is symmetric and at most the number of distinct words |
| OnboardingMock.Scores | Fluentpro/Services/OnboardingMockService.swift:228-248 | one score per catalogue role |
| OnboardingMock.ScoresAt | Fluentpro/Services/OnboardingMockService.swift:228-248 | the k-th score is the score of the k-th catalogue role |
| OnboardingMock.KeptMembers | Fluentpro/Services/OnboardingMockService.swift:249-251 | an entry is kept iff it is a role with positive score, stored with its capped score |
| OnboardingMock.KeptEmptyIff | Fluentpro/Services/OnboardingMockService.swift:249-251 | nothing is kept iff every score is 0 |
| OnboardingMock.InsertPermutes | Fluentpro/Services/OnboardingMockService.swift:255 | insertion adds exactly one entry |
| OnboardingMock.InsertKeepsOrder | Fluentpro/Services/OnboardingMockService.swift:255 | insertion keeps the list in non-increasing score order |
| OnboardingMock.SortByScore | Fluentpro/Services/OnboardingMockService.swift:255 | the result is a non-increasing permutation of its input, ties in any order |
| OnboardingMock.CutIsRanked | Fluentpro/Services/OnboardingMockService.swift:255-256 | no entry past the cut outscores one before it |
| OnboardingMock.RankingIsTop | Fluentpro/Services/OnboardingMockService.swift:255-256 | the first three of any ranking of the kept roles are top matches |
| OnboardingMock.TopMatchesProperties | Fluentpro/Services/OnboardingMockService.swift:255-259 | top matches have length min(3, kept), are non-increasing, are drawn from the kept roles, and are never outscored by a kept role left out |
| OnboardingMock.ScoreRole | Fluentpro/Services/OnboardingMockService.swift:229-247 | the loop body's score is title plus 2 per shared word plus industry |
| OnboardingMock.ScoreNext | Fluentpro/Services/OnboardingMockService.swift:228-251 | one turn of the loop extends the roles kept from the first k catalogue roles to those kept from the first k+1 |
| OnboardingMock.KeepNext | Fluentpro/Services/OnboardingMockService.swift:249-251 | the k-th role is appended, with its capped score, exactly when its score is positive |
| OnboardingMock.ScoreCatalogue | Fluentpro/Services/OnboardingMockService.swift:222-252 | the scoring loop returns exactly the positive-scoring catalogue roles, in catalogue order, each with its capped score |
| OnboardingMock.MatchRole | Fluentpro/Services/OnboardingMockService.swift:217-274 | the response's roles are the top three of the kept, capped, ranked roles |
| OnboardingMock.KeptFromCatalogue | Fluentpro/Services/OnboardingMockService.swift:249-251 | a kept role comes from the catalogue with its capped positive score |
| OnboardingMock.MatchedRolesFromCatalogue | Fluentpro/Services/OnboardingMockService.swift:255-272 | at most 3 roles, each a catalogue role with fields preserved and its capped score as confidence; empty iff no role scores above 0 |
| OnboardingMock.RecommendCoursesCases | Fluentpro/Services/OnboardingMockService.swift:282-296 | a known role gets the whole list, not being created, no time; an unknown one gets no courses, being created, `"24-48 hours"` |
| OnboardingMock.RecommendCourses | Fluentpro/Services/OnboardingMockService.swift:277-297 | definition: the whole catalogue for a known role id; for none, no courses, custom courses being created, ready in `"24-48 hours"`; stated by `RecommendCoursesCases` |
| Network.ErrorMessageFallback | Fluentpro/Services/NetworkService.swift:151 | the message is the first present of message, error, detail, else the fallback; `code` is never used |
| Network.ErrorMessage | Fluentpro/Services/NetworkService.swift:151 | the message is the fallback or one of the body's `message`, `error` and `detail` fields |
| Network.ErrorDescription | Fluentpro/Services/NetworkService.swift:21-40 | definition: each error's `errorDescription`, with the status code, the reason or the message after the case's fixed text; the network case and its kinds of cause are stated by `NetworkFailureDescription` |
| Network.NetworkFailureDescription | Fluentpro/Services/NetworkService.swift:33-34 | a session error shows its own description; the service's `NSError(domain: "Invalid response", code: -1)` shows Foundation's sentence `The operation couldn’t be completed. (Invalid response error -1.)` |
| Network.LocalizedDescription | Fluentpro/Services/NetworkService.swift:132 | a session error shows its own description; an `NSError` shows Foundation's sentence, with its domain after the opening and `.)` at the end |
| Network.StatusError | Fluentpro/Services/NetworkService.swift:142-171 | the switch lets a response through iff its status is 2xx; an `httpError` always carries the response's own status and data |
| Network.StatusErrorByClass | Fluentpro/Services/NetworkService.swift:142-171 | 2xx passes iff successful; 401 is `unauthorized`; 5xx is `"Internal server error"`; other 4xx is a server error with the body decoded, else `httpError`; every other code is `httpError` |
| Network.ForbiddenMessage | Fluentpro/Services/NetworkService.swift:148-159 | 403 is always a server error: `"Forbidden: "` plus the message when the body decodes, `"Access forbidden"` otherwise |
| Network.AuthorizationRule | Fluentpro/Services/NetworkService.swift:98-111 | `Authorization: Bearer <token>` is sent iff the endpoint needs authentication and a token is stored; the JSON headers always go; `delete` sends the token whenever one is stored |
| Network.RequiresAuth | Fluentpro/Services/NetworkService.swift:101-107 | only login, sign-up and the Auth0 callback go without a token: they are the authentication endpoints other than refresh and logout |
| Network.DeleteHeaders | Fluentpro/Services/NetworkService.swift:255-258 | `delete` sends the JSON headers, plus `Authorization: Bearer <token>` exactly when a token is stored |
| Network.RequestHeaders | Fluentpro/Services/NetworkService.swift:98-111 | definition: the endpoint's headers, with `Authorization: Bearer <token>` added when the endpoint requires auth and a token is stored; stated by `AuthorizationRule` |
| Network.ResponseResultCases | Fluentpro/Services/NetworkService.swift:128-190 | a status error is thrown as is; 2xx yields the decoded value or `decodingError`; transport failures are wrapped as `networkError`; success implies a 2xx HTTP response |
| Network.ResponseResult | Fluentpro/Services/NetworkService.swift:128-190 | a value is returned only for an HTTP 2xx response whose decoder produced that value |
| Network.DeleteResultCases | Fluentpro/Services/NetworkService.swift:246-273 | any 2xx succeeds and any other code is `httpError(code, nil)`; only a transport failure passes through unwrapped |
| Network.DeleteResult | Fluentpro/Services/NetworkService.swift:264-272 | `delete` succeeds iff the response is HTTP with a 2xx status |
| Network.NetworkService.constructor | Fluentpro/Services/NetworkService.swift:52-55 | the token is the stored one |
| Network.NetworkService.SetAuthToken | Fluentpro/Services/NetworkService.swift:72-74 | the token becomes the argument |
| Network.NetworkService.ClearAuthToken | Fluentpro/Services/NetworkService.swift:80-82 | the token is gone |
| Network.NetworkService.GetAuthToken | Fluentpro/Services/NetworkService.swift:76-78 | definition: the stored token; `SetAuthToken` and `ClearAuthToken` state what it then gives |
| Network.NetworkService.SetHeaderFields | Fluentpro/Services/NetworkService.swift:117-120 | the loop puts every header into the request, and nothing else |
| Network.NetworkService.Request | Fluentpro/Services/NetworkService.swift:85-191 | an unparsable URL throws `invalidURL` and sends nothing; otherwise the request carries the endpoint's URL, method, headers and body, and the result is the response classification |
| Network.NetworkService.Delete | Fluentpro/Services/NetworkService.swift:246-273 | the same for `DELETE`, with the token whenever stored and the 2xx check |
| Endpoints.PathRoundTrip | Fluentpro/Services/APIEndpoints.swift:32-60 | every path routes back to its endpoint, so the path table is injective |
| Endpoints.Path | Fluentpro/Services/APIEndpoints.swift:32-60 | every path is non-empty and starts with `/` |
| Endpoints.UrlInjective | Fluentpro/Services/APIEndpoints.swift:62-65 | no two endpoints share a URL string |
| Endpoints.UrlString | Fluentpro/Services/APIEndpoints.swift:62-65 | definition: base URL, `/`, version and path; its shape is stated by `UrlShape` and its injectivity by `UrlInjective` |
| Endpoints.UrlShape | Fluentpro/Services/APIEndpoints.swift:62-65 | every URL string is `https://api.fluentpro.com/v1` followed by a path that starts with `/`; `getFullURL` is `url` |
| Endpoints.GetFullUrl | Fluentpro/Services/APIEndpoints.swift:105-107 | the full URL is `https://api.fluentpro.com/v1` followed by the endpoint's path |
| Endpoints.LessonPathIsNotFixed | Fluentpro/Services/APIEndpoints.swift:55-56 | a lesson path `"/lessons/" + id` is none of the fixed paths |
| Endpoints.MethodCases | Fluentpro/Services/APIEndpoints.swift:68-77 | POST iff an auth endpoint, PUT iff `updateProfile`, GET for the other four, never DELETE |
| Endpoints.Method | Fluentpro/Services/APIEndpoints.swift:68-77 | POST exactly for the five auth endpoints, and never DELETE |
| Endpoints.HeadersAreJson | Fluentpro/Services/APIEndpoints.swift:80-97 | exactly `Content-Type` and `Accept`, both `application/json`, for every endpoint |
| Endpoints.Headers | Fluentpro/Services/APIEndpoints.swift:80-97 | exactly the keys `Content-Type` and `Accept`, each `application/json` |
| ColorHex.LeadingHex | Fluentpro/Core/Extensions/Color+Extensions.swift:8 | the scanner reads the longest prefix of hex digits |
| ColorHex.ScanHexBound | Fluentpro/Core/Extensions/Color+Extensions.swift:8 | the scanned value is below 16 to the power of the length, so it never overflows 64 bits for the lengths used |
| ColorHex.ScanHex | Fluentpro/Core/Extensions/Color+Extensions.swift:7-8 | definition: the value of the leading hex digits after an optional `0x`, 0 when there are none; bounded by `ScanHexBound` |
| ColorHex.Unpack | Fluentpro/Core/Extensions/Color+Extensions.swift:10-19 | definition: the switch on the digit count, giving 12-bit RGB, 24-bit RGB, 32-bit ARGB or opaque black; its cases are stated by `ThreeDigits`, `SixDigits` and `EightDigits` |
| ColorHex.Channels | Fluentpro/Core/Extensions/Color+Extensions.swift:5-19 | definition: trim the non-alphanumeric ends, scan, and unpack by the trimmed count; its range is stated by `ChannelsInRange` |
| ColorHex.ChannelsInRange | Fluentpro/Core/Extensions/Color+Extensions.swift:10-19 | every channel lies in 0..255; any length other than 3, 6 and 8 gives opaque black |
| ColorHex.DecorationIgnored | Fluentpro/Core/Extensions/Color+Extensions.swift:6 | leading and trailing non-alphanumerics do not change the colour |
| ColorHex.ParsedAsWritten | Fluentpro/Core/Extensions/Color+Extensions.swift:6-10 | `#` and hex digits decode the digits' value by their count |
| ColorHex.ThreeDigits | Fluentpro/Core/Extensions/Color+Extensions.swift:12 | three digits: opaque, each channel its digit times 17 |
| ColorHex.SixDigits | Fluentpro/Core/Extensions/Color+Extensions.swift:14 | six digits: opaque, red, green and blue are the three bytes in order |
| ColorHex.EightDigits | Fluentpro/Core/Extensions/Color+Extensions.swift:16 | eight digits: ARGB, alpha is the first byte |
| ColorHex.ZeroXPrefixIsTransparent | Fluentpro/Core/Extensions/Color+Extensions.swift:6-16 | `0x` and six digits has count 8, so the colour comes out with alpha 0 |
| ColorHex.RgbRoundTrip | Fluentpro/Core/Extensions/Color+Extensions.swift:14 | writing three bytes as `#RRGGBB` reads back those bytes, opaque |
| ColorHex.ArgbRoundTrip | Fluentpro/Core/Extensions/Color+Extensions.swift:16 | writing four bytes as `#AARRGGBB` reads back alpha first, then the colour |
| ColorHex.ShortRoundTrip | Fluentpro/Core/Extensions/Color+Extensions.swift:12 | writing three nibbles as `#RGB` reads back each nibble times 17 |
| ColorHex.EightDigitsAreArgb | Fluentpro/Core/Extensions/Color+Extensions.swift:16 | `#FF000080` is opaque blue 0x80, not the half-transparent red of the CSS Color 4 `#RRGGBBAA` reading |
| OnboardingModels.NewRoleStoresFields | Fluentpro/Models/OnboardingModels.swift:71-77 | `Role.init` stores every field and defaults the task list to empty |
| OnboardingModels.NewRole | Fluentpro/Models/OnboardingModels.swift:71-77 | definition: `Role.init` with an empty task list by default; stated by `OnboardingModels.NewRoleStoresFields` |
| OnboardingModels.Phase1NeedsOnlyItsFields | Fluentpro/Models/OnboardingModels.swift:143-145 | setting language, industry and a non-empty title and description completes phase 1, whatever else the data holds; an empty title undoes it |
| OnboardingModels.IsPhase1Complete | Fluentpro/Models/OnboardingModels.swift:143-145 | definition: language and industry chosen, and title and description non-empty; stated by `Phase1NeedsOnlyItsFields` |
| OnboardingModels.IsPhase2Complete | Fluentpro/Models/OnboardingModels.swift:147-149 | definition: at least six conversation messages and at least one identified need; stated by `Phase2NeedsSixMessages` |
| OnboardingModels.Phase2NeedsSixMessages | Fluentpro/Models/OnboardingModels.swift:147-149 | five messages with needs do not complete phase 2, and a sixth does |
| OnboardingModels.DefaultIsIncomplete | Fluentpro/Models/OnboardingModels.swift:132-141 | the default container completes neither phase |
| Navigation.RestoreCases | Fluentpro/Core/Navigation/NavigationCoordinator.swift:78-108 | resumed iff both keys decode and the token is unexpired; missing iff a key is absent; the launch shows home iff resumed |
| Navigation.Restore | Fluentpro/Core/Navigation/NavigationCoordinator.swift:78-108 | definition: missing when either key is absent, undecodable when either value does not decode, else resumed or expired by the token's expiry; stated by `RestoreCases` |
| Navigation.LaunchView | Fluentpro/Core/Navigation/NavigationCoordinator.swift:90-106 | definition: home for a resumed session, login for an expired one, onboarding otherwise; stated by `RestoreCases` |
| Navigation.LoginSurvivesRelaunch | Fluentpro/Core/Navigation/NavigationCoordinator.swift:90-99 | a saved session comes back while unexpired and is expired afterwards |
| Navigation.ClearedStoreShowsOnboarding | Fluentpro/Core/Navigation/NavigationCoordinator.swift:95-107 | after clearing, a launch finds nothing; after a launch that found the session expired, the next one does not find it expired again |
| Navigation.OtherKeysUntouched | Fluentpro/Core/Navigation/NavigationCoordinator.swift:110-128 | saving and clearing touch only the two session keys |
| Navigation.NavigationCoordinator.constructor | Fluentpro/Core/Navigation/NavigationCoordinator.swift:24-26 | starts signed out, then restores the session: home when resumed, login with a cleared store when expired, onboarding otherwise |
| Navigation.NavigationCoordinator.CheckAuthenticationStatus | Fluentpro/Core/Navigation/NavigationCoordinator.swift:78-108 | the state after restoring at time `now`, case by case |
| Navigation.NavigationCoordinator.NavigateTo | Fluentpro/Core/Navigation/NavigationCoordinator.swift:29-33 | shows the view |
| Navigation.NavigationCoordinator.NavigateToHome | Fluentpro/Core/Navigation/NavigationCoordinator.swift:35-38 | empties the path and shows home |
| Navigation.NavigationCoordinator.NavigateToLogin | Fluentpro/Core/Navigation/NavigationCoordinator.swift:40-43 | empties the path and shows login |
| Navigation.NavigationCoordinator.NavigateToSignUp | Fluentpro/Core/Navigation/NavigationCoordinator.swift:45-47 | shows sign-up |
| Navigation.NavigationCoordinator.NavigateToOnboarding | Fluentpro/Core/Navigation/NavigationCoordinator.swift:49-51 | shows onboarding |
| Navigation.NavigationCoordinator.Login | Fluentpro/Core/Navigation/NavigationCoordinator.swift:54-60 | user and token held, authenticated, both keys saved, home with an empty path |
| Navigation.NavigationCoordinator.Logout | Fluentpro/Core/Navigation/NavigationCoordinator.swift:62-68 | user and token gone, not authenticated, both keys removed, login with an empty path |
| Navigation.NavigationCoordinator.UpdateUser | Fluentpro/Core/Navigation/NavigationCoordinator.swift:70-75 | the user is always replaced; the store is rewritten only while a token is held |
| Navigation.NavigationCoordinator.SaveAuthenticationData | Fluentpro/Core/Navigation/NavigationCoordinator.swift:110-123 | both keys overwritten |
| Navigation.NavigationCoordinator.ClearAuthenticationData | Fluentpro/Core/Navigation/NavigationCoordinator.swift:125-128 | both keys removed |
| HomeScreen.HomeViewModel.constructor | Fluentpro/Features/Home/ViewModels/HomeViewModel.swift:25-34 | the user subscription fires with the current user, then loading starts |
| HomeScreen.HomeViewModel.LoadUserData | Fluentpro/Features/Home/ViewModels/HomeViewModel.swift:37-40 | loading starts and the error clears |
| HomeScreen.HomeViewModel.RefreshUserData | Fluentpro/Features/Home/ViewModels/HomeViewModel.swift:53-55 | the same as `loadUserData` |
| HomeScreen.HomeViewModel.LoadUserDataTaskFinished | Fluentpro/Features/Home/ViewModels/HomeViewModel.swift:41-50 | with a user: the user and default stats; without one: nothing changes; loading ends |
| HomeScreen.HomeViewModel.Logout | Fluentpro/Features/Home/ViewModels/HomeViewModel.swift:57-59 | only shows the confirmation |
| HomeScreen.HomeViewModel.ConfirmLogout | Fluentpro/Features/Home/ViewModels/HomeViewModel.swift:61-68 | logged out, not loading, dialog closed, user data cleared |
| HomeScreen.HomeViewModel.CancelLogout | Fluentpro/Features/Home/ViewModels/HomeViewModel.swift:70-72 | only closes the dialog |
| HomeScreen.HomeViewModel.UpdateUserProfile | Fluentpro/Features/Home/ViewModels/HomeViewModel.swift:74-79 | nothing changes without a user; otherwise loading starts and the error clears |
| HomeScreen.HomeViewModel.UpdateUserProfileTaskFinished | Fluentpro/Features/Home/ViewModels/HomeViewModel.swift:80-84 | loading ends |
| HomeScreen.HomeViewModel.AuthenticatedUserChanged | Fluentpro/Features/Home/ViewModels/HomeViewModel.swift:90-97 | a nil user clears the user data; a user replaces the current one |
| HomeScreen.HomeViewModel.UserUpdated | Fluentpro/Features/Home/ViewModels/HomeViewModel.swift:101-105 | nil updates are dropped; others replace the user |
| HomeScreen.HomeViewModel.LoadUserStats | Fluentpro/Features/Home/ViewModels/HomeViewModel.swift:109-130 | the stats are the defaults |
| HomeScreen.HomeViewModel.ClearUserData | Fluentpro/Features/Home/ViewModels/HomeViewModel.swift:132-139 | no user, default stats (0, 0, `"Beginner"`, 0), empty error |
| Text.TrimClean | Fluentpro/Core/Utils/Validators.swift:98 | a trimmed string neither starts nor ends with a stripped character |
| Text.TrimIdempotent | Fluentpro/Core/Utils/Validators.swift:98 | trimming twice is trimming once |
| Text.NatToStringRoundTrip | Fluentpro/Features/Authentication/ViewModels/SignUpViewModel.swift:256 | the decimal text of a number reads back as that number |

## Left out

- Characters are ASCII. Swift's Unicode `isUppercase`, `isLowercase`, `isNumber`, `isLetter`, the
  alphanumerics character set, and grapheme-cluster `count` become their ASCII counterparts, with one
  `char` per character.
- Regular expressions are modelled as ICU evaluates them: `.` matches no line terminator (`\n`, `\v`, `\f`, `\r`), so a
  `.*[...]+.*` check fails on any string that holds one. `\s` is ICU's `[\t\n\f\r\p{Z}]` read over ASCII.
- Dates, through `Date`, `Calendar`, `DateFormatter` and ISO 8601:
  - the age is an integer input (`None` when the calendar yields no year);
  - time stamps and the token expiry are integers (seconds since an epoch);
  - the "now" of a restore is a parameter.
- Left out of `Validators`:
  - `isValidDate`, `isDateInFuture`, `isDateInPast` and `isDateWithinRange` are date comparisons;
  - `isValidURL` depends on `UIApplication.canOpenURL`, which is a call into the system.
- Validators.IsValidCreditCard: the `Int(String(element))` failure inside the Luhn loop is not modelled. The loop runs only
  over decimal digits, so that failure cannot happen.
- Timers, debounces and printing:
  - `Task.sleep`, `DispatchQueue.asyncAfter` and the 300 ms `debounce` of the sign-up subscriptions are left
    out. The debounced validators are the `Validate*` methods, callable at any time.
  - The delayed blocks of the two screens are the `...TimerFired` methods.
  - The `print` logging of `NetworkService` is left out.
- Concurrency: each `Task { }` body is a separate method run after the synchronous part. Interleavings of
  several pending tasks are not modelled.
- Service calls (`AuthenticationService`, `UserService`, `UserPreferencesService.savePreferences`) become
  an `Outcome` input: success, or failure with the text `handleError`/`localizedDescription` would
  produce. `authenticationService.logout()` and the user service's `getUser`/`updateUser` are not part of
  this model.
- OnboardingFlow.OnboardingViewModel.SaveTaskFinished: the preference goals are a set. The source builds
  `Array(selectedGoals)` in an unspecified order. `requestNotificationPermissions` is left out.
- The step, language, level and goal titles, descriptions, flags and icons are display strings and are
  left out. `OnboardingModels.swift` and `OnboardingViewModel.swift` each declare a top-level
  `enum Language` with different cases. The model keeps the two in separate modules.
- `withAnimation`, and pushes onto `NavigationPath`, are left out. Nothing in the coordinator pushes a
  destination, so the path is only ever emptied.
- `UserDefaults` and JSON:
  - `UserDefaults` is a `map` from keys to stored values.
  - `JSONEncoder`/`JSONDecoder` are taken as faithful: an encoded user or token decodes back to itself and
    encoding never fails.
  - The type `AuthToken` is not part of this model; only its expiry time is read.
  - `NetworkService` keeps its token in a field rather than in `UserDefaults`. This hides a clash in the
    source. `NetworkService.swift:52-55` stores a `String` under the key `"authToken"`:
    - it writes the token with `set`;
    - it reads it back with `string(forKey:)`.

    `NavigationCoordinator.swift` keeps encoded JSON `Data` under the same key:
    - `:81` reads it with `data(forKey:)`;
    - `:119` writes it with `set`;
    - `:127` removes it.

    So each side reads `nil` for a value the other wrote. This model keeps the two stores apart and does
    not show that interaction.
- SignUpScreen.SignUpForm.EditDateOfBirth: the wheel changes the date at once, but the age check runs only on
  `Done`. The model joins the two into one step, so it does not show a picked date whose check has not yet
  run. It also leaves out the sheet's `showDatePicker` flag.
- OnboardingModels.NewRole: `Role.init` defaults its `id` to a fresh random `UUID().uuidString`. The model
  takes the id as an argument instead. Randomness is not modelled, so the model neither promises that
  default ids are distinct nor that they have the UUID format.
- Network.NetworkService.Request: `URLSession`, `URLRequest`, `URL(string:)` and the JSON decoders are inputs:
  - whether the URL string parses;
  - the transport's result: failure, a non-HTTP response, or an HTTP status with body and what each
    decoder produced.
  Encoding errors in `post`/`put` happen before `request` and are not modelled. `get`/`post`/`put` only
  forward to `request`.
- `Color(hex:)`:
  - ColorHex.ScanHexBound: the `UInt64` overflow of `scanHexInt64` is not modelled; the value fits for the
    lengths 3, 6 and 8 that are used.
  - The `Double(x) / 255` conversion to a SwiftUI colour is floating point and is left out.
- `OnboardingMockService`:
  - Scores use integer hundredths in place of the `Double` sums, so floating-point rounding of `0.02 * k`
    is not modelled.
  - The unstable `sort` is modelled as any non-increasing order, with ties in any order.
  - The role and course catalogues are parameters; their fourteen roles and three courses are data.
    Course ratings and lesson outlines are not modelled.
  - The response's roles carry the capped score as their confidence. The source's construction matches
    none of its declarations:
    - `OnboardingMockService.swift:259` and `:272` build `RoleMatchResponse(roles:)`;
    - `RoleMatchResponse` is declared twice, with different fields and neither with `roles`:
      `OnboardingModels.swift:159-163` and `OnboardingAPIModels.swift:118-129`;
    - `OnboardingMockService.swift:263-270` passes `confidence:` to `Role(...)`, and the `Role` of
      `OnboardingModels.swift:64-77` has no such field.

    The model therefore defines `RoleMatchResponse(roles: seq<ScoredRole>)`, which pairs each `Role`
    with its capped score.
  - `Task.sleep` is left out.
- OnboardingMock.EmptyTitleIsPartial: an empty title is taken to be contained in every string, as in the
  mathematical substring relation. If `contains` answers false for an empty needle, the source gives an
  empty title no title score and this lemma does not describe it.
- SwiftUI layout, the other onboarding screens, `AuthenticationService`, the Codable models and the tests
  are not part of this model.
