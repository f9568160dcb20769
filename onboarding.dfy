/**
 * The onboarding screen: a four-step form whose last step signs the user up,
 * with live validation of an optional referral code.
 */
module Onboarding {
  import opened Tables
  import opened Strings
  import opened Selection
  import opened Store
  import opened Referrals
  import opened Auth

  const TotalSteps := 4

  /** `referralValidation`: `isValid` is null until a code has been checked. */
  datatype ValidationState = ValidationState(isValidating: bool, isValid: Option<bool>, referrerName: string, message: string)

  /** What `onComplete` receives: the new user with the name and goals from the form. */
  datatype CompletedUser = CompletedUser(userId: UserId, name: string, goals: seq<string>)

  const AlreadyRegistered := "An account with this email already exists. Please try signing in instead."
  const InvalidEmailText := "Please enter a valid email address."
  const PasswordText := "Password must be at least 6 characters long."
  const GenericFailure := "Failed to create account. Please try again."

  /** The form as first shown. */
  function InitialUserData(): UserData
  {
    UserData("", "", "", "", "sometimes", "beginner", [], [21], "high")
  }

  function ClearedValidation(): ValidationState
  {
    ValidationState(false, None, "", "")
  }

  /** The message shown for a failed sign-up: the first pattern the error message contains decides. */
  function SignUpErrorMessage(m: string): string
  {
    if Includes(m, "User already registered") then AlreadyRegistered
    else if Includes(m, "Invalid email") then InvalidEmailText
    else if Includes(m, "Password") then PasswordText
    else if Includes(m, "referral") then m
    else GenericFailure
  }

  /** The message shown is one of the four fixed texts, or the error itself when it mentions a referral. */
  lemma ErrorMessageShape(m: string)
    ensures var e := SignUpErrorMessage(m);
      e in {AlreadyRegistered, InvalidEmailText, PasswordText, GenericFailure} || (e == m && Includes(m, "referral"))
  {
  }

  /** Every invalid-code failure mentions a referral, so unless it also matches an earlier pattern it is shown verbatim. */
  lemma InvalidCodeShownVerbatim(message: string)
    ensures Includes("Invalid referral code: " + message, "referral")
    ensures var m := "Invalid referral code: " + message;
      !Includes(m, "User already registered") && !Includes(m, "Invalid email") && !Includes(m, "Password")
      ==> SignUpErrorMessage(m) == m
  {
    var prefix := "Invalid referral code: ";
    assert prefix[8..16] == "referral";
    assert OccursAt(prefix, "referral", 8);
    IncludesPrefix(prefix, message, "referral");
  }

  /** `isStepValid`: step 1 needs a name, an email, a six-character password and no validation in flight. */
  function IsStepValid(step: int, d: UserData, v: ValidationState): (b: bool)
    ensures step == 1 ==> (b <==> !IsBlank(d.name) && !IsBlank(d.email) && |d.password| >= 6 && !v.isValidating)
    ensures step == 3 ==> (b <==> |d.goals| > 0)
    ensures step == 2 || step == 4 ==> b
    ensures !(1 <= step <= 4) ==> !b
  {
    TrimEmptyIffBlank(d.name);
    TrimEmptyIffBlank(d.email);
    if step == 1 then Trim(d.name) != "" && Trim(d.email) != "" && |d.password| >= 6 && !v.isValidating
    else if step == 2 || step == 4 then true
    else if step == 3 then |d.goals| > 0
    else false
  }

  /** The validation state after checking `code`: cleared for blank input, else the validator's verdict. */
  function ValidationStateFor(code: string, reply: Reply<seq<ValidationRow>>): ValidationState
  {
    if ValidationRequest(code).None? then ClearedValidation() else Verdict(ValidateReferralCode(code, reply))
  }

  /** Blank input clears the state; otherwise it shows the validator's verdict and message, and an error is never valid. */
  lemma ValidationStateShape(code: string, reply: Reply<seq<ValidationRow>>)
    ensures var st := ValidationStateFor(code, reply);
      && !st.isValidating
      && (IsBlank(code) ==> st == ClearedValidation())
      && (!IsBlank(code) ==>
            && st.isValid == Some(ValidateReferralCode(code, reply).isValid)
            && st.message == ValidateReferralCode(code, reply).message)
      && (!IsBlank(code) && (reply.Failure? || reply.Exception?) ==> st == ValidationState(false, Some(false), "", UnableMessage))
  {
  }

  /** The state set from a validator result: its verdict, the referrer name or "", and its message. */
  function Verdict(v: ValidationResult): ValidationState
  {
    ValidationState(false, Some(v.isValid), if v.referrerName.Some? then v.referrerName.value else "", v.message)
  }

  class OnboardingFlow {
    var step: int
    var isSubmitting: bool
    var error: string
    var userData: UserData
    var validation: ValidationState

    /** The step indicator stays within the four steps. */
    predicate Valid()
      reads this
    {
      1 <= step <= TotalSteps
    }

    constructor ()
      ensures Valid()
      ensures step == 1 && !isSubmitting && error == ""
      ensures userData == InitialUserData() && validation == ClearedValidation()
    {
      step, isSubmitting, error := 1, false, "";
      userData := InitialUserData();
      validation := ClearedValidation();
    }

    /** The back button is disabled on the first step and while submitting. */
    function BackDisabled(): bool
      reads this
    {
      step == 1 || isSubmitting
    }

    /** The next button is disabled while the step is incomplete or while submitting. */
    function NextDisabled(): bool
      reads this
    {
      !IsStepValid(step, userData, validation) || isSubmitting
    }

    /** Back never leaves step 1, and neither button can be pressed while work is in flight. */
    lemma NavigationGuards()
      ensures step == 1 ==> BackDisabled()
      ensures 1 < step && !isSubmitting ==> !BackDisabled()
      ensures isSubmitting ==> BackDisabled() && NextDisabled()
      ensures step == 1 && validation.isValidating ==> NextDisabled()
      ensures step == 1 && userData == InitialUserData() ==> NextDisabled()
      ensures (step == 2 || step == 4) && !isSubmitting ==> !NextDisabled()
    {
      assert IsBlank(InitialUserData().name);
    }

    /** `handleNext`: advance, or on the last step sign up and report the new user. */
    method HandleNext(store: RemoteStore, replies: SignUpReplies) returns (completed: Option<CompletedUser>)
      requires Valid()
      modifies this, store
      ensures Valid()
      ensures userData == old(userData) && validation == old(validation)
      ensures old(step) < TotalSteps ==>
        step == old(step) + 1 && isSubmitting == old(isSubmitting) && error == "" && completed.None? && store.State() == old(store.State())
      ensures old(step) == TotalSteps ==>
        var run := SignUpSpec(old(store.State()), old(userData), replies);
        && step == TotalSteps && !isSubmitting
        && store.State() == run.state
        && (run.result.SignedUp? ==>
              completed == Some(CompletedUser(run.result.userId, userData.name, userData.goals)) && error == "")
        && (run.result.SignUpFailed? ==> completed.None? && error == SignUpErrorMessage(run.result.message))
    {
      if step < TotalSteps {
        step := step + 1;
        error := "";
        return None;
      }
      completed := Submit(store, replies);
    }

    /** The last step: sign up with the form's data, then report the new user or show the mapped error. */
    method Submit(store: RemoteStore, replies: SignUpReplies) returns (completed: Option<CompletedUser>)
      modifies this, store
      ensures unchanged(this`step, this`userData, this`validation)
      ensures var run := SignUpSpec(old(store.State()), userData, replies);
        && !isSubmitting
        && store.State() == run.state
        && (run.result.SignedUp? ==>
              completed == Some(CompletedUser(run.result.userId, userData.name, userData.goals)) && error == "")
        && (run.result.SignUpFailed? ==> completed.None? && error == SignUpErrorMessage(run.result.message))
    {
      isSubmitting := true;
      error := "";
      var result := SignUp(store, userData, replies);
      match result {
        case SignedUp(id) =>
          completed := Some(CompletedUser(id, userData.name, userData.goals));
        case SignUpFailed(m) =>
          completed := None;
          error := SignUpErrorMessage(m);
      }
      isSubmitting := false;
    }

    /** `handleBack`: go back one step unless on the first. */
    method HandleBack()
      requires Valid()
      modifies this
      ensures Valid()
      ensures old(step) > 1 ==> step == old(step) - 1 && error == ""
      ensures old(step) == 1 ==> step == 1 && error == old(error)
      ensures userData == old(userData) && validation == old(validation) && isSubmitting == old(isSubmitting)
    {
      if step > 1 {
        step := step - 1;
        error := "";
      }
    }

    /** The referral input stores the upper-cased text. */
    method ReferralCodeChanged(value: string)
      modifies this
      ensures userData == old(userData).(referralCode := Upper(value))
      ensures step == old(step) && error == old(error) && isSubmitting == old(isSubmitting) && validation == old(validation)
    {
      userData := userData.(referralCode := Upper(value));
    }

    /** The check in flight: the first step cannot be left until it is answered. */
    method MarkValidating()
      modifies this
      ensures validation == old(validation).(isValidating := true)
      ensures unchanged(this`step, this`error, this`isSubmitting, this`userData)
    {
      validation := validation.(isValidating := true);
    }

    /** `validateReferralCodeInput`, run once the input has settled. */
    method ValidateReferralCodeInput(store: RemoteStore, code: string, reply: Reply<seq<ValidationRow>>)
      modifies this, store
      ensures validation == ValidationStateFor(code, reply)
      ensures store.State() == ValidationStep(old(store.State()), code)
      ensures unchanged(this`step, this`error, this`isSubmitting, this`userData)
    {
      if IsBlank(code) {
        validation := ClearedValidation();
      } else {
        MarkValidating();
        var v := Validate(store, code, reply);
        validation := Verdict(v);
      }
    }

    /** `toggleGoal`. */
    method ToggleGoal(goal: string)
      modifies this
      ensures userData == old(userData).(goals := Toggle(old(userData).goals, goal))
      ensures step == old(step) && error == old(error) && isSubmitting == old(isSubmitting) && validation == old(validation)
    {
      userData := userData.(goals := Toggle(userData.goals, goal));
    }
  }

  /** Goals built by toggling never repeat, so the third step's count is the number of distinct goals chosen. */
  lemma ToggledGoalsDistinct(goals: seq<string>, goal: string)
    requires NoDuplicates(goals)
    ensures NoDuplicates(Toggle(goals, goal))
    ensures goal in goals ==> |Toggle(goals, goal)| == |goals| - 1
    ensures goal !in goals ==> |Toggle(goals, goal)| == |goals| + 1
  {
    ToggleKeepsNoDuplicates(goals, goal);
    if goal in goals {
      var k :| 0 <= k < |goals| && goals[k] == goal;
      ToggleRemovesOne(goals, goal, k);
    }
  }
}
