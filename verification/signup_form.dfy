/**
  The signup form's display rules, as pure functions of the controller's state: when the
  submit button is disabled, what it reads, and when the banner and the warning show.
 */
module SignupForm {
  import opened Password
  import opened Auth

  datatype ButtonLabel = CheckingAccount | CreatingAccount | VerifyCollegeId | SignUp

  /** The submit button is disabled while anything is in flight or while the password fails the rules. */
  predicate SubmitDisabled(s: AuthState) {
    s.isLoading || s.checkingUser || !ValidatePassword(s)
  }

  /** The button text: in-flight texts first, the existence check before the final call. */
  function Label(s: AuthState): (l: ButtonLabel)
    ensures l == CheckingAccount <==> s.checkingUser
    ensures l == CreatingAccount <==> s.isLoading && !s.checkingUser
    ensures l == VerifyCollegeId <==> Idle(s) && !s.isVerified
    ensures l == SignUp <==> Idle(s) && s.isVerified
  {
    if s.isLoading || s.checkingUser then
      if s.checkingUser then CheckingAccount else CreatingAccount
    else if !s.isVerified then VerifyCollegeId
    else SignUp
  }

  /** The green banner confirming the verified ID and role. */
  predicate ShowsVerifiedBanner(s: AuthState) {
    s.isVerified
  }

  /** The warning asking to meet all password requirements. */
  predicate ShowsRequirementsWarning(s: AuthState) {
    !ValidatePassword(s)
  }

  /** Between steps the button is disabled exactly when the warning shows. */
  lemma IdleDisabledIffWarning(s: AuthState)
    requires Idle(s)
    ensures SubmitDisabled(s) <==> ShowsRequirementsWarning(s)
  {
  }

  /** During the existence check the button is disabled and reads "Checking account...". */
  lemma CheckPendingLabel(s: AuthState)
    ensures SubmitDisabled(CheckInFlight(s)) && Label(CheckInFlight(s)) == CheckingAccount
  {
  }

  /** During the final call the button is disabled and reads "Creating account...". */
  lemma FinalPendingLabel(s: AuthState)
    requires !s.checkingUser
    ensures SubmitDisabled(FinalInFlight(s)) && Label(FinalInFlight(s)) == CreatingAccount
  {
  }

  /** With a typed signup password the warning shows exactly when the password misses a rule. */
  lemma WarningTracksRules(s: AuthState)
    requires FlagsCurrent(s) && !s.isLogin && s.password != ""
    ensures ShowsRequirementsWarning(s) <==> !Acceptable(Evaluate(s.password))
  {
  }

  /** A freshly opened signup form shows the warning and a disabled "Verify College ID" button. */
  lemma FreshSignupForm()
    ensures var s := Init(true, Wrappers.None);
      ShowsRequirementsWarning(s) && SubmitDisabled(s) && Label(s) == VerifyCollegeId && !ShowsVerifiedBanner(s)
  {
  }
}
