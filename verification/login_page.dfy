/**
  The login page: it reads the `signup` and `role` query parameters, starts the controller
  with them, and renders the verification step, the login form or the signup form. The
  verification step's `onVerified` prop is the controller's verified handler.
 */
module LoginPage {
  import opened Wrappers
  import opened Types
  import opened Effects
  import opened Auth
  import Password
  import CollegeId

  /** Signup is requested exactly by `signup=true`. */
  function IsSignUp(signup: Option<string>): (b: bool)
    ensures b <==> signup.Some? && signup.value == "true"
  {
    signup == Some("true")
  }

  /** The controller as the page starts it: the role parameter is passed on unchecked. */
  function Mount(signup: Option<string>, role: Option<string>): (s: AuthState)
    ensures s.isLogin <==> !(signup.Some? && signup.value == "true")
    ensures role.Some? && role.value != "" ==> s.role == role.value
    ensures role.None? || role.value == "" ==> s.role == "junior"
    ensures Idle(s) && FlagsCurrent(s) && !s.showVerification
  {
    Init(IsSignUp(signup), role)
  }

  datatype Panel = VerificationPanel | LoginPanel | SignupPanel

  /** The view switch of the page. */
  function PanelOf(s: AuthState): (p: Panel)
    ensures p == VerificationPanel <==> !s.isLogin && s.showVerification
    ensures p == LoginPanel <==> s.isLogin
    ensures p == SignupPanel <==> !s.isLogin && !s.showVerification
  {
    if !s.isLogin && s.showVerification then VerificationPanel
    else if s.isLogin then LoginPanel
    else SignupPanel
  }

  /** Unknown role strings survive: any non-empty value becomes the initial role; an empty one falls back. */
  lemma RoleParameterUnchecked()
    ensures Mount(Some("true"), Some("admin")).role == "admin"
    ensures Mount(None, None).role == "junior" && Mount(None, None).isLogin
    ensures Mount(None, Some("")).role == "junior"
    ensures !Mount(Some("true"), None).isLogin && Mount(Some("TRUE"), None).isLogin
  {
  }

  /** The verified handler does not close the verification panel, so the page keeps showing it. */
  lemma PanelStaysAfterVerified(s: AuthState, collegeId: string, detected: UserRole)
    requires Idle(s) && PanelOf(s) == VerificationPanel
    ensures PanelOf(Step(s, Verified(collegeId, detected)).state) == VerificationPanel
  {
  }

  /** Hands the verification step's callback effects to the controller, in order. */
  function Deliver(s: AuthState, effects: seq<Effect>): (r: AuthState)
    requires Idle(s)
    ensures Idle(r)
    ensures r.isLogin == s.isLogin && r.showVerification == s.showVerification
    ensures r.isVerified <==> s.isVerified || exists i :: 0 <= i < |effects| && effects[i].VerifiedCallback?
    decreases |effects|
  {
    if |effects| == 0 then s
    else
      var next := match effects[0]
        case VerifiedCallback(id, role) => Step(s, Verified(id, role)).state
        case _ => s;
      var r := Deliver(next, effects[1..]);
      assert (exists i :: 0 <= i < |effects| && effects[i].VerifiedCallback?) <==>
        effects[0].VerifiedCallback? || exists i :: 0 <= i < |effects[1..]| && effects[1..][i].VerifiedCallback? by {
        if exists i :: 0 <= i < |effects| && effects[i].VerifiedCallback? {
          var i :| 0 <= i < |effects| && effects[i].VerifiedCallback?;
          if i > 0 { assert effects[1..][i - 1] == effects[i]; }
        }
        if exists i :: 0 <= i < |effects[1..]| && effects[1..][i].VerifiedCallback? {
          var i :| 0 <= i < |effects[1..]| && effects[1..][i].VerifiedCallback?;
          assert effects[i + 1] == effects[1..][i];
        }
      }
      r
  }

  /**
    The signup hand-off: a successful verification step marks the controller verified with
    the typed ID and the derived role, and the page still shows the verification panel.
   */
  lemma VerificationHandOff(s: AuthState, f: CollegeId.IdForm)
    requires Idle(s) && PanelOf(s) == VerificationPanel
    requires !f.isSubmitting && !f.isVerified && f.hasOnVerified
    requires f.collegeId != "" && f.idImage.Some?
    ensures var t := Deliver(s, CollegeId.Step(f, CollegeId.SubmitId(CollegeId.Verifies)).effects);
      t.isVerified && t.collegeId == f.collegeId && t.role == RoleName(CollegeId.DeriveRole(f.collegeId))
      && PanelOf(t) == VerificationPanel
  {
    var fx := CollegeId.Step(f, CollegeId.SubmitId(CollegeId.Verifies)).effects;
    CollegeId.SuccessReportsOnce(f);
    var role := CollegeId.DeriveRole(f.collegeId);
    assert fx[1..] == [VerifiedCallback(f.collegeId, role)];
    assert Deliver(s, fx) == Deliver(s, fx[1..]);
  }

  /** The controller events the rendered panel can produce: the verification panel only reports a verified ID. */
  predicate Enabled(p: Panel, e: AuthEvent) {
    match p
    case VerificationPanel => e.Verified?
    case LoginPanel => !e.Verified? && !e.EditName?
    case SignupPanel => !e.Verified?
  }

  /** Every event of the run is one the panel on screen at that moment can produce. */
  ghost predicate PageDriven(s: AuthState, events: seq<AuthEvent>)
    requires Idle(s)
    decreases |events|
  {
    |events| == 0 || (Enabled(PanelOf(s), events[0]) && PageDriven(Step(s, events[0]).state, events[1..]))
  }

  /** Once verified, the page is on the verification panel. */
  ghost predicate VerifiedOnPanel(s: AuthState) {
    s.isVerified ==> PanelOf(s) == VerificationPanel
  }

  /**
    As written, no run the page can drive announces a new account: the verified flag is only
    set on the verification panel, which never closes and offers no submit.
   */
  lemma {:induction false} PageNeverCreatesAccount(s: AuthState, events: seq<AuthEvent>)
    requires Idle(s) && VerifiedOnPanel(s) && PageDriven(s, events)
    ensures !AnnouncesAccount(Run(s, events).effects)
    ensures VerifiedOnPanel(Run(s, events).state)
    decreases |events|
  {
    if |events| > 0 {
      var first := Step(s, events[0]);
      if AnnouncesAccount(first.effects) {
        StepAnnouncesOnlyWhenVerified(s, events[0]);
        assert false;
      }
      PageNeverCreatesAccount(first.state, events[1..]);
      var rest := Run(first.state, events[1..]);
      forall i | 0 <= i < |first.effects + rest.effects|
        ensures !((first.effects + rest.effects)[i].Toast? && (first.effects + rest.effects)[i].notice.AccountCreated?)
      {
        if i >= |first.effects| {
          assert (first.effects + rest.effects)[i] == rest.effects[i - |first.effects|];
        }
      }
    }
  }

  /** From the page's first render, signup never reaches account creation. */
  lemma MountedPageNeverCreatesAccount(signup: Option<string>, role: Option<string>, events: seq<AuthEvent>)
    requires PageDriven(Mount(signup, role), events)
    ensures !AnnouncesAccount(Run(Mount(signup, role), events).effects)
  {
    PageNeverCreatesAccount(Mount(signup, role), events);
  }

  /** The corrected verified handler: it also closes the verification panel. */
  function FixedStep(s: AuthState, e: AuthEvent): (r: Reaction)
    requires Idle(s)
    ensures Idle(r.state)
    ensures e.Verified? ==> PanelOf(r.state) != VerificationPanel && r.state.isVerified
    ensures !e.Verified? ==> r == Step(s, e)
  {
    var r := Step(s, e);
    if e.Verified? then Reaction(r.state.(showVerification := false), r.effects) else r
  }

  /** A run of the corrected controller. */
  function FixedRun(s: AuthState, events: seq<AuthEvent>): (r: Reaction)
    requires Idle(s)
    ensures Idle(r.state)
    decreases |events|
  {
    if |events| == 0 then Reaction(s, [])
    else
      var first := FixedStep(s, events[0]);
      var rest := FixedRun(first.state, events[1..]);
      Reaction(rest.state, first.effects + rest.effects)
  }

  /** A filled-in signup form that passes validation and has not been verified. */
  predicate ReadyToSignUp(s: AuthState) {
    Idle(s) && !s.isLogin && !s.showVerification && !s.isVerified && !MissingField(s) && ValidatePassword(s)
  }

  /**
    As written, after a new e-mail passes the existence check and the ID is verified, the
    page still shows the verification panel, so the final submit cannot be made.
   */
  lemma SignupStuckAsWritten(s: AuthState, check: OtpReply, collegeId: string, detected: UserRole)
    requires ReadyToSignUp(s) && !AccountExists(check)
    ensures var s1 := Step(s, Submit(check, true)).state;
      Enabled(PanelOf(s), Submit(check, true)) && PanelOf(s1) == VerificationPanel
      && Enabled(PanelOf(s1), Verified(collegeId, detected))
      && PanelOf(Step(s1, Verified(collegeId, detected)).state) == VerificationPanel
      && forall c, ok :: !Enabled(PanelOf(Step(s1, Verified(collegeId, detected)).state), Submit(c, ok))
  {
  }

  /** With the corrected handler the same three page events create the account and navigate by role. */
  lemma SignupCompletesWhenFixed(s: AuthState, check: OtpReply, collegeId: string, detected: UserRole, recheck: OtpReply)
    requires ReadyToSignUp(s) && !AccountExists(check)
    ensures var s1 := FixedStep(s, Submit(check, true)).state;
      var s2 := FixedStep(s1, Verified(collegeId, detected)).state;
      Enabled(PanelOf(s), Submit(check, true)) && Enabled(PanelOf(s1), Verified(collegeId, detected))
      && Enabled(PanelOf(s2), Submit(recheck, true))
    ensures FixedRun(s, [Submit(check, true), Verified(collegeId, detected), Submit(recheck, true)]).effects
      == [Toast(AccountCreated(RoleName(detected))), Navigate(Destination(RoleName(detected)))]
  {
    var evs := [Submit(check, true), Verified(collegeId, detected), Submit(recheck, true)];
    var s1 := FixedStep(s, evs[0]).state;
    assert s1 == s.(showVerification := true);
    var s2 := FixedStep(s1, evs[1]).state;
    assert s2 == s.(collegeId := collegeId, role := RoleName(detected), isVerified := true);
    assert FixedStep(s2, evs[2]).effects
      == [Toast(AccountCreated(RoleName(detected))), Navigate(Destination(RoleName(detected)))];
    var fx := [Toast(AccountCreated(RoleName(detected))), Navigate(Destination(RoleName(detected)))];
    assert FixedRun(s2, evs[2..]).effects == fx by {
      assert evs[2..][1..] == [];
    }
    assert FixedRun(s1, evs[1..]).effects == fx by {
      assert evs[1..][1..] == evs[2..];
    }
  }
}
