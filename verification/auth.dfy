/**
  The login/signup controller. The hook's state becomes a record; each user action and each
  completed asynchronous call is one event; the existence check and the placeholder
  authentication delay are outcomes carried by the submit event. The password-flag
  recompute, which the hook runs after a render in which the password or the mode changed,
  is applied at the end of every step (`Settle`).
 */
module Auth {
  import opened Wrappers
  import opened Types
  import opened Password
  import opened Effects

  datatype AuthState = AuthState(
    isLogin: bool,
    email: string,
    password: string,
    name: string,
    role: string,            // the `role` query parameter is cast unchecked, so any string can arrive
    isLoading: bool,
    showVerification: bool,
    collegeId: string,
    isVerified: bool,
    checkingUser: bool,
    flags: Flags)

  /** What the one-time-password call reports for the existence check. */
  datatype OtpReply =
    | OtpOk                       // no error
    | OtpError(message: string)   // an error object with a message
    | OtpThrew                    // the call threw

  datatype AuthEvent =
    | EditEmail(email: string)
    | EditPassword(password: string)
    | EditName(name: string)
    | ToggleMode
    | Verified(collegeId: string, detected: UserRole)
    | Submit(check: OtpReply, authCompletes: bool)

  datatype Reaction = Reaction(state: AuthState, effects: seq<Effect>)

  /** The flags describe the current password whenever the signup form shows one. */
  ghost predicate FlagsCurrent(s: AuthState) {
    !s.isLogin && s.password != "" ==> s.flags == Evaluate(s.password)
  }

  /** Between steps nothing is in flight. */
  predicate Idle(s: AuthState) {
    !s.isLoading && !s.checkingUser
  }

  /** The initial state for the signup flag and the optional default role. */
  function Init(initialIsSignUp: bool, defaultRole: Option<string>): (s: AuthState)
    ensures s.isLogin <==> !initialIsSignUp
    ensures defaultRole.Some? && defaultRole.value != "" ==> s.role == defaultRole.value
    ensures defaultRole.None? || defaultRole.value == "" ==> s.role == RoleName(Junior)
    ensures s.email == "" && s.password == "" && s.name == "" && s.collegeId == ""
    ensures !s.showVerification && !s.isVerified && s.flags == Cleared
    ensures Idle(s) && FlagsCurrent(s)
  {
    var role := if defaultRole.Some? && defaultRole.value != "" then defaultRole.value else "junior";
    AuthState(!initialIsSignUp, "", "", "", role, false, false, "", false, false, Cleared)
  }

  /** The recompute effect under its guard: signup mode with a non-empty password. */
  function Refresh(s: AuthState): (r: AuthState)
    ensures r == s.(flags := r.flags)
    ensures !s.isLogin && s.password != "" ==> r.flags == Evaluate(s.password)
    ensures s.isLogin || s.password == "" ==> r == s
  {
    if !s.isLogin && s.password != "" then s.(flags := Evaluate(s.password)) else s
  }

  /** Runs the recompute iff the step changed the password or the mode. */
  function Settle(before: AuthState, after: AuthState): (r: AuthState)
    ensures r == after.(flags := r.flags)
    ensures after.password == before.password && after.isLogin == before.isLogin ==> r == after
  {
    if after.password != before.password || after.isLogin != before.isLogin then Refresh(after) else after
  }

  /** Login needs no password rules; signup needs all three flags. */
  predicate ValidatePassword(s: AuthState) {
    s.isLogin || Acceptable(s.flags)
  }

  /** The existence decision: the account is taken unless the call reports "User not found" or throws. */
  function AccountExists(reply: OtpReply): (taken: bool)
    ensures reply.OtpThrew? ==> !taken
    ensures reply.OtpOk? ==> taken
    ensures reply.OtpError? ==> (taken <==> reply.message != "User not found")
  {
    match reply
    case OtpOk => true
    case OtpError(message) => message != "User not found"
    case OtpThrew => false
  }

  /** A required field is empty: e-mail, password, and in signup mode the name. */
  predicate MissingField(s: AuthState) {
    s.email == "" || s.password == "" || (!s.isLogin && s.name == "")
  }

  /** Where a finished login or signup goes. */
  function Destination(role: string): (path: string)
    ensures path == "/browse" <==> role == RoleName(Junior)
    ensures path != "/browse" ==> path == "/dashboard"
  {
    if role == "junior" then "/browse" else "/dashboard"
  }

  /** Switches between login and signup, clearing the credentials and the flags. */
  function Toggle(s: AuthState): (r: Reaction)
    ensures r.state.isLogin == !s.isLogin
    ensures r.state.email == "" && r.state.password == "" && r.state.name == ""
    ensures !r.state.showVerification && r.state.flags == Cleared
    ensures r.state.isVerified == s.isVerified && r.state.collegeId == s.collegeId && r.state.role == s.role
    ensures r.state.isLoading == s.isLoading && r.state.checkingUser == s.checkingUser
    ensures r.effects == [ReplaceSearch(if r.state.isLogin then "" else "?signup=true")]
  {
    var search := if s.isLogin then "?signup=true" else "";
    Reaction(s.(isLogin := !s.isLogin, email := "", password := "", name := "",
                showVerification := false, flags := Cleared),
             [ReplaceSearch(search)])
  }

  /**
    The verification step reports the ID it accepted and the role it derived. The second
    postcondition is the frame: every other field, `showVerification` included, is unchanged.
   */
  function HandleVerified(s: AuthState, collegeId: string, detected: UserRole): (r: AuthState)
    ensures r.isVerified && r.collegeId == collegeId && r.role == RoleName(detected)
    ensures r == s.(isVerified := true, collegeId := collegeId, role := RoleName(detected))
  {
    s.(collegeId := collegeId, role := RoleName(detected), isVerified := true)
  }

  /** The submit handler, with both asynchronous outcomes already known. */
  function HandleSubmit(s: AuthState, check: OtpReply, authCompletes: bool): (r: Reaction)
    requires Idle(s)
    ensures Idle(r.state)
    ensures r.state.email == s.email && r.state.password == s.password && r.state.name == s.name
    ensures r.state.role == s.role && r.state.isVerified == s.isVerified && r.state.collegeId == s.collegeId
    ensures r.state.flags == s.flags
    ensures MissingField(s) || (!s.isLogin && !ValidatePassword(s)) ==>
      r.state == s && |r.effects| == 1 && r.effects[0].Toast? && Destructive(r.effects[0].notice)
    ensures r.state.isLogin != s.isLogin ==>
      !s.isLogin && !s.isVerified && AccountExists(check)
      && r.effects == [Toast(AccountAlreadyExists), ReplaceSearch("")]
    ensures r.state.showVerification != s.showVerification ==>
      !s.isLogin && !s.isVerified && !AccountExists(check) && r.effects == []
  {
    if MissingField(s) then
      Reaction(s, [Toast(FillRequiredFields)])
    else if !s.isLogin && !ValidatePassword(s) then
      Reaction(s, [Toast(PasswordRequirements)])
    else if !s.isLogin && !s.isVerified then
      // The check runs in the in-flight state; its `finally` and the line after the await
      // clear the two flags again before the reply is acted on.
      var done := CheckInFlight(s).(isLoading := false, checkingUser := false);
      if AccountExists(check) then
        Reaction(done.(isLogin := true), [Toast(AccountAlreadyExists), ReplaceSearch("")])
      else
        Reaction(done.(showVerification := true), [])
    else
      // The final call runs in its in-flight state; its `finally` clears the loading flag.
      var done := FinalInFlight(s).(isLoading := false);
      if authCompletes then
        var notice := if s.isLogin then LoginSuccessful else AccountCreated(s.role);
        Reaction(done, [Toast(notice), Navigate(Destination(s.role))])
      else
        Reaction(done, [Toast(if s.isLogin then LoginFailed else SignUpFailed)])
  }

  /** What the form shows while the existence check is pending. */
  function CheckInFlight(s: AuthState): (r: AuthState)
    ensures r.isLoading && r.checkingUser
  {
    s.(isLoading := true, checkingUser := true)
  }

  /** What the form shows while the final login or signup call is pending. */
  function FinalInFlight(s: AuthState): (r: AuthState)
    requires !s.checkingUser
    ensures r.isLoading && !r.checkingUser
  {
    s.(isLoading := true)
  }

  /** The handler for one event, before the recompute effect. */
  function Handle(s: AuthState, e: AuthEvent): (r: Reaction)
    requires Idle(s)
    ensures Idle(r.state)
    ensures r.state.isVerified == (s.isVerified || e.Verified?)
    ensures r.state.flags != s.flags ==> r.state.isLogin != s.isLogin && r.state.flags == Cleared
  {
    match e
    case EditEmail(v) => Reaction(s.(email := v), [])
    case EditPassword(v) => Reaction(s.(password := v), [])
    case EditName(v) => Reaction(s.(name := v), [])
    case ToggleMode => Toggle(s)
    case Verified(id, detected) => Reaction(HandleVerified(s, id, detected), [])
    case Submit(check, authCompletes) => HandleSubmit(s, check, authCompletes)
  }

  /** One step: the handler, then the recompute if the password or the mode changed. */
  function Step(s: AuthState, e: AuthEvent): (r: Reaction)
    requires Idle(s)
    ensures Idle(r.state)
    ensures FlagsCurrent(s) ==> FlagsCurrent(r.state)
    ensures r.state.isVerified == (s.isVerified || e.Verified?)
  {
    var h := Handle(s, e);
    Reaction(Settle(s, h.state), h.effects)
  }

  /** A run of events from a state: the final state and every effect in order. */
  function Run(s: AuthState, events: seq<AuthEvent>): (r: Reaction)
    requires Idle(s)
    ensures Idle(r.state)
    decreases |events|
  {
    if |events| == 0 then Reaction(s, [])
    else
      var first := Step(s, events[0]);
      var rest := Run(first.state, events[1..]);
      Reaction(rest.state, first.effects + rest.effects)
  }

  /** Some event of the run is the verification callback. */
  ghost predicate SawVerified(events: seq<AuthEvent>) {
    exists i :: 0 <= i < |events| && events[i].Verified?
  }

  /** Some effect is the "Account Created" toast. */
  ghost predicate AnnouncesAccount(effects: seq<Effect>) {
    exists i :: 0 <= i < |effects| && effects[i].Toast? && effects[i].notice.AccountCreated?
  }

  /** Every state a run reaches keeps the flags current. */
  lemma {:induction false} RunKeepsFlagsCurrent(s: AuthState, events: seq<AuthEvent>)
    requires Idle(s) && FlagsCurrent(s)
    ensures FlagsCurrent(Run(s, events).state)
    decreases |events|
  {
    if |events| > 0 {
      RunKeepsFlagsCurrent(Step(s, events[0]).state, events[1..]);
    }
  }

  /** The verified flag is set by the verification callback and by nothing else, and never cleared. */
  lemma {:induction false} VerifiedOnlyByCallback(s: AuthState, events: seq<AuthEvent>)
    requires Idle(s)
    ensures Run(s, events).state.isVerified <==> s.isVerified || SawVerified(events)
    decreases |events|
  {
    if |events| > 0 {
      VerifiedOnlyByCallback(Step(s, events[0]).state, events[1..]);
      SawVerifiedCons(events);
    }
  }

  /** A single step announces a new account only from a verified signup. */
  lemma StepAnnouncesOnlyWhenVerified(s: AuthState, e: AuthEvent)
    requires Idle(s)
    requires AnnouncesAccount(Step(s, e).effects)
    ensures s.isVerified && !s.isLogin && e.Submit?
  {
  }

  /** The verification callback occurs in a run iff it is the first event or occurs in the rest. */
  lemma SawVerifiedCons(events: seq<AuthEvent>)
    requires |events| > 0
    ensures SawVerified(events) <==> events[0].Verified? || SawVerified(events[1..])
  {
    if SawVerified(events[1..]) {
      var j :| 0 <= j < |events[1..]| && events[1..][j].Verified?;
      assert events[j + 1] == events[1..][j];
    }
    if SawVerified(events) && !events[0].Verified? {
      var i :| 0 <= i < |events| && events[i].Verified?;
      assert events[1..][i - 1] == events[i];
    }
  }

  /** An announcement in a concatenation is an announcement in one of the parts. */
  lemma AnnouncesAppend(a: seq<Effect>, b: seq<Effect>)
    ensures AnnouncesAccount(a + b) <==> AnnouncesAccount(a) || AnnouncesAccount(b)
  {
    if AnnouncesAccount(a + b) {
      var i :| 0 <= i < |a + b| && (a + b)[i].Toast? && (a + b)[i].notice.AccountCreated?;
      if i >= |a| {
        assert b[i - |a|] == (a + b)[i];
      }
    }
    if AnnouncesAccount(a) {
      var j :| 0 <= j < |a| && a[j].Toast? && a[j].notice.AccountCreated?;
      assert (a + b)[j] == a[j];
    }
    if AnnouncesAccount(b) {
      var j :| 0 <= j < |b| && b[j].Toast? && b[j].notice.AccountCreated?;
      assert (a + b)[|a| + j] == b[j];
    }
  }

  /** No run announces a new account unless the verification callback happened first. */
  lemma {:induction false} AccountOnlyAfterVerification(s: AuthState, events: seq<AuthEvent>)
    requires Idle(s)
    requires AnnouncesAccount(Run(s, events).effects)
    ensures s.isVerified || SawVerified(events)
    decreases |events|
  {
    var first := Step(s, events[0]);
    var rest := Run(first.state, events[1..]);
    AnnouncesAppend(first.effects, rest.effects);
    SawVerifiedCons(events);
    if AnnouncesAccount(first.effects) {
      StepAnnouncesOnlyWhenVerified(s, events[0]);
    } else {
      AccountOnlyAfterVerification(first.state, events[1..]);
    }
  }

  /** A submit with an empty required field, or a signup password missing a rule, only raises an error. */
  lemma RejectedSubmitChangesNothing(s: AuthState, check: OtpReply, authCompletes: bool)
    requires Idle(s)
    requires MissingField(s) || (!s.isLogin && !ValidatePassword(s))
    ensures Step(s, Submit(check, authCompletes)).state == s
    ensures var fx := Step(s, Submit(check, authCompletes)).effects;
      |fx| == 1 && fx[0].Toast? && Destructive(fx[0].notice)
  {
  }

  /** An unverified signup never creates an account: it either switches to login or opens verification. */
  lemma UnverifiedSignupCreatesNoAccount(s: AuthState, check: OtpReply, authCompletes: bool)
    requires Idle(s) && !MissingField(s) && !s.isLogin && ValidatePassword(s) && !s.isVerified
    ensures var r := Step(s, Submit(check, authCompletes));
      if AccountExists(check) then
        r.state == s.(isLogin := true) && r.effects == [Toast(AccountAlreadyExists), ReplaceSearch("")]
      else
        r.state == s.(showVerification := true) && r.effects == []
    ensures !AnnouncesAccount(Step(s, Submit(check, authCompletes)).effects)
  {
  }

  /** A final submit that completes announces itself and navigates by role; login navigates too. */
  lemma FinalSubmitNavigates(s: AuthState, check: OtpReply)
    requires Idle(s) && !MissingField(s)
    requires s.isLogin || (ValidatePassword(s) && s.isVerified)
    ensures var r := Step(s, Submit(check, true));
      r.state == s && |r.effects| == 2 && r.effects[1] == Navigate(Destination(s.role))
      && r.effects[0] == Toast(if s.isLogin then LoginSuccessful else AccountCreated(s.role))
  {
  }

  /** A final submit whose call fails raises the mode's failure notice and changes nothing. */
  lemma FinalSubmitFails(s: AuthState, check: OtpReply)
    requires Idle(s) && !MissingField(s)
    requires s.isLogin || (ValidatePassword(s) && s.isVerified)
    ensures Step(s, Submit(check, false)) == Reaction(s, [Toast(if s.isLogin then LoginFailed else SignUpFailed)])
  {
  }

  /** Editing the password in signup mode recomputes the flags for it; in login mode the flags stay. */
  lemma PasswordEditFlags(s: AuthState, v: string)
    requires Idle(s) && FlagsCurrent(s)
    ensures !s.isLogin && v != "" ==> Step(s, EditPassword(v)).state.flags == Evaluate(v)
    ensures s.isLogin || v == "" ==> Step(s, EditPassword(v)).state.flags == s.flags
  {
  }

  /** With the flags current, signup validation is exactly the three password rules. */
  lemma ValidationIsTheRules(s: AuthState)
    requires FlagsCurrent(s) && !s.isLogin && s.password != ""
    ensures ValidatePassword(s) <==>
      |s.password| >= 8 && Has(s.password, Symbol) && Has(s.password, Digit)
      && Has(s.password, Upper) && Has(s.password, Lowercase)
  {
  }
}
