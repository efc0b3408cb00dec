/**
  The college-ID verification step: an ID number and an ID-card image are required, the
  simulated verification derives the role from the ID's prefix, and a verified form is
  replaced by a completion panel.
 */
module CollegeId {
  import opened Wrappers
  import opened Types
  import opened Text
  import opened Effects

  datatype IdForm = IdForm(
    collegeId: string,
    idImage: Option<FileRef>,
    isSubmitting: bool,
    isVerified: bool,
    hasOnVerified: bool)      // whether the optional `onVerified` prop was given

  /** How the simulated verification ends. */
  datatype VerifyOutcome =
    | Verifies           // the delay resolves and the callback returns
    | DelayRejects       // the awaited delay rejects before anything changes
    | CallbackThrows     // the delay resolves but the `onVerified` callback, when given, throws

  datatype IdEvent =
    | EditId(collegeId: string)
    | ChooseFiles(files: seq<FileRef>)
    | SubmitId(outcome: VerifyOutcome)

  datatype IdReaction = IdReaction(form: IdForm, effects: seq<Effect>)

  /** The form as first rendered. */
  function Mount(hasOnVerified: bool): (f: IdForm)
    ensures f.collegeId == "" && f.idImage.None? && !f.isSubmitting && !f.isVerified
    ensures f.hasOnVerified == hasOnVerified
  {
    IdForm("", None, false, false, hasOnVerified)
  }

  /** Senior exactly for IDs that begin with "CS2", as typed: case-sensitive, untrimmed. */
  function DeriveRole(collegeId: string): (r: UserRole)
    ensures r == Senior <==> |collegeId| >= 3 && collegeId[0] == 'C' && collegeId[1] == 'S' && collegeId[2] == '2'
  {
    if StartsWith(collegeId, "CS2") then Senior else Junior
  }

  /** The submit handler with the verification's outcome known. */
  function Submit(f: IdForm, outcome: VerifyOutcome): (r: IdReaction)
    requires !f.isSubmitting && !f.isVerified
    ensures !r.form.isSubmitting
    ensures r.form.collegeId == f.collegeId && r.form.idImage == f.idImage
    ensures r.form.hasOnVerified == f.hasOnVerified
    ensures f.collegeId == "" || f.idImage.None? ==> r == IdReaction(f, [Toast(ProvideIdAndImage)])
    ensures r.form.isVerified <==> f.collegeId != "" && f.idImage.Some? && !outcome.DelayRejects?
  {
    if f.collegeId == "" || f.idImage.None? then
      IdReaction(f, [Toast(ProvideIdAndImage)])
    else
      // The delay runs in the pending state; the `finally` clears the flag on every path.
      var p := Pending(f);
      match outcome
      case DelayRejects =>
        IdReaction(p.(isSubmitting := false), [Toast(VerificationFailed)])
      case _ =>
        var role := DeriveRole(f.collegeId);
        var callback := if f.hasOnVerified then [VerifiedCallback(f.collegeId, role)] else [];
        var thrown := if f.hasOnVerified && outcome.CallbackThrows? then [Toast(VerificationFailed)] else [];
        IdReaction(p.(isVerified := true, isSubmitting := false),
                   [Toast(VerificationSuccessful(role))] + callback + thrown)
  }

  /** One step; a verified form is replaced by the completion panel, so events no longer reach it. */
  function Step(f: IdForm, e: IdEvent): (r: IdReaction)
    requires !f.isSubmitting
    ensures !r.form.isSubmitting
    ensures f.isVerified ==> r == IdReaction(f, [])
    ensures f.isVerified ==> r.form.isVerified
    ensures r.form.hasOnVerified == f.hasOnVerified
  {
    if f.isVerified then IdReaction(f, [])
    else
      match e
      case EditId(v) => IdReaction(f.(collegeId := v), [])
      case ChooseFiles(files) =>
        if |files| > 0 then IdReaction(f.(idImage := Some(files[0])), []) else IdReaction(f, [])
      case SubmitId(outcome) => Submit(f, outcome)
  }

  /** What the form shows while the verification is pending. */
  function Pending(f: IdForm): (g: IdForm)
    ensures g.isSubmitting
  {
    f.(isSubmitting := true)
  }

  datatype IdView = CompletionPanel | EntryForm(submitDisabled: bool, verifying: bool)

  /** The render switch: the completion panel once verified, otherwise the entry form. */
  function View(f: IdForm): (v: IdView)
    ensures v.CompletionPanel? <==> f.isVerified
    ensures v.EntryForm? ==> (v.submitDisabled <==> f.isSubmitting) && (v.verifying <==> f.isSubmitting)
  {
    if f.isVerified then CompletionPanel else EntryForm(f.isSubmitting, f.isSubmitting)
  }

  /** A run of events from a form. */
  function Run(f: IdForm, events: seq<IdEvent>): (r: IdReaction)
    requires !f.isSubmitting
    ensures !r.form.isSubmitting
    decreases |events|
  {
    if |events| == 0 then IdReaction(f, [])
    else
      var first := Step(f, events[0]);
      var rest := Run(first.form, events[1..]);
      IdReaction(rest.form, first.effects + rest.effects)
  }

  /** A missing ID or image only raises the validation error; nothing is submitted or reported. */
  lemma MissingInputRejected(f: IdForm, outcome: VerifyOutcome)
    requires !f.isSubmitting && !f.isVerified
    requires f.collegeId == "" || f.idImage.None?
    ensures Step(f, SubmitId(outcome)) == IdReaction(f, [Toast(ProvideIdAndImage)])
  {
  }

  /** A successful verification reports exactly the entered ID and the derived role, once. */
  lemma SuccessReportsOnce(f: IdForm)
    requires !f.isSubmitting && !f.isVerified && f.hasOnVerified
    requires f.collegeId != "" && f.idImage.Some?
    ensures var r := Step(f, SubmitId(Verifies));
      r.form == f.(isVerified := true)
      && r.effects == [Toast(VerificationSuccessful(DeriveRole(f.collegeId))),
                       VerifiedCallback(f.collegeId, DeriveRole(f.collegeId))]
  {
  }

  /** The submit button is disabled while the verification is pending. */
  lemma PendingDisablesSubmit(f: IdForm)
    requires !f.isVerified
    ensures View(Pending(f)) == EntryForm(true, true)
  {
  }

  /** Once verified, no run of events changes the form or emits anything. */
  lemma {:induction false} VerifiedIsFinal(f: IdForm, events: seq<IdEvent>)
    requires !f.isSubmitting && f.isVerified
    ensures Run(f, events) == IdReaction(f, [])
    decreases |events|
  {
    if |events| > 0 {
      VerifiedIsFinal(f, events[1..]);
    }
  }

  /** Choosing files keeps the first one; an empty selection keeps the previous image. */
  lemma ChooseFilesKeepsFirst(f: IdForm, files: seq<FileRef>)
    requires !f.isSubmitting && !f.isVerified
    ensures |files| > 0 ==> Step(f, ChooseFiles(files)).form.idImage == Some(files[0])
    ensures |files| == 0 ==> Step(f, ChooseFiles(files)).form == f
  {
  }

  /** Appending to a senior ID keeps it senior; the prefix decides alone. */
  lemma {:induction false} SeniorPrefixStable(collegeId: string, suffix: string)
    requires DeriveRole(collegeId) == Senior
    ensures DeriveRole(collegeId + suffix) == Senior
  {
    assert (collegeId + suffix)[..3] == collegeId[..3];
  }

  /** The role rule on sample IDs: the sample placeholder is senior; case, spacing and digit matter. */
  lemma DeriveRoleExamples()
    ensures DeriveRole("CS2045678") == Senior && DeriveRole("CS202456") == Senior
    ensures DeriveRole("cs2045678") == Junior && DeriveRole(" CS2045678") == Junior
    ensures DeriveRole("CS1045678") == Junior && DeriveRole("CS") == Junior && DeriveRole("") == Junior
  {
  }
}
