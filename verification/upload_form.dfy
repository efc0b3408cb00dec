/**
  The upload form: five required inputs, a simulated upload, a reset on success and kept
  inputs on failure. The subject choices are the catalog of `MockData.Subjects`, which the
  form lists again with the same five entries.
 */
module UploadForm {
  import opened Wrappers
  import opened Types
  import opened Effects

  datatype TypeOption = TypeOption(value: MaterialType, caption: string)

  /** The material-type choices with their display labels. */
  const TypeOptions: seq<TypeOption> := [
    TypeOption(Notes, "Lecture Notes"),
    TypeOption(Paper, "Previous Year Paper"),
    TypeOption(Book, "Textbook/Reference"),
    TypeOption(Assignment, "Assignment"),
    TypeOption(Other, "Other Material")
  ]

  datatype UploadState = UploadState(
    title: string,
    description: string,
    subjectId: string,
    materialType: Option<MaterialType>,   // None is the unselected ""
    file: Option<FileRef>,
    isSubmitting: bool)

  /** The empty form: the initial state and the state after a successful upload. */
  const Blank: UploadState := UploadState("", "", "", None, None, false)

  datatype UploadEvent =
    | EditTitle(title: string)
    | EditDescription(description: string)
    | PickSubject(subjectId: string)
    | PickType(kind: MaterialType)
    | ChooseFiles(files: seq<FileRef>)
    | RemoveFile
    | SubmitUpload(completes: bool)

  datatype UploadReaction = UploadReaction(form: UploadState, effects: seq<Effect>)

  /** Every required input is present. */
  predicate Complete(u: UploadState) {
    u.title != "" && u.description != "" && u.subjectId != "" && u.materialType.Some? && u.file.Some?
  }

  /** The submit handler with the upload's outcome known. */
  function Submit(u: UploadState, completes: bool): (r: UploadReaction)
    requires !u.isSubmitting
    ensures !r.form.isSubmitting
    ensures !Complete(u) ==> r == UploadReaction(u, [Toast(FillRequiredFields)])
    ensures Complete(u) && completes ==> r == UploadReaction(Blank, [Toast(UploadSuccessful)])
    ensures Complete(u) && !completes ==> r.form == u && r.effects == [Toast(UploadFailed)]
  {
    if !Complete(u) then UploadReaction(u, [Toast(FillRequiredFields)])
    else
      // The upload runs in the pending state; success clears the five inputs and the
      // `finally` clears the flag on every path.
      var p := Pending(u);
      if completes then
        UploadReaction(p.(title := "", description := "", subjectId := "", materialType := None,
                          file := None, isSubmitting := false), [Toast(UploadSuccessful)])
      else UploadReaction(p.(isSubmitting := false), [Toast(UploadFailed)])
  }

  /** One step of the form. */
  function Step(u: UploadState, e: UploadEvent): (r: UploadReaction)
    requires !u.isSubmitting
    ensures !r.form.isSubmitting
    ensures !e.SubmitUpload? ==> r.effects == []
    ensures e.RemoveFile? ==> r.form == u.(file := None)
    ensures e.ChooseFiles? ==> r.form == u.(file := if |e.files| > 0 then Some(e.files[0]) else u.file)
  {
    match e
    case EditTitle(v) => UploadReaction(u.(title := v), [])
    case EditDescription(v) => UploadReaction(u.(description := v), [])
    case PickSubject(id) => UploadReaction(u.(subjectId := id), [])
    case PickType(t) => UploadReaction(u.(materialType := Some(t)), [])
    case ChooseFiles(files) =>
      if |files| > 0 then UploadReaction(u.(file := Some(files[0])), []) else UploadReaction(u, [])
    case RemoveFile => UploadReaction(u.(file := None), [])
    case SubmitUpload(completes) => Submit(u, completes)
  }

  /** A run of events from a form state. */
  function Run(u: UploadState, events: seq<UploadEvent>): (r: UploadReaction)
    requires !u.isSubmitting
    ensures !r.form.isSubmitting
    decreases |events|
  {
    if |events| == 0 then UploadReaction(u, [])
    else
      var first := Step(u, events[0]);
      var rest := Run(first.form, events[1..]);
      UploadReaction(rest.form, first.effects + rest.effects)
  }

  /** What the form shows while the upload is pending. */
  function Pending(u: UploadState): (p: UploadState)
    ensures p.isSubmitting
  {
    u.(isSubmitting := true)
  }

  /** The upload button is disabled while submitting. */
  predicate SubmitDisabled(u: UploadState) {
    u.isSubmitting
  }

  /** The upload button is disabled while an upload is pending and enabled between steps. */
  lemma PendingDisablesSubmit(u: UploadState, events: seq<UploadEvent>)
    requires !u.isSubmitting
    ensures SubmitDisabled(Pending(u)) && !SubmitDisabled(Run(u, events).form)
  {
  }

  /** The type choices are the five material types in their declared order, each once, with distinct labels. */
  lemma TypeOptionsCoverTypes()
    ensures |TypeOptions| == |AllMaterialTypes|
    ensures forall i :: 0 <= i < |TypeOptions| ==> TypeOptions[i].value == AllMaterialTypes[i]
    ensures forall i, j :: 0 <= i < j < |TypeOptions| ==> TypeOptions[i].value != TypeOptions[j].value
    ensures forall i, j :: 0 <= i < j < |TypeOptions| ==> TypeOptions[i].caption != TypeOptions[j].caption
  {
  }

  /** Filling every input and uploading successfully leaves the blank form and one success notice. */
  lemma {:induction false} FillAndUpload(title: string, description: string, subjectId: string,
                                         kind: MaterialType, file: FileRef)
    requires title != "" && description != "" && subjectId != ""
    ensures Run(Blank, [EditTitle(title), EditDescription(description), PickSubject(subjectId),
                        PickType(kind), ChooseFiles([file]), SubmitUpload(true)])
      == UploadReaction(Blank, [Toast(UploadSuccessful)])
  {
    var evs := [EditTitle(title), EditDescription(description), PickSubject(subjectId),
                PickType(kind), ChooseFiles([file]), SubmitUpload(true)];
    var filled := UploadState(title, description, subjectId, Some(kind), Some(file), false);
    assert Run(filled, evs[5..]) == UploadReaction(Blank, [Toast(UploadSuccessful)]);
    assert Run(Blank.(title := title, description := description, subjectId := subjectId,
                      materialType := Some(kind)), evs[4..]) == Run(filled, evs[5..]);
    assert Run(Blank.(title := title, description := description, subjectId := subjectId), evs[3..])
      == Run(filled, evs[5..]);
    assert Run(Blank.(title := title, description := description), evs[2..]) == Run(filled, evs[5..]);
    assert Run(Blank.(title := title), evs[1..]) == Run(filled, evs[5..]);
  }

  /** Removing the file after choosing it blocks the upload with the validation notice. */
  lemma RemovedFileBlocksUpload(u: UploadState, file: FileRef, completes: bool)
    requires !u.isSubmitting
    ensures var v := Step(Step(u, ChooseFiles([file])).form, RemoveFile).form;
      Step(v, SubmitUpload(completes)) == UploadReaction(v, [Toast(FillRequiredFields)])
  {
  }
}
