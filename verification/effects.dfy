/**
  What the components hand to the outside world. The toast service, the router and the
  optional callback props are foreign calls; the model emits them as values, in the order
  the source makes them.
 */
module Effects {
  import opened Types

  /** The toast notices the components raise, one constructor per distinct title. */
  datatype Notice =
    | FillRequiredFields          // "Validation Error": a required form field is empty
    | PasswordRequirements        // the signup password misses a rule
    | AccountAlreadyExists        // the existence check found the e-mail
    | LoginSuccessful
    | AccountCreated(role: string)
    | LoginFailed
    | SignUpFailed
    | ProvideIdAndImage          // "Validation Error" of the college-ID step
    | VerificationSuccessful(detected: UserRole)
    | VerificationFailed
    | UploadSuccessful
    | UploadFailed
    | RatingSubmitted(stars: Stars)
    | RatingFailed

  /** Notices shown with the `destructive` variant. */
  predicate Destructive(n: Notice) {
    n.FillRequiredFields? || n.PasswordRequirements? || n.AccountAlreadyExists? || n.LoginFailed?
    || n.SignUpFailed? || n.ProvideIdAndImage? || n.VerificationFailed? || n.UploadFailed?
    || n.RatingFailed?
  }

  datatype Effect =
    | Toast(notice: Notice)
    | Navigate(path: string)                          // `navigate(path)`
    | ReplaceSearch(search: string)                   // `navigate({pathname, search}, {replace: true})`
    | VerifiedCallback(collegeId: string, role: UserRole)  // `onVerified(collegeId, role)`
    | RatingChanged(stars: Stars)                     // `onChange(rating)`
    | DownloadCallback                                // `onDownload()`
    | EditRequested(material: Material)               // `onEdit(material)`
    | DeleteRequested(materialId: string)             // `onDelete(material.id)`

  /** The effects of a sequence that are toasts with the destructive variant. */
  predicate HasDestructiveToast(effects: seq<Effect>) {
    exists i :: 0 <= i < |effects| && effects[i].Toast? && Destructive(effects[i].notice)
  }
}
