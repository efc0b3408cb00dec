# AcademiX front-end core in Dafny

AcademiX is a study-material sharing site for computer-science students. Juniors browse and
download notes, papers and books. Seniors, who are recognised by their college ID, upload
material and see a dashboard of their contributions. The site has no back end: the data are
mock tables, and every remote call is a timer or a single one-time-password request.

This project models the site's logic as immutable datatypes and pure functions:

- **Browse filter.** Three criteria are combined with AND. The text query is matched case-blind
  against four fields. The result is a subsequence of the mock list.
- **Auth controller.** The `useAuth` hook is a state record with the transition
  `(state, event) -> (state, effects)`. Each event carries the outcome of its asynchronous call:
  the existence-check reply and whether the placeholder authentication completes. Toasts,
  navigation and URL-search changes are emitted as effect values.
- **Password rules** of the signup form, and the flag-recompute effect under its guard.
- **Views:**
  - the Login page's view switch and query parameters;
  - the signup form's button and banner rules;
  - the college-ID verification step and its prefix-based role rule;
  - the upload form and the rating widget;
  - the file card and the materials list;
  - the dashboard totals.

Modules follow the source files: `Types`, `MockData`, `Browse`, `Password`, `Auth`, `SignupForm`,
`LoginPage`, `CollegeId`, `UploadForm`, `RatingStars`, `FileSize`, `MaterialsList`, `FileCard`,
`Dashboard`. These rest on four helpers:

- `Text`: ASCII case mapping, `includes`, capitalisation;
- `Seqs`: filter and sum, with their lemmas;
- `Wrappers`: `Option`, and reference definitions of JavaScript's `x || d` fallback;
- `MockStrings`: the facts about the short literal pieces the mock records' strings are written
  in, used to show which mock records a query cannot match.

Modelling choices:

- **Atomic asynchronous work.** Each asynchronous handler is one atomic step with its outcome as
  a parameter: the existence check, the verification delay, the upload, the rating submission
  and the download.
  - The state shown while a call is pending is its own function: `Auth.CheckInFlight`,
    `Auth.FinalInFlight`, `CollegeId.Pending`, `UploadForm.Pending`, `RatingStars.Pending` and
    `FileCard.Pending`.
  - The properties of pending states are stated over these functions.
  - Each handler computes its result from the pending state and clears the flag again, as the
    source's `finally` blocks do. So between steps every loading flag is false; each `Step`
    and `Run` states this in its contract.
- **Password flags.** The hook recomputes them in an effect that depends on the password and
  the mode. The model applies it at the end of each step in which either of the two changed
  (`Auth.Settle`).
- **Thrown callbacks.** The callbacks `onVerified` and `onChange` are optional props and
  `onDownload` is a required one; any of the three may throw. Each outcome type has a case
  for a throwing callback, because the source's `try` blocks then emit a failure toast after
  the success effects.

Where the intended behaviour and the code differ, the model follows the code:

- **Default role.** `useAuth` starts from `defaultRole || "junior"`. So an empty `role` query
  value also falls back to `"junior"`, not only an absent one (`Auth.Init`, `LoginPage.Mount`).
- **Thumbnails.** The file card tests `thumbnailUrl` for truthiness. An empty URL therefore
  shows the icon, like an absent one (`FileCard.PreviewFor`).
- **Role strings.** The role arriving from the query string is cast without a check, so the
  controller keeps it as a string. Only the verified handler writes a real `UserRole` into it.

## Model

| member | source | states |
|---|---|---|
| Types.RolesEnumerated | src/types/index.ts:2 | there are exactly two roles, junior and senior, with distinct names that parse back to themselves |
| Types.ParseRole | src/types/index.ts:2 | a string parses to the role whose name it is, and fails exactly on strings that name no role |
| Types.MaterialTypesEnumerated | src/types/index.ts:23 | there are exactly five material types (notes, paper, book, assignment, other) with distinct names that parse back |
| Types.ParseType | src/types/index.ts:23 | a string parses to the type whose name it is, and fails exactly on strings that name no type |
| Types.RatingValueInRange | src/types/index.ts:48 | a rating's value is a whole number of stars from 1 to 5 |
| Types.SubjectLinkNotEnforced | src/types/index.ts:29-30 | the record type admits a material whose embedded subject differs from its subjectId, so agreement is a separate invariant |
| MockData.FindSubject | src/pages/Browse.tsx:28 | the catalog lookup returns the first entry with the requested id when one exists, and nothing only when none has that id |
| MockData.BrowseMaterialsUseCatalog | src/pages/Browse.tsx:13-102 | every Browse mock material embeds the catalog subject whose id is its subjectId |
| MockData.DashboardMaterialsOwnedAndConsistent | src/pages/Dashboard.tsx:22-82 | every dashboard material was uploaded by the mock user and embeds its catalog subject |
| Browse.TextMatches | src/pages/Browse.tsx:128-134 | the query, lower-cased, occurs in the lower-cased title, description, subject name or subject code |
| Text.Includes | src/pages/Browse.tsx:130-133 | the substring search succeeds exactly when the needle occurs at some position |
| Text.Lower | src/pages/Browse.tsx:130-133 | lower-casing keeps the length and lower-cases every character |
| Text.Capitalize | src/components/FileCard.tsx:70 | the result has the input's length, its first character is the upper-case form of the input's first, and the rest is unchanged (the same expression is at src/components/MaterialsList.tsx:60) |
| Browse.Apply | src/pages/Browse.tsx:123-146 | the filtered list is never longer than the full list |
| Browse.ApplyIsOneFilter | src/pages/Browse.tsx:125-143 | the three conditional passes equal one filter by the reference condition "each criterion empty or satisfied" |
| Browse.ApplyMembership | src/pages/Browse.tsx:127-143 | a material is shown exactly when it is in the list and meets the query, subject and type criteria |
| Browse.ApplyKeepsOrder | src/pages/Browse.tsx:125-145 | the shown list is an order-preserving subsequence of the full list |
| Browse.ApplyIdempotent | src/pages/Browse.tsx:125-143 | filtering the shown list again with the same criteria changes nothing |
| Browse.ApplyWithoutCriteria | src/pages/Browse.tsx:127-141 | with every criterion empty the shown list is the full list |
| Browse.ApplyAppend | src/pages/Browse.tsx:125-143 | filtering a concatenation is the concatenation of the filtered parts |
| Browse.QueryCaseInsensitive | src/pages/Browse.tsx:128-134 | the letter case of the query never changes which materials are kept |
| Browse.ClearFilters | src/pages/Browse.tsx:156-160 | clearing empties the query and both menus, so no filter is counted |
| Browse.ClearShowsEverything | src/pages/Browse.tsx:156-160 | after clearing, every material is shown and the badge count is 0 |
| Browse.ActiveFilterCount | src/pages/Browse.tsx:204-208 | the count is at most 2, is 0 exactly when neither menu is set, and is 2 exactly when both are |
| Browse.Badge | src/pages/Browse.tsx:204-208 | the badge shows exactly when a menu filter is set, with a value of 1 or 2 |
| Browse.BadgeIgnoresQuery | src/pages/Browse.tsx:204-208 | the search text never affects the badge |
| Browse.InitialPage | src/pages/Browse.tsx:105-106 | the first render shows the whole mock list, consistent with the empty criteria |
| Browse.Step | src/pages/Browse.tsx:123-146 | after any input change the shown list is again the filter of the unchanged full list, and clearing shows all of it |
| Browse.AlgorithmsNotesExample | src/pages/Browse.tsx:22-102 | query "Algorithms" with type notes keeps only material "6" |
| Password.Scan | src/hooks/useAuth.tsx:41-44 | a character-class test succeeds exactly when some character of the password is in the class |
| Password.Evaluate | src/hooks/useAuth.tsx:40-50 | length holds iff at least 8 characters; specialAndNumber iff some listed symbol and some ASCII digit; cases iff some A-Z and some a-z |
| Password.AcceptableMeansAllRules | src/hooks/useAuth.tsx:46-50 | an acceptable password has 8 characters, a symbol, a digit and both letter cases |
| Password.ShortLowercaseMeetsNoRule | src/hooks/useAuth.tsx:40-50 | "abc" meets no rule |
| Password.MixedPasswordMeetsAllRules | src/hooks/useAuth.tsx:40-50 | "Abcdef1!" meets all three rules |
| Password.EmptyPasswordMeetsNoRule | src/hooks/useAuth.tsx:40-50 | the empty password meets no rule |
| Password.SymbolClassExclusions | src/hooks/useAuth.tsx:41 | tilde, backtick and space are not symbols, and the class has 30 characters |
| Password.SymbolsAreNotAlphanumeric | src/hooks/useAuth.tsx:41-44 | no symbol is a digit or a letter, so the symbol rule and the other rules test disjoint classes |
| Password.FlagsMonotone | src/hooks/useAuth.tsx:40-50 | extending a password never unsets a flag |
| Auth.Init | src/hooks/useAuth.tsx:12-30 | login mode iff signup was not requested; role is the default role, or "junior" when it is absent or empty; fields empty, flags cleared |
| Auth.Refresh | src/hooks/useAuth.tsx:38-52 | the recompute sets the flags for the password only in signup mode with a non-empty password, and otherwise keeps them |
| Auth.Settle | src/hooks/useAuth.tsx:38-52 | the recompute runs only when the password or the mode changed, and touches nothing but the flags |
| Auth.ValidatePassword | src/hooks/useAuth.tsx:77-81 | login always validates; signup validates only when the length, symbol-and-digit and letter-case flags all hold |
| Auth.MissingField | src/hooks/useAuth.tsx:108 | a field is missing when the e-mail or the password is empty, or in signup mode the name |
| Auth.AccountExists | src/hooks/useAuth.tsx:84-102 | the account counts as taken on no error or on an error other than "User not found"; a throw counts as not taken |
| Auth.Destination | src/hooks/useAuth.tsx:165 | a finished login or signup goes to "/browse" exactly for the junior role, otherwise to "/dashboard" |
| Auth.Toggle | src/hooks/useAuth.tsx:54-69 | the mode flips, credentials and flags clear, the panel closes, verification and role are kept, and the search becomes "?signup=true" or "" to match the new mode |
| Auth.HandleVerified | src/hooks/useAuth.tsx:71-75 | the verified handler records the ID and the role, sets verified, and changes nothing else |
| Auth.HandleSubmit | src/hooks/useAuth.tsx:84-176 | a missing field or a failed signup password gives one destructive notice and no change; only an unverified signup with a taken e-mail switches mode, and only one with a free e-mail opens verification |
| Auth.CheckInFlight | src/hooks/useAuth.tsx:128-131 | during the existence check both the loading and checking flags are set |
| Auth.FinalInFlight | src/hooks/useAuth.tsx:151 | during the final call only the loading flag is set |
| Auth.Handle | src/hooks/useAuth.tsx:54-176 | verification is set exactly by the verified event, and the flags change only with the mode |
| Auth.Step | src/hooks/useAuth.tsx:38-52 | a step keeps the flags current and the controller idle, and sets verified only on the verified event |
| Auth.Run | src/hooks/useAuth.tsx:104-176 | no run leaves a call in flight |
| Auth.RunKeepsFlagsCurrent | src/hooks/useAuth.tsx:38-52 | in every reachable state, the flags of a non-empty signup password are the flags of that password |
| Auth.VerifiedOnlyByCallback | src/hooks/useAuth.tsx:71-75 | a run ends verified exactly when it started verified or contained the verified callback |
| Auth.StepAnnouncesOnlyWhenVerified | src/hooks/useAuth.tsx:127-162 | "Account Created" comes only from a submit in signup mode after verification |
| Auth.AccountOnlyAfterVerification | src/hooks/useAuth.tsx:127-162 | no run announces a new account unless a verification happened first |
| Auth.RejectedSubmitChangesNothing | src/hooks/useAuth.tsx:108-125 | an empty required field, or a signup password that misses a rule, leaves the state unchanged and raises one destructive notice |
| Auth.UnverifiedSignupCreatesNoAccount | src/hooks/useAuth.tsx:127-149 | an unverified signup either switches to login with the search cleared and fields kept, or opens verification, and never announces an account |
| Auth.FinalSubmitNavigates | src/hooks/useAuth.tsx:151-165 | a completing final submit announces login or account creation and navigates by role, in login mode too |
| Auth.FinalSubmitFails | src/hooks/useAuth.tsx:167-175 | a failing final submit raises the mode's failure notice and changes nothing |
| Auth.PasswordEditFlags | src/hooks/useAuth.tsx:38-52 | editing a signup password to a non-empty value recomputes the flags; in login mode or to an empty value the flags stay |
| Auth.ValidationIsTheRules | src/hooks/useAuth.tsx:77-81 | with current flags, signup validation holds exactly when the password meets all the rules |
| SignupForm.SubmitDisabled | src/components/auth/SignupForm.tsx:116 | the button is disabled while loading, while checking, or while the password fails validation |
| SignupForm.Label | src/components/auth/SignupForm.tsx:118-122 | "Checking account..." while checking, "Creating account..." while only loading, otherwise "Verify College ID" or "Sign Up" by verification |
| SignupForm.IdleDisabledIffWarning | src/components/auth/SignupForm.tsx:116-131 | between steps the button is disabled exactly when the requirements warning shows |
| SignupForm.CheckPendingLabel | src/components/auth/SignupForm.tsx:116-122 | during the existence check the button is disabled and reads "Checking account..." |
| SignupForm.FinalPendingLabel | src/components/auth/SignupForm.tsx:116-122 | during the final call the button is disabled and reads "Creating account..." |
| SignupForm.WarningTracksRules | src/components/auth/SignupForm.tsx:126-131 | with a typed password, the warning shows exactly when the password misses a rule |
| SignupForm.FreshSignupForm | src/components/auth/SignupForm.tsx:107-131 | a fresh signup form shows the warning and a disabled "Verify College ID" button, and no banner |
| SignupForm.ShowsVerifiedBanner | src/components/auth/SignupForm.tsx:107-111 | the green "Verified" banner shows exactly when the college ID has been verified |
| SignupForm.ShowsRequirementsWarning | src/components/auth/SignupForm.tsx:126-131 | the requirements warning shows exactly when the password check fails; `SignupForm.WarningTracksRules` ties it to the five rules |
| LoginPage.IsSignUp | src/pages/Login.tsx:16 | signup is requested exactly by the value "true" |
| LoginPage.Mount | src/pages/Login.tsx:15-38 | the page starts the controller with the signup flag and the unchecked role |
| LoginPage.PanelOf | src/pages/Login.tsx:69-100 | verification panel iff signup mode with verification open; login form iff login mode; otherwise the signup form |
| LoginPage.Enabled | src/pages/Login.tsx:69-100 | the events each panel can produce: the verification panel only the verified callback, the login form neither that callback nor name edits, the signup form everything but the callback; `LoginPage.PageNeverCreatesAccount` quantifies over runs built from them |
| LoginPage.RoleParameterUnchecked | src/pages/Login.tsx:16-17 | an unknown role string is kept, an absent one gives junior, and "TRUE" does not request signup |
| LoginPage.PanelStaysAfterVerified | src/pages/Login.tsx:69-70 | the verified handler leaves the verification panel on screen |
| LoginPage.Deliver | src/pages/Login.tsx:70 | passing on the step's effects sets verified exactly when one of them is the verified callback, and does not change the panel |
| LoginPage.VerificationHandOff | src/pages/Login.tsx:69-70 | a successful ID step leaves the controller verified with the typed ID and the derived role, with the panel still shown |
| LoginPage.PageNeverCreatesAccount | src/pages/Login.tsx:69-100 | no run of events the rendered panels can produce ever announces a new account |
| LoginPage.MountedPageNeverCreatesAccount | src/pages/Login.tsx:12-100 | from the page's first render, signup never reaches account creation |
| LoginPage.SignupStuckAsWritten | src/hooks/useAuth.tsx:71-75 | after a free e-mail and a verified ID the page still shows the panel, which offers no submit |
| LoginPage.FixedStep | src/hooks/useAuth.tsx:71-75 | the corrected verified handler also closes the panel, and otherwise acts as the original step |
| LoginPage.SignupCompletesWhenFixed | src/components/auth/SignupForm.tsx:107-122 | with the corrected handler, the three page events submit, verify and submit create the account and navigate by role |
| CollegeId.Mount | src/components/CollegeIdVerification.tsx:14-18 | the form starts empty, idle and unverified |
| CollegeId.DeriveRole | src/components/CollegeIdVerification.tsx:46 | senior exactly for IDs whose first three characters are "CS2", case-sensitive and untrimmed |
| CollegeId.Submit | src/components/CollegeIdVerification.tsx:26-66 | a missing ID or image gives only the validation notice; the form becomes verified exactly when both are given and the delay resolves; it is never left submitting |
| CollegeId.Step | src/components/CollegeIdVerification.tsx:20-78 | once verified, the form ignores every event |
| CollegeId.Run | src/components/CollegeIdVerification.tsx:26-66 | no run of events leaves the form submitting, because every path of the handler resets the flag |
| CollegeId.View | src/components/CollegeIdVerification.tsx:68-132 | the completion panel shows exactly when verified; otherwise the button is disabled and reads "Verifying..." exactly while submitting |
| CollegeId.MissingInputRejected | src/components/CollegeIdVerification.tsx:29-36 | a submit without ID or image changes nothing and calls no callback |
| CollegeId.SuccessReportsOnce | src/components/CollegeIdVerification.tsx:46-55 | success marks the form verified and calls `onVerified` once with the typed ID and the derived role |
| CollegeId.PendingDisablesSubmit | src/components/CollegeIdVerification.tsx:119-125 | the submit button is disabled while verifying |
| CollegeId.VerifiedIsFinal | src/components/CollegeIdVerification.tsx:68-78 | no run of events changes a verified form or emits anything |
| CollegeId.ChooseFilesKeepsFirst | src/components/CollegeIdVerification.tsx:20-24 | choosing files keeps the first one, and an empty selection keeps the previous image |
| CollegeId.SeniorPrefixStable | src/components/CollegeIdVerification.tsx:46 | extending a senior ID keeps it senior |
| CollegeId.DeriveRoleExamples | src/components/CollegeIdVerification.tsx:46 | "CS2045678" is senior; lower case, a leading space, another digit or a short ID gives junior |
| UploadForm.Submit | src/components/UploadForm.tsx:47-87 | an incomplete form gives only the validation notice; success resets all five inputs; failure keeps them; never left submitting |
| UploadForm.Step | src/components/UploadForm.tsx:37-45 | choosing files sets the file only when one was chosen, removing clears only the file, and edits emit nothing |
| UploadForm.Complete | src/components/UploadForm.tsx:50 | a form is complete when title, description and subject are non-empty and a type and a file are chosen; `UploadForm.Submit` rejects exactly the incomplete ones |
| UploadForm.Run | src/components/UploadForm.tsx:47-87 | no run leaves an upload in flight |
| UploadForm.PendingDisablesSubmit | src/components/UploadForm.tsx:179-183 | the upload button is disabled while an upload is pending and enabled between steps |
| UploadForm.SubmitDisabled | src/components/UploadForm.tsx:182 | the upload button is disabled exactly while an upload is in flight, never for an incomplete form |
| UploadForm.TypeOptionsCoverTypes | src/components/UploadForm.tsx:21-27 | the type choices are the five material types in order, each once, with distinct labels |
| UploadForm.FillAndUpload | src/components/UploadForm.tsx:47-76 | filling all five inputs and uploading successfully returns the blank form with one success notice |
| UploadForm.RemovedFileBlocksUpload | src/components/UploadForm.tsx:43-57 | after removing the chosen file, a submit is rejected with the validation notice |
| RatingStars.Mount | src/components/RatingStars.tsx:14-23 | an absent initial rating is 0, an absent read-only flag is false, and nothing is hovered |
| RatingStars.HandleClick | src/components/RatingStars.tsx:33-57 | read-only clicks do nothing; otherwise the rating becomes the star unless the delay rejects, and a saved click reports to `onChange` and thanks the user |
| RatingStars.Step | src/components/RatingStars.tsx:61-69 | a read-only widget ignores every pointer event, and hover values stay 0 or a star |
| RatingStars.Run | src/components/RatingStars.tsx:33-68 | no run of pointer events leaves a rating submission in flight, because the `finally` at line 54 clears the flag on every outcome |
| RatingStars.ReadOnlyIgnoresEverything | src/components/RatingStars.tsx:33-68 | no run of events changes a read-only widget or emits anything |
| RatingStars.RunKeepsRatingInRange | src/components/RatingStars.tsx:21-42 | the rating is always the mounted one or a whole star from 1 to 5 |
| RatingStars.Filled | src/components/RatingStars.tsx:73 | a star is filled when it is at most the hovered star, or, with nothing hovered, at most the rating |
| RatingStars.HoverPreview | src/components/RatingStars.tsx:67-73 | hovering star k fills exactly stars 1 to k |
| RatingStars.LeaveShowsRating | src/components/RatingStars.tsx:68-73 | after the pointer leaves, the stars up to the rating are filled |
| RatingStars.SavedClick | src/components/RatingStars.tsx:41-47 | a saved click sets the rating and calls `onChange` once with the star |
| RatingStars.FailedClickKeepsRating | src/components/RatingStars.tsx:48-53 | a failed submission keeps the rating and raises the failure notice |
| RatingStars.PendingDisablesButtons | src/components/RatingStars.tsx:65 | the buttons are disabled while submitting and for a read-only widget |
| RatingStars.ButtonsDisabled | src/components/RatingStars.tsx:65 | the star buttons are disabled for a read-only widget and while a rating is submitting |
| RatingStars.ReadOnlyDisplay | src/components/RatingStars.tsx:65-73 | a read-only widget rated 4.7 fills four stars and is disabled |
| FileSize.UnitFor | src/components/MaterialsList.tsx:22-26 | B below 1024 bytes, KB below 1024 * 1024, MB otherwise |
| FileSize.Magnitude | src/components/MaterialsList.tsx:23-25 | the printed number times its unit's factor is the size |
| FileSize.UnitMonotone | src/components/FileCard.tsx:34-38 | a larger file never gets a smaller unit |
| FileSize.MagnitudeInRange | src/components/FileCard.tsx:34-38 | for a non-negative size the number is below 1024 in B and KB, and at least 1 in KB and MB |
| FileSize.MockSizeUnits | src/pages/Dashboard.tsx:47-78 | the dashboard's three mock sizes, 3,500,000, 1,200,000 and 15,000,000 bytes, all show in MB |
| FileSize.BrowseSizeUnits | src/pages/Browse.tsx:34-100 | the browse page's sizes of 3.2, 1.8, 12.4 and 2.7 MiB show in MB, and those of 950 and 450 KiB in KB |
| FileSize.UnitEdges | src/components/FileCard.tsx:34-38 | 1023 bytes show in B, 1024 in KB, 1048575 in KB and 1048576 in MB, as the strict comparisons put them |
| MaterialsList.TypeColor | src/components/MaterialsList.tsx:28-36 | blue, orange, green and purple exactly for notes, paper, book and assignment; anything else is gray |
| MaterialsList.TypeLabel | src/components/MaterialsList.tsx:60 | the label is the type name with its first character upper-cased and the rest unchanged, so it lower-cases back to the name |
| MaterialsList.LowercaseTypeNames | src/types/index.ts:23 | every type name is a non-empty lower-case word |
| MaterialsList.RatingCell | src/components/MaterialsList.tsx:84 | a dash exactly when the rating is absent; otherwise the rating itself, zero included |
| MaterialsList.RatingCount | src/components/MaterialsList.tsx:87 | an absent count shows as 0 |
| MaterialsList.RatingCellsAreOrFallbacks | src/components/MaterialsList.tsx:84-87 | both cells agree with JavaScript's `||` on every material: the count equals `totalRatings || 0`, and the rating cell is a dash exactly when `rating?.toFixed(1) || "-"` gives "-", so a zero rating still shows |
| MaterialsList.MenuChoice | src/components/MaterialsList.tsx:99-110 | Edit and Delete emit their callback exactly when the handler is present; View Details emits nothing |
| MaterialsList.TypeColorsDistinct | src/components/MaterialsList.tsx:28-36 | the four named types get four different colours, and "other" is gray |
| MaterialsList.TypeLabelsDistinct | src/components/MaterialsList.tsx:60 | different types get different labels, such as "Notes" and "Assignment" |
| MaterialsList.MenuCallbackArguments | src/components/MaterialsList.tsx:99-103 | Edit passes the whole material and Delete passes its id |
| MaterialsList.MenuRun | src/components/MaterialsList.tsx:99-110 | a run of menu clicks emits at most one effect per click |
| MaterialsList.MenuRunCallbacks | src/components/MaterialsList.tsx:99-110 | over any run of clicks the list calls back exactly once per Edit or Delete click whose handler was given, in click order, Edit with the row's material and Delete with its id |
| Text.CapitalizeRoundTrip | src/components/FileCard.tsx:70 | capitalising a lower-case word and lower-casing it again gives the word back |
| FileCard.IconFor | src/components/FileCard.tsx:19-32 | each of notes, paper, book and assignment has its own icon; anything else gets the plain one |
| FileCard.IconTintMatchesBadge | src/components/FileCard.tsx:19-32 | the card's icon colour agrees with the list's badge colour for every type string |
| FileCard.IconsDistinct | src/components/FileCard.tsx:19-32 | different types get different icons, and "other" gets the plain file icon |
| FileCard.PreviewFor | src/components/FileCard.tsx:54-66 | the thumbnail shows exactly when a non-empty URL is given; otherwise the type's icon shows |
| FileCard.Download | src/components/FileCard.tsx:40-49 | `onDownload` is called once unless the delay rejects; loading is false afterwards even when it throws |
| FileCard.DownloadAll | src/components/FileCard.tsx:40-49 | repeated clicks emit at most one callback each and leave the card idle |
| FileCard.LoadingDiscipline | src/components/FileCard.tsx:99-104 | the button is disabled while the download is pending and enabled again afterwards |
| FileCard.DownloadDisabled | src/components/FileCard.tsx:102 | the download button is disabled exactly while a download is in flight |
| FileCard.OneCallbackPerClick | src/components/FileCard.tsx:40-49 | when no delay rejects, each click calls `onDownload` exactly once |
| Dashboard.TotalDownloads | src/pages/Dashboard.tsx:93 | the reduce from 0 equals the sum of the downloads, and is 0 for no materials |
| Dashboard.TotalMaterials | src/pages/Dashboard.tsx:94 | the material count equals a total that adds one per material, and is 0 exactly for no materials |
| Dashboard.AverageRating | src/pages/Dashboard.tsx:95 | the user's rating when present, otherwise 0 |
| Dashboard.AverageRatingIsOrFallback | src/pages/Dashboard.tsx:95 | the average equals `user.rating || 0` for every user, so an absent and a zero rating both give 0 |
| Dashboard.TotalsAdditive | src/pages/Dashboard.tsx:93-94 | totals of a concatenation add up |
| Dashboard.TotalBoundsEach | src/pages/Dashboard.tsx:93 | every material's downloads are at most the total |
| Dashboard.MockFigures | src/pages/Dashboard.tsx:22-95 | the mock dashboard shows 453 downloads over 3 materials and a 4.8 rating |

## Left out

- Markup and styling are not modelled. This covers CSS classes, animations, icons' sizes,
  `getSizeClass` and the purely presentational files: `Index.tsx`, `Hero.tsx`, `Navbar.tsx`,
  `LeftSidebar.tsx`, `NotFound.tsx`, `Upload.tsx`, `LoginForm.tsx`, `PasswordRequirements.tsx`,
  `UserStatsCard.tsx`.
- Timers and `async`/`await` scheduling are not modelled. Each simulated call is one atomic
  step with an explicit outcome. Its pending state is a separate function, not a reachable step
  state. A second submit of the same form cannot start while one is pending, because its
  submit button is disabled; other events can, as the item on pending events below says.
- The one-time-password client, `toast` and `navigate` are foreign calls. They appear only as
  the reply parameter and as emitted effects.
- Number and date formatting is not modelled: `toFixed`, `toLocaleString`,
  `formatDistanceToNow` and `Math.round` on the dashboard's stars. The size column keeps only
  the unit choice. Mock sizes are reals, and the Browse mock dates are plain date strings,
  because `new Date(y, m, d)` depends on the time zone.
- `document.title`, the scroll listener, and the Browse page's loading flag and filter-panel
  toggle are display-only. The Browse page's "Download Started" notice is an unconditional
  toast and is not modelled.
- `URLSearchParams` decoding is not modelled: the page receives the parameters already
  decoded, as `Option<string>`.
- Lower-casing is ASCII-only, and string length counts characters, not UTF-16 code units.
- The upload form's own subject table is the same five entries as the Browse catalog.
  `MockData.Subjects` stands for both.
- The hook also returns `setRole` and `setShowVerification`, but no rendered component calls
  them (`onRoleChange` is passed to the signup form and never used). The model therefore has no
  event for them.
- MaterialsList.TypeLabel: stated over the enumerated types only; the source capitalises any
  string, and `Text.Capitalize` states that general case.
- Events that arrive while a call is pending are not modelled. In the source the mode-toggle
  links and the inputs stay enabled during the existence check and the final call. For
  example, toggling during the 1.5-second login delay still raises the "Login Successful"
  toast of the old closure and navigates. The atomic steps rule such interleavings out.
- The browser's native form validation is not modelled. Inputs marked `required` (the signup
  form at `SignupForm.tsx:67,79,92`, the ID form at `CollegeIdVerification.tsx:97,111`, the
  upload form at `UploadForm.tsx:99,146,174`, and the login form at `LoginForm.tsx:44,57`) can
  stop a submit before its handler runs. The model's submit events always reach the handler,
  which is why it shows the handlers' own checks, such as the upload form's "Please fill in all
  required fields" notice, for inputs the browser would have blocked.
- Browse.Apply: its own contract only bounds the length; the content of the result is stated by
  `Browse.ApplyIsOneFilter` and `Browse.ApplyMembership`.

## Findings

| source | as written | input that shows it | evidently intended | confidence | as-written member | corrected member |
|---|---|---|---|---|---|---|
| src/hooks/useAuth.tsx:71-75 | the verified handler sets the ID, the role and the verified flag but leaves `showVerification` true, so the Login page keeps rendering the verification panel, which has no submit or toggle button | sign up with a free e-mail, verify ID "CS2045678": the page shows "Verification Complete" and the "Sign Up" button and verified banner of the signup form are never rendered | the handler also closes the verification panel, so the signup form returns with the verified banner and its "Sign Up" button completes the account | medium, not executed | LoginPage.SignupStuckAsWritten | LoginPage.SignupCompletesWhenFixed |

The as-written controller (`Auth.Step`) is the one the other rows describe.
`LoginPage.PageNeverCreatesAccount` proves the consequence for every page-driven run.
The corrected handler is `LoginPage.FixedStep`, with its run `LoginPage.FixedRun`.
