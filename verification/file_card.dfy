/**
  The browse page's material card: the type icon, the preview, and the download button's
  loading discipline.
 */
module FileCard {
  import opened Wrappers
  import opened Types
  import opened Effects
  import MaterialsList

  datatype Icon = FileTextIcon | FileClockIcon | BookOpenIcon | FileQuestionIcon | PlainFileIcon

  /** The icon for a type string; anything unrecognised gets the plain file icon. */
  function IconFor(kind: string): (i: Icon)
    ensures i == FileTextIcon <==> kind == "notes"
    ensures i == FileClockIcon <==> kind == "paper"
    ensures i == BookOpenIcon <==> kind == "book"
    ensures i == FileQuestionIcon <==> kind == "assignment"
  {
    if kind == "notes" then FileTextIcon
    else if kind == "paper" then FileClockIcon
    else if kind == "book" then BookOpenIcon
    else if kind == "assignment" then FileQuestionIcon
    else PlainFileIcon
  }

  /** The icon's colour family. */
  function IconTint(i: Icon): MaterialsList.Tint {
    match i
    case FileTextIcon => MaterialsList.Blue
    case FileClockIcon => MaterialsList.Orange
    case BookOpenIcon => MaterialsList.Green
    case FileQuestionIcon => MaterialsList.Purple
    case PlainFileIcon => MaterialsList.Gray
  }

  /** The card's icon and the list's badge agree on the colour of every type string. */
  lemma IconTintMatchesBadge(kind: string)
    ensures IconTint(IconFor(kind)) == MaterialsList.TypeColor(kind)
  {
  }

  /** Each named type has its own icon; "other" gets the plain one. */
  lemma IconsDistinct(t: MaterialType, u: MaterialType)
    ensures IconFor(TypeName(Other)) == PlainFileIcon
    ensures t != Other ==> IconFor(TypeName(t)) != PlainFileIcon
    ensures t != u ==> IconFor(TypeName(t)) != IconFor(TypeName(u))
  {
  }

  datatype Preview = Thumbnail(url: string) | IconPreview(icon: Icon)

  /** The preview: the thumbnail when a non-empty URL is given, otherwise the enlarged type icon. */
  function PreviewFor(m: Material): (p: Preview)
    ensures p.Thumbnail? <==> m.thumbnailUrl.Some? && m.thumbnailUrl.value != ""
    ensures p.Thumbnail? ==> p.url == m.thumbnailUrl.value
    ensures p.IconPreview? ==> p.icon == IconFor(TypeName(m.kind))
  {
    match m.thumbnailUrl
    case Some(url) => if url != "" then Thumbnail(url) else IconPreview(IconFor(TypeName(m.kind)))
    case None => IconPreview(IconFor(TypeName(m.kind)))
  }

  datatype Card = Card(isLoading: bool)

  /** How the simulated download ends. */
  datatype DownloadOutcome =
    | Downloaded      // the delay resolves and `onDownload` returns
    | DelayRejects    // the awaited delay rejects; `onDownload` is not reached
    | CallbackThrows  // `onDownload` throws

  /** The card after a click, what it emitted, and whether the handler's promise rejected. */
  datatype DownloadResult = DownloadResult(card: Card, effects: seq<Effect>, rejected: bool)

  /** The download handler with its outcome known; there is no catch, only the reset of the loading flag. */
  function Download(c: Card, outcome: DownloadOutcome): (r: DownloadResult)
    requires !c.isLoading
    ensures !r.card.isLoading
    ensures r.effects == (if outcome.DelayRejects? then [] else [DownloadCallback])
    ensures r.rejected <==> !outcome.Downloaded?
  {
    // The delay runs in the pending state; the `finally` clears the flag on every path.
    var p := Pending(c);
    match outcome
    case Downloaded => DownloadResult(p.(isLoading := false), [DownloadCallback], false)
    case DelayRejects => DownloadResult(p.(isLoading := false), [], true)
    case CallbackThrows => DownloadResult(p.(isLoading := false), [DownloadCallback], true)
  }

  /** What the card shows while the download is pending. */
  function Pending(c: Card): (p: Card)
    ensures p.isLoading
  {
    Card(true)
  }

  /** The download button is disabled while loading. */
  predicate DownloadDisabled(c: Card) {
    c.isLoading
  }

  /** A run of clicks on an idle card: one callback per click that gets past the delay. */
  function DownloadAll(c: Card, outcomes: seq<DownloadOutcome>): (r: DownloadResult)
    requires !c.isLoading
    ensures !r.card.isLoading
    ensures |r.effects| <= |outcomes|
    ensures forall i :: 0 <= i < |r.effects| ==> r.effects[i] == DownloadCallback
    decreases |outcomes|
  {
    if |outcomes| == 0 then DownloadResult(c, [], false)
    else
      var first := Download(c, outcomes[0]);
      var rest := DownloadAll(first.card, outcomes[1..]);
      DownloadResult(rest.card, first.effects + rest.effects, first.rejected || rest.rejected)
  }

  /** The button is disabled exactly while a download is pending, and enabled again afterwards. */
  lemma LoadingDiscipline(c: Card, outcome: DownloadOutcome)
    requires !c.isLoading
    ensures DownloadDisabled(Pending(c)) && !DownloadDisabled(Download(c, outcome).card)
  {
  }

  /** If no click is rejected by the delay, every click calls `onDownload` exactly once. */
  lemma {:induction false} OneCallbackPerClick(c: Card, outcomes: seq<DownloadOutcome>)
    requires !c.isLoading
    requires forall i :: 0 <= i < |outcomes| ==> !outcomes[i].DelayRejects?
    ensures |DownloadAll(c, outcomes).effects| == |outcomes|
    decreases |outcomes|
  {
    if |outcomes| > 0 {
      OneCallbackPerClick(Download(c, outcomes[0]).card, outcomes[1..]);
    }
  }
}
