/**
  The five-star rating widget: hovering previews a rating, a click submits one, and a
  read-only widget ignores the pointer entirely.
 */
module RatingStars {
  import opened Wrappers
  import opened Types
  import opened Effects

  datatype Widget = Widget(
    rating: real,          // the initial rating may be any average, such as 4.7
    hovered: int,          // 0 when no star is hovered
    isSubmitting: bool,
    readOnly: bool,
    hasOnChange: bool)     // whether the optional `onChange` prop was given

  /** How a submitted rating ends. */
  datatype SaveOutcome =
    | Saved            // the delay resolves and the callback returns
    | DelayRejects     // the awaited delay rejects before anything changes
    | CallbackThrows   // the delay resolves but `onChange`, when given, throws

  datatype RatingEvent = Enter(star: Stars) | Leave | Click(star: Stars, outcome: SaveOutcome)

  datatype RatingReaction = RatingReaction(widget: Widget, effects: seq<Effect>)

  /** The widget as mounted; an absent initial rating is 0 and an absent read-only flag is false. */
  function Mount(initialRating: Option<real>, readOnly: Option<bool>, hasOnChange: bool): (w: Widget)
    ensures w.rating == initialRating.GetOr(0.0) && w.hovered == 0 && !w.isSubmitting
    ensures w.readOnly <==> readOnly == Some(true)
    ensures w.hasOnChange == hasOnChange
    ensures Valid(w)
  {
    Widget(initialRating.GetOr(0.0), 0, false, readOnly.GetOr(false), hasOnChange)
  }

  /** The hover value is 0 or a star, and always 0 when read-only. */
  predicate Valid(w: Widget) {
    (w.hovered == 0 || 1 <= w.hovered <= 5) && (w.readOnly ==> w.hovered == 0)
  }

  /** The fill rule: star `star` is filled iff it is at most the hovered star, or the rating when none is hovered. */
  predicate Filled(w: Widget, star: int) {
    star as real <= (if w.hovered != 0 then w.hovered as real else w.rating)
  }

  /** The star buttons are disabled when read-only or while a rating is submitting. */
  predicate ButtonsDisabled(w: Widget) {
    w.readOnly || w.isSubmitting
  }

  /** The click handler with the submission's outcome known. */
  function HandleClick(w: Widget, star: Stars, outcome: SaveOutcome): (r: RatingReaction)
    requires !w.isSubmitting
    ensures !r.widget.isSubmitting && r.widget.hovered == w.hovered
    ensures w.readOnly ==> r == RatingReaction(w, [])
    ensures !w.readOnly ==> r.widget.rating == (if outcome.DelayRejects? then w.rating else star as real)
    ensures !w.readOnly && outcome.Saved? ==>
      r.effects == (if w.hasOnChange then [RatingChanged(star)] else []) + [Toast(RatingSubmitted(star))]
  {
    if w.readOnly then RatingReaction(w, [])
    else
      // The delay runs in the pending state; the `finally` clears the flag on every path.
      var p := Pending(w);
      match outcome
      case DelayRejects => RatingReaction(p.(isSubmitting := false), [Toast(RatingFailed)])
      case _ =>
        var changed := if w.hasOnChange then [RatingChanged(star)] else [];
        var notice := if w.hasOnChange && outcome.CallbackThrows? then RatingFailed else RatingSubmitted(star);
        RatingReaction(p.(rating := star as real, isSubmitting := false), changed + [Toast(notice)])
  }

  /** One pointer event. */
  function Step(w: Widget, e: RatingEvent): (r: RatingReaction)
    requires !w.isSubmitting
    ensures !r.widget.isSubmitting
    ensures Valid(w) ==> Valid(r.widget)
    ensures r.widget.readOnly == w.readOnly && r.widget.hasOnChange == w.hasOnChange
    ensures w.readOnly ==> r == RatingReaction(w, [])
  {
    match e
    case Enter(star) => RatingReaction(if w.readOnly then w else w.(hovered := star), [])
    case Leave => RatingReaction(if w.readOnly then w else w.(hovered := 0), [])
    case Click(star, outcome) => HandleClick(w, star, outcome)
  }

  /** A run of pointer events. */
  function Run(w: Widget, events: seq<RatingEvent>): (r: RatingReaction)
    requires !w.isSubmitting
    ensures !r.widget.isSubmitting
    decreases |events|
  {
    if |events| == 0 then RatingReaction(w, [])
    else
      var first := Step(w, events[0]);
      var rest := Run(first.widget, events[1..]);
      RatingReaction(rest.widget, first.effects + rest.effects)
  }

  /** What the widget shows while a rating is submitting. */
  function Pending(w: Widget): (p: Widget)
    ensures p.isSubmitting
  {
    w.(isSubmitting := true)
  }

  /** The rating is the mounted one or a whole star value. */
  ghost predicate RatingFrom(w: Widget, initial: real) {
    w.rating == initial || (1.0 <= w.rating <= 5.0 && w.rating == w.rating.Floor as real)
  }

  /** A read-only widget ignores every run of events. */
  lemma {:induction false} ReadOnlyIgnoresEverything(w: Widget, events: seq<RatingEvent>)
    requires !w.isSubmitting && w.readOnly
    ensures Run(w, events) == RatingReaction(w, [])
    decreases |events|
  {
    if |events| > 0 {
      ReadOnlyIgnoresEverything(w, events[1..]);
    }
  }

  /** Every run keeps the rating either the mounted value or a star in 1..5, and keeps the widget valid. */
  lemma {:induction false} RunKeepsRatingInRange(w: Widget, initial: real, events: seq<RatingEvent>)
    requires !w.isSubmitting && Valid(w) && RatingFrom(w, initial)
    ensures Valid(Run(w, events).widget) && RatingFrom(Run(w, events).widget, initial)
    decreases |events|
  {
    if |events| > 0 {
      var next := Step(w, events[0]).widget;
      if events[0].Click? && !w.readOnly && !events[0].outcome.DelayRejects? {
        var star := events[0].star;
        assert next.rating == star as real;
        assert (star as real).Floor == star;
      }
      RunKeepsRatingInRange(next, initial, events[1..]);
    }
  }

  /** Hovering star k previews exactly stars 1..k. */
  lemma HoverPreview(w: Widget, k: Stars, star: int)
    requires !w.isSubmitting && !w.readOnly
    ensures Filled(Step(w, Enter(k)).widget, star) <==> star <= k
  {
  }

  /** Leaving the stars shows the rating again. */
  lemma LeaveShowsRating(w: Widget, star: int)
    requires !w.isSubmitting && !w.readOnly
    ensures Filled(Step(w, Leave).widget, star) <==> star as real <= w.rating
  {
  }

  /** A saved click sets the rating, reports it to `onChange` once, and thanks the user. */
  lemma SavedClick(w: Widget, star: Stars)
    requires !w.isSubmitting && !w.readOnly && w.hasOnChange
    ensures Step(w, Click(star, Saved)) ==
      RatingReaction(w.(rating := star as real), [RatingChanged(star), Toast(RatingSubmitted(star))])
  {
  }

  /** A failed submission keeps the rating and raises the failure notice. */
  lemma FailedClickKeepsRating(w: Widget, star: Stars)
    requires !w.isSubmitting && !w.readOnly
    ensures Step(w, Click(star, DelayRejects)) == RatingReaction(w, [Toast(RatingFailed)])
  {
  }

  /** The buttons are disabled while submitting and for a read-only widget. */
  lemma PendingDisablesButtons(w: Widget)
    ensures ButtonsDisabled(Pending(w))
    ensures w.readOnly ==> ButtonsDisabled(w)
  {
  }

  /** A mounted read-only widget with rating 4.7 fills stars 1 to 4 and not 5. */
  lemma ReadOnlyDisplay()
    ensures var w := Mount(Some(4.7), Some(true), false);
      Filled(w, 4) && !Filled(w, 5) && ButtonsDisabled(w)
  {
  }
}
