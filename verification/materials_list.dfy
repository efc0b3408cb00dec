/**
  The dashboard's materials table: the type badge's colour and text, the rating cell's
  fallbacks, and the row menu's callbacks.
 */
module MaterialsList {
  import opened Wrappers
  import opened Types
  import opened Text
  import opened Effects
  import opened Seqs

  /** The badge colour family. */
  datatype Tint = Blue | Orange | Green | Purple | Gray

  /** The badge colour for a type string; anything unrecognised is gray. */
  function TypeColor(kind: string): (t: Tint)
    ensures t == Blue <==> kind == "notes"
    ensures t == Orange <==> kind == "paper"
    ensures t == Green <==> kind == "book"
    ensures t == Purple <==> kind == "assignment"
  {
    if kind == "notes" then Blue
    else if kind == "paper" then Orange
    else if kind == "book" then Green
    else if kind == "assignment" then Purple
    else Gray
  }

  /** The badge text: the type string with its first character upper-cased. */
  function TypeLabel(kind: MaterialType): (l: string)
    ensures |l| == |TypeName(kind)|
    ensures Lower(l) == TypeName(kind)
    ensures IsUpper(l[0]) && l[0] == UpperChar(TypeName(kind)[0])
    ensures l[1..] == TypeName(kind)[1..]
  {
    LowercaseTypeNames(kind);
    CapitalizeRoundTrip(TypeName(kind));
    Capitalize(TypeName(kind))
  }

  /** Every type name is a non-empty lower-case word. */
  lemma LowercaseTypeNames(t: MaterialType)
    ensures |TypeName(t)| > 0
    ensures forall i :: 0 <= i < |TypeName(t)| ==> IsLower(TypeName(t)[i])
  {
  }

  /** What the rating cell shows. */
  datatype RatingText = Dash | Average(value: real)

  /** The rating cell: a dash only when there is no rating; a zero rating still shows. */
  function RatingCell(m: Material): (c: RatingText)
    ensures c.Dash? <==> m.rating.None?
    ensures c.Average? ==> c.value == m.rating.value
  {
    match m.rating
    case None => Dash
    case Some(r) => Average(r)
  }

  /** The count beside the rating: an absent count shows as 0. */
  function RatingCount(m: Material): (n: nat)
    ensures m.totalRatings.None? ==> n == 0
    ensures m.totalRatings.Some? ==> n == m.totalRatings.value
  {
    m.totalRatings.GetOr(0)
  }

  /**
    Both cells are JavaScript `||` fallbacks: the count is `totalRatings || 0`, and the
    rating is `rating?.toFixed(1) || "-"`, where `fixed` stands for the text `toFixed(1)`
    prints, which is never empty. So a zero count and an absent one both show 0, while a
    zero rating prints "0.0", which is not falsy, and keeps its cell.
   */
  lemma RatingCellsAreOrFallbacks(m: Material, fixed: string)
    requires fixed != ""
    ensures RatingCount(m) == NatOr(m.totalRatings, 0)
    ensures StringOr(if m.rating.Some? then Some(fixed) else None, "-")
         == (if RatingCell(m).Dash? then "-" else fixed)
  {
  }

  /** Which optional callback props the list was given. */
  datatype Handlers = Handlers(hasOnEdit: bool, hasOnDelete: bool)

  datatype MenuItem = EditItem | DeleteItem | ViewDetails

  /** The effects of choosing a row's menu item. */
  function MenuChoice(h: Handlers, m: Material, item: MenuItem): (fx: seq<Effect>)
    ensures |fx| <= 1
    ensures item.ViewDetails? ==> fx == []
    ensures item.EditItem? ==> (fx != [] <==> h.hasOnEdit)
    ensures item.DeleteItem? ==> (fx != [] <==> h.hasOnDelete)
    ensures forall i :: 0 <= i < |fx| ==> fx[i] == EditRequested(m) || fx[i] == DeleteRequested(m.id)
  {
    match item
    case EditItem => if h.hasOnEdit then [EditRequested(m)] else []
    case DeleteItem => if h.hasOnDelete then [DeleteRequested(m.id)] else []
    case ViewDetails => []
  }

  /** The four named types get four different colours, and "other" falls through to gray. */
  lemma TypeColorsDistinct(t: MaterialType, u: MaterialType)
    ensures TypeColor(TypeName(Other)) == Gray
    ensures t != Other ==> TypeColor(TypeName(t)) != Gray
    ensures t != u ==> TypeColor(TypeName(t)) != TypeColor(TypeName(u))
  {
  }

  /** Different types get different badge texts; the five texts as rendered. */
  lemma TypeLabelsDistinct(t: MaterialType, u: MaterialType)
    ensures t != u ==> TypeLabel(t) != TypeLabel(u)
    ensures TypeLabel(Notes) == "Notes" && TypeLabel(Assignment) == "Assignment" && TypeLabel(Other) == "Other"
  {
    if t != u && TypeLabel(t) == TypeLabel(u) {
      assert TypeName(t) == Lower(TypeLabel(t)) == Lower(TypeLabel(u)) == TypeName(u);
      MaterialTypesEnumerated();
    }
  }

  /** Edit hands over the whole row's material and Delete only its id. */
  lemma MenuCallbackArguments(m: Material)
    ensures MenuChoice(Handlers(true, true), m, EditItem) == [EditRequested(m)]
    ensures MenuChoice(Handlers(true, true), m, DeleteItem) == [DeleteRequested(m.id)]
    ensures MenuChoice(Handlers(false, false), m, EditItem) == []
    ensures MenuChoice(Handlers(false, false), m, DeleteItem) == []
  {
  }

  /** One click in the table: the row's material and the menu item chosen. */
  datatype MenuClick = MenuClick(row: Material, item: MenuItem)

  /** The effects of a run of menu clicks, in order. */
  function MenuRun(h: Handlers, clicks: seq<MenuClick>): (fx: seq<Effect>)
    ensures |fx| <= |clicks|
    decreases |clicks|
  {
    if |clicks| == 0 then []
    else MenuChoice(h, clicks[0].row, clicks[0].item) + MenuRun(h, clicks[1..])
  }

  /** A click that reaches a callback prop the list was given. */
  predicate Reaches(h: Handlers, c: MenuClick) {
    (c.item.EditItem? && h.hasOnEdit) || (c.item.DeleteItem? && h.hasOnDelete)
  }

  /** The callback request of an Edit or Delete click: the row's material, or only its id. */
  function Requested(c: MenuClick): Effect {
    if c.item.EditItem? then EditRequested(c.row) else DeleteRequested(c.row.id)
  }

  function Requests(cs: seq<MenuClick>): seq<Effect>
    decreases |cs|
  {
    if |cs| == 0 then [] else [Requested(cs[0])] + Requests(cs[1..])
  }

  /**
    Over any run of clicks, the list calls back exactly once per click that reaches a
    given handler, in click order, each call carrying that click's row.
   */
  lemma {:induction false} MenuRunCallbacks(h: Handlers, clicks: seq<MenuClick>)
    ensures MenuRun(h, clicks) == Requests(Filter(clicks, c => Reaches(h, c)))
    ensures |MenuRun(h, clicks)| == |Filter(clicks, c => Reaches(h, c))|
    decreases |clicks|
  {
    if |clicks| > 0 {
      var c := clicks[0];
      var rest := Filter(clicks[1..], c => Reaches(h, c));
      MenuRunCallbacks(h, clicks[1..]);
      RequestsLength(rest);
      if Reaches(h, c) {
        assert ([c] + rest)[1..] == rest;
      } else {
        assert [] + rest == rest;
      }
    }
  }

  lemma {:induction false} RequestsLength(cs: seq<MenuClick>)
    ensures |Requests(cs)| == |cs|
    decreases |cs|
  {
    if |cs| > 0 {
      RequestsLength(cs[1..]);
    }
  }
}
