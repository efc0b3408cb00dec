/**
  The Browse page's material filter: a free-text query (case-blind, any of four fields),
  a subject menu and a type menu, combined with AND; an empty criterion matches everything.
  The page recomputes the shown list from the full list whenever a criterion changes.
 */
module Browse {
  import opened Wrappers
  import opened Text
  import opened Seqs
  import opened Types
  import MockData
  import opened MockStrings

  /** The three filter inputs; `""` and `None` are the menus' "All" entries. */
  datatype Criteria = Criteria(query: string, subject: string, kind: Option<MaterialType>)

  const NoCriteria: Criteria := Criteria("", "", None)

  /** The lower-cased query occurs in the lower-cased title, description, subject name or code. */
  predicate TextMatches(m: Material, query: string) {
    var q := Lower(query);
    || Includes(Lower(m.title), q)
    || Includes(Lower(m.description), q)
    || Includes(Lower(m.subject.name), q)
    || Includes(Lower(m.subject.code), q)
  }

  /** The filter as the page runs it: three successive `filter` passes, each only when its criterion is set. */
  function Apply(materials: seq<Material>, c: Criteria): (shown: seq<Material>)
    ensures |shown| <= |materials|
  {
    var byText := if c.query != "" then Filter(materials,(m: Material) => TextMatches(m, c.query)) else materials;
    var bySubject := if c.subject != "" then Filter(byText,(m: Material) => m.subjectId == c.subject) else byText;
    if c.kind.Some? then Filter(bySubject,(m: Material) => m.kind == c.kind.value) else bySubject
  }

  /** The reference condition for one material: each criterion is empty or satisfied. */
  predicate Keep(m: Material, c: Criteria) {
    && (c.query == "" || TextMatches(m, c.query))
    && (c.subject == "" || m.subjectId == c.subject)
    && (c.kind.None? || m.kind == c.kind.value)
  }

  /** A pass that runs only when `active` equals one unconditional pass by `!active || p`. */
  lemma ConditionalPass(xs: seq<Material>, active: bool, p: Material -> bool, k: Material -> bool)
    requires forall m :: k(m) == (!active || p(m))
    ensures (if active then Filter(xs, p) else xs) == Filter(xs, k)
  {
    if active {
      FilterCongruent(xs, p, k);
    } else {
      FilterAllKept(xs, k);
    }
  }

  /** The three conditional passes are one pass by `Keep`. */
  lemma ApplyIsOneFilter(materials: seq<Material>, c: Criteria)
    ensures Apply(materials, c) == Filter(materials,(m: Material) => Keep(m, c))
  {
    var k1 := (m: Material) => c.query == "" || TextMatches(m, c.query);
    var k2 := (m: Material) => c.subject == "" || m.subjectId == c.subject;
    var k3 := (m: Material) => c.kind.None? || m.kind == c.kind.value;
    var k12 := (m: Material) => k1(m) && k2(m);
    var byText := if c.query != "" then Filter(materials,(m: Material) => TextMatches(m, c.query)) else materials;
    ConditionalPass(materials, c.query != "",(m: Material) => TextMatches(m, c.query), k1);
    var bySubject := if c.subject != "" then Filter(byText,(m: Material) => m.subjectId == c.subject) else byText;
    ConditionalPass(byText, c.subject != "",(m: Material) => m.subjectId == c.subject, k2);
    ConditionalPass(bySubject, c.kind.Some?,(m: Material) => c.kind.Some? && m.kind == c.kind.value, k3);
    if c.kind.Some? {
      FilterCongruent(bySubject,(m: Material) => m.kind == c.kind.value,(m: Material) => c.kind.Some? && m.kind == c.kind.value);
    }
    FilterFuse(materials, k1, k2, k12);
    FilterFuse(materials, k12, k3,(m: Material) => Keep(m, c));
  }

  /** A material is shown iff it is in the list and meets every criterion. */
  lemma ApplyMembership(materials: seq<Material>, c: Criteria, m: Material)
    ensures m in Apply(materials, c) <==> m in materials && Keep(m, c)
  {
    ApplyIsOneFilter(materials, c);
    FilterMembership(materials,(m: Material) => Keep(m, c), m);
  }

  /** The shown list keeps the original order: it is a subsequence of the full list. */
  lemma ApplyKeepsOrder(materials: seq<Material>, c: Criteria)
    ensures IsSubsequence(Apply(materials, c), materials)
  {
    ApplyIsOneFilter(materials, c);
    FilterIsSubsequence(materials,(m: Material) => Keep(m, c));
  }

  /** Filtering the shown list again with the same criteria changes nothing. */
  lemma ApplyIdempotent(materials: seq<Material>, c: Criteria)
    ensures Apply(Apply(materials, c), c) == Apply(materials, c)
  {
    ApplyIsOneFilter(materials, c);
    ApplyIsOneFilter(Apply(materials, c), c);
    FilterIdempotent(materials,(m: Material) => Keep(m, c));
  }

  /** With every criterion empty the shown list is the full list. */
  lemma ApplyWithoutCriteria(materials: seq<Material>)
    ensures Apply(materials, NoCriteria) == materials
  {
  }

  /** Filtering a concatenation filters each part. */
  lemma ApplyAppend(a: seq<Material>, b: seq<Material>, c: Criteria)
    ensures Apply(a + b, c) == Apply(a, c) + Apply(b, c)
  {
    ApplyIsOneFilter(a + b, c);
    ApplyIsOneFilter(a, c);
    ApplyIsOneFilter(b, c);
    FilterAppend(a, b,(m: Material) => Keep(m, c));
  }

  /** The query's letter case never matters. */
  lemma QueryCaseInsensitive(m: Material, c: Criteria)
    ensures Keep(m, c) == Keep(m, c.(query := Lower(c.query)))
  {
    LowerIdempotent(c.query);
  }

  /** `clearFilters`: resets the query and both menus. */
  function ClearFilters(c: Criteria): (r: Criteria)
    ensures r.query == "" && r.subject == "" && r.kind.None?
    ensures ActiveFilterCount(r) == 0
  {
    NoCriteria
  }

  /** After clearing, every material is shown again. */
  lemma ClearShowsEverything(materials: seq<Material>, c: Criteria)
    ensures Apply(materials, ClearFilters(c)) == materials
    ensures ActiveFilterCount(ClearFilters(c)) == 0
  {
  }

  /** The number on the Filters button: one per menu that narrows the list; the query never counts. */
  function ActiveFilterCount(c: Criteria): (n: nat)
    ensures n <= 2
    ensures n == 0 <==> c.subject == "" && c.kind.None?
    ensures n == 2 <==> c.subject != "" && c.kind.Some?
  {
    (if c.subject != "" then 1 else 0) + (if c.kind.Some? then 1 else 0)
  }

  /** The badge, shown only while a menu filter is set. */
  function Badge(c: Criteria): (badge: Option<nat>)
    ensures badge.Some? <==> ActiveFilterCount(c) > 0
    ensures badge.Some? ==> 1 <= badge.value <= 2
  {
    if c.subject != "" || c.kind.Some? then Some(ActiveFilterCount(c)) else None
  }

  /** The badge does not depend on the search text. */
  lemma BadgeIgnoresQuery(c: Criteria, q: string)
    ensures Badge(c.(query := q)) == Badge(c)
  {
  }

  /** The page's state: the full list, the criteria and the list on screen. */
  datatype Page = Page(materials: seq<Material>, criteria: Criteria, shown: seq<Material>)

  datatype PageEvent = SetQuery(query: string) | SetSubject(subject: string) | SetKind(kind: Option<MaterialType>) | Clear

  /** The list on screen is the filter of the full list by the current criteria. */
  ghost predicate Consistent(p: Page) {
    p.shown == Apply(p.materials, p.criteria)
  }

  /** The first render: both lists start as the mock list and every criterion is empty. */
  function InitialPage(): (p: Page)
    ensures p.shown == MockData.BrowseMaterials && Consistent(p)
  {
    Page(MockData.BrowseMaterials, NoCriteria, MockData.BrowseMaterials)
  }

  /** One input change followed by the filter effect. */
  function Step(p: Page, e: PageEvent): (q: Page)
    ensures q.materials == p.materials && Consistent(q)
    ensures e.Clear? ==> q.shown == p.materials
    ensures e.SetQuery? ==> q.criteria.subject == p.criteria.subject && q.criteria.kind == p.criteria.kind
  {
    var c := match e
      case SetQuery(s) => p.criteria.(query := s)
      case SetSubject(s) => p.criteria.(subject := s)
      case SetKind(k) => p.criteria.(kind := k)
      case Clear => ClearFilters(p.criteria);
    Page(p.materials, c, Apply(p.materials, c))
  }

  /**
    The worked example: searching "Algorithms" with the type menu on notes keeps only the
    cheat sheet (material "6"); the question paper matches the text but is a paper.
   */
  lemma AlgorithmsNotesExample()
    ensures Apply(MockData.BrowseMaterials, Criteria("Algorithms", "", Some(Notes))) == [MockData.Browse6]
  {
    var c := Criteria("Algorithms", "", Some(Notes));
    var ms := MockData.BrowseMaterials;
    var k := (m: Material) => Keep(m, c);
    ExampleVerdicts();
    ApplyIsOneFilter(ms, c);
    assert Filter(ms[5..], k) == [ms[5]] by { assert ms[5..][1..] == []; }
    assert Filter(ms[4..], k) == Filter(ms[5..], k) by { assert ms[4..][1..] == ms[5..]; }
    assert Filter(ms[3..], k) == Filter(ms[4..], k) by { assert ms[3..][1..] == ms[4..]; }
    assert Filter(ms[2..], k) == Filter(ms[3..], k) by { assert ms[2..][1..] == ms[3..]; }
    assert Filter(ms[1..], k) == Filter(ms[2..], k) by { assert ms[1..][1..] == ms[2..]; }
  }

  /** Which mock records the example's criteria keep: only the cheat sheet. */
  lemma ExampleVerdicts()
    ensures var c := Criteria("Algorithms", "", Some(Notes));
      var ms := MockData.BrowseMaterials;
      && !Keep(ms[0], c) && !Keep(ms[1], c) && !Keep(ms[2], c)
      && !Keep(ms[3], c) && !Keep(ms[4], c) && Keep(ms[5], c)
  {
    ExampleRejectsDataStructures();
    ExampleRejectsOtherKinds();
    ExampleRejectsLabManual();
    ExampleKeepsCheatSheet();
  }

  /** The paper, the book and the assignment fail the type filter whatever their text. */
  lemma ExampleRejectsOtherKinds()
    ensures var c := Criteria("Algorithms", "", Some(Notes));
      var ms := MockData.BrowseMaterials;
      !Keep(ms[1], c) && !Keep(ms[2], c) && !Keep(ms[3], c)
  {
    var ms := MockData.BrowseMaterials;
    assert ms[1] == MockData.Browse2 && ms[2] == MockData.Browse3 && ms[3] == MockData.Browse4;
    OtherKindRejected(MockData.Browse2);
    OtherKindRejected(MockData.Browse3);
    OtherKindRejected(MockData.Browse4);
  }

  /** A material that is not notes fails the notes filter whatever its text. */
  lemma OtherKindRejected(m: Material)
    requires m.kind != Notes
    ensures !Keep(m, Criteria("Algorithms", "", Some(Notes)))
  {
  }

  /** The cheat sheet is notes whose title starts with the query. */
  lemma ExampleKeepsCheatSheet()
    ensures Keep(MockData.BrowseMaterials[5], Criteria("Algorithms", "", Some(Notes)))
  {
    CheatSheetMatches();
    assert MockData.BrowseMaterials[5] == MockData.Browse6;
  }

  /** The data-structures notes are notes, but nothing in them mentions the query. */
  lemma ExampleRejectsDataStructures()
    ensures !Keep(MockData.BrowseMaterials[0], Criteria("Algorithms", "", Some(Notes)))
  {
    Browse1LacksLg();
    LacksLgNoMatch(MockData.Browse1, "Algorithms");
  }

  /** The lab manual is notes too, and nothing in it mentions the query either. */
  lemma ExampleRejectsLabManual()
    ensures !Keep(MockData.BrowseMaterials[4], Criteria("Algorithms", "", Some(Notes)))
  {
    Browse5LacksLg();
    LacksLgNoMatch(MockData.Browse5, "Algorithms");
  }

  lemma CheatSheetMatches()
    ensures TextMatches(MockData.Browse6, "Algorithms")
  {
    var q := Lower("Algorithms");
    var t := Lower(MockData.Browse6.title);
    assert t[..|q|] == q;
    assert StartsWith(t, q);
  }

  /** A material none of whose searchable fields has "lg" matches no query with "lg" at 1..2. */
  lemma LacksLgNoMatch(m: Material, query: string)
    requires |query| >= 3 && LowerChar(query[1]) == 'l' && LowerChar(query[2]) == 'g'
    requires LacksPair(m.title, 'l', 'g') && LacksPair(m.description, 'l', 'g')
    requires LacksPair(m.subject.name, 'l', 'g') && LacksPair(m.subject.code, 'l', 'g')
    ensures !TextMatches(m, query)
  {
    var q := Lower(query);
    LacksPairNoMatch(m.title, q, 1);
    LacksPairNoMatch(m.description, q, 1);
    LacksPairNoMatch(m.subject.name, q, 1);
    LacksPairNoMatch(m.subject.code, q, 1);
  }
}
