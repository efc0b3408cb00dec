/**
  The in-memory tables the pages start from: the subject catalog (shared verbatim by the
  Browse page and the upload form), the Browse page's six materials, and the Dashboard's
  user and three materials. Long strings are written as concatenations of short pieces;
  the value is the same string.
 */
module MockData {
  import opened Wrappers
  import opened Types

  const Subjects: seq<Subject> := [
    Subject("cs101", "Introduction to Programming", "CS101", 1),
    Subject("cs201", "Data Structures", "CS201", 3),
    Subject("cs301", "Algorithms", "CS301", 5),
    Subject("cs401", "Operating Systems", "CS401", 6),
    Subject("cs501", "Database Systems", "CS501", 7)
  ]

  /** `subjects.find(s => s.id === id)`: the first catalog entry with that id. */
  function FindSubject(catalog: seq<Subject>, id: string): (found: Option<Subject>)
    ensures found.Some? ==> found.value in catalog && found.value.id == id
    ensures found.Some? ==> exists i :: 0 <= i < |catalog| && catalog[i] == found.value
                                  && (forall j :: 0 <= j < i ==> catalog[j].id != id)
    ensures found.None? ==> forall i :: 0 <= i < |catalog| ==> catalog[i].id != id
    decreases |catalog|
  {
    if |catalog| == 0 then None
    else if catalog[0].id == id then Some(catalog[0])
    else
      var rest := FindSubject(catalog[1..], id);
      assert rest.Some? ==> exists i :: 0 <= i < |catalog| && catalog[i] == rest.value
                                     && (forall j :: 0 <= j < i ==> catalog[j].id != id)
      by {
        if rest.Some? {
          var k :| 0 <= k < |catalog[1..]| && catalog[1..][k] == rest.value
                   && (forall j :: 0 <= j < k ==> catalog[1..][j].id != id);
          assert catalog[k + 1] == rest.value;
          forall j | 0 <= j < k + 1 ensures catalog[j].id != id {
            if j > 0 { assert catalog[j] == catalog[1..][j - 1]; }
          }
        }
      }
      rest
  }

  /**
    The mock materials embed catalog entries by position (the source looks each one up with
    `find(...)!`); `BrowseMaterialsUseCatalog` shows the lookup by id yields the same entry.
   */
  const Browse1: Material := Material("1", "Data Structures " + "Comprehensive Notes",
    "Complete semester " + "notes covering " + "arrays, linked " + "lists, trees, "
      + "and graphs with " + "examples and " + "diagrams.",
    "cs201", Subjects[1], Notes, "/path/to/file1.pdf", None, "prof.sharma", None,
    "2023-10-15", 145, 3.2 * 1024.0 * 1024.0, None, None, None)

  const Browse2: Material := Material("2", "Algorithms Previous Year " + "Question Paper 2023",
    "Mid-semester and end-semester " + "question papers from 2023 " + "with solution hints.",
    "cs301", Subjects[2], Paper, "/path/to/file2.pdf", None, "rahul.verma", None,
    "2023-12-05", 98, 1.8 * 1024.0 * 1024.0, None, None, None)

  const Browse3: Material := Material("3", "Operating Systems Reference Book",
    "Digital copy of recommended OS " + "textbook with highlighted " + "important sections.",
    "cs401", Subjects[3], Book, "/path/to/file3.pdf",
    Some("https://images.unsplash.com/photo-1555066931-4365d14bab8c"
         + "?ixlib=rb-4.0.3&ixid=MnwxMjA3fDB8MHxwaG90by1wYWdlfHx8fGVufDB8fHx8"
         + "&auto=format&fit=crop&w=1470&q=80"),
    "prof.singh", None, "2023-09-20", 210, 12.4 * 1024.0 * 1024.0, None, None, None)

  const Browse4: Material := Material("4", "Database Systems Assignment " + "Examples",
    "Sample SQL queries and database " + "design assignments with solutions.",
    "cs501", Subjects[4], Assignment, "/path/to/file4.pdf", None, "neha.gupta", None,
    "2023-11-12", 78, 950.0 * 1024.0, None, None, None)

  const Browse5: Material := Material("5", "Introduction to " + "Programming " + "Lab Manual",
    "Practical exercises " + "and code examples " + "for first-year " + "programming course.",
    "cs101", Subjects[0], Notes, "/path/to/file5.pdf", None, "prof.kumar", None,
    "2023-08-28", 187, 2.7 * 1024.0 * 1024.0, None, None, None)

  const Browse6: Material := Material("6", "Algorithms Cheat Sheet",
    "One-page summary of key " + "algorithms and time complexities " + "for quick revision.",
    "cs301", Subjects[2], Notes, "/path/to/file6.pdf", None, "amit.sharma", None,
    "2023-12-02", 132, 450.0 * 1024.0, None, None, None)

  /** The Browse page's `mockMaterials`, in source order. */
  const BrowseMaterials: seq<Material> := [Browse1, Browse2, Browse3, Browse4, Browse5, Browse6]

  /** Every mock material embeds exactly the catalog entry its `subjectId` names. */
  lemma BrowseMaterialsUseCatalog()
    ensures forall i :: 0 <= i < |BrowseMaterials| ==>
      FindSubject(Subjects, BrowseMaterials[i].subjectId) == Some(BrowseMaterials[i].subject)
    ensures forall i :: 0 <= i < |BrowseMaterials| ==> SubjectConsistent(BrowseMaterials[i])
  {
    forall i | 0 <= i < |BrowseMaterials|
      ensures FindSubject(Subjects, BrowseMaterials[i].subjectId) == Some(BrowseMaterials[i].subject)
      ensures SubjectConsistent(BrowseMaterials[i])
    {
      BrowseMaterialUsesCatalog(i);
    }
  }

  lemma BrowseMaterialUsesCatalog(i: nat)
    requires i < 6
    ensures FindSubject(Subjects, BrowseMaterials[i].subjectId) == Some(BrowseMaterials[i].subject)
    ensures SubjectConsistent(BrowseMaterials[i])
  {
    var m := BrowseMaterials[i];
    if i == 0 { assert m == Browse1; CatalogLookup(1); }
    else if i == 1 { assert m == Browse2; CatalogLookup(2); }
    else if i == 2 { assert m == Browse3; CatalogLookup(3); }
    else if i == 3 { assert m == Browse4; CatalogLookup(4); }
    else if i == 4 { assert m == Browse5; CatalogLookup(0); }
    else { assert m == Browse6; CatalogLookup(2); }
  }

  /** Looking up a catalog entry's own id finds that entry: the ids are distinct. */
  lemma CatalogLookup(k: nat)
    requires k < 5
    ensures FindSubject(Subjects, Subjects[k].id) == Some(Subjects[k])
  {
    var c := Subjects;
    assert c[0].id == "cs101" && c[1].id == "cs201" && c[2].id == "cs301";
    assert c[3].id == "cs401" && c[4].id == "cs501";
    if k >= 1 { assert c[1..][0] == c[1]; }
    if k >= 2 { assert c[1..][1..] == c[2..]; }
    if k >= 3 { assert c[2..][1..] == c[3..]; }
    if k >= 4 { assert c[3..][1..] == c[4..]; }
  }

  const DashboardUser: User := User(
    "user1", "Jane Smith", "jane.smith@academix.edu", Senior,
    Some("https://images.unsplash.com/photo-1494790108377-be9c29b29330"
         + "?ixlib=rb-1.2.1&auto=format&fit=crop&w=250&q=80"),
    Some("CS202456"), true, Some(4.8), Some(45))

  const DashboardMaterials: seq<Material> := [
    Material("material1", "Data Structures Complete Notes",
      "Comprehensive notes covering all " + "DS topics for semester 3",
      "cs201", Subject("cs201", "Data Structures", "CS201", 3), Notes, "/files/ds-notes.pdf", None,
      "user1", None, "2023-08-15T10:30:00Z", 156, 3500000.0, Some(4.9), Some(28), None),
    Material("material2", "Operating Systems Mid-term " + "Paper 2023",
      "Previous year mid-term examination " + "paper with solutions",
      "cs401", Subject("cs401", "Operating Systems", "CS401", 6), Paper, "/files/os-paper.pdf", None,
      "user1", None, "2023-11-20T14:45:00Z", 87, 1200000.0, Some(4.7), Some(17), None),
    Material("material3", "Algorithms Textbook",
      "Digital copy of the recommended " + "algorithms textbook",
      "cs301", Subject("cs301", "Algorithms", "CS301", 5), Book, "/files/algo-book.pdf",
      Some("https://images.unsplash.com/photo-1550399105-c4db5fb85c18"
           + "?ixlib=rb-1.2.1&auto=format&fit=crop&w=500&q=60"),
      "user1", None, "2023-09-05T09:15:00Z", 210, 15000000.0, Some(4.6), Some(32), None)
  ]

  /** Every Dashboard material was uploaded by the Dashboard user and embeds its catalog subject. */
  lemma DashboardMaterialsOwnedAndConsistent()
    ensures forall i :: 0 <= i < |DashboardMaterials| ==> DashboardMaterials[i].uploadedBy == DashboardUser.id
    ensures forall i :: 0 <= i < |DashboardMaterials| ==>
      FindSubject(Subjects, DashboardMaterials[i].subjectId) == Some(DashboardMaterials[i].subject)
  {
    forall i | 0 <= i < |DashboardMaterials|
      ensures DashboardMaterials[i].uploadedBy == DashboardUser.id
      ensures FindSubject(Subjects, DashboardMaterials[i].subjectId) == Some(DashboardMaterials[i].subject)
    {
      DashboardMaterialUsesCatalog(i);
    }
  }

  lemma DashboardMaterialUsesCatalog(i: nat)
    requires i < 3
    ensures DashboardMaterials[i].uploadedBy == DashboardUser.id
    ensures FindSubject(Subjects, DashboardMaterials[i].subjectId) == Some(DashboardMaterials[i].subject)
  {
    var m := DashboardMaterials[i];
    if i == 0 {
      assert m.subject == Subjects[1] && m.subjectId == Subjects[1].id;
      CatalogLookup(1);
    } else if i == 1 {
      assert m.subject == Subjects[3] && m.subjectId == Subjects[3].id;
      CatalogLookup(3);
    } else {
      assert m.subject == Subjects[2] && m.subjectId == Subjects[2].id;
      CatalogLookup(2);
    }
  }
}
