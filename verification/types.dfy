/**
  The application's records and closed enumerations: users, subjects, study materials and
  ratings. JavaScript `number` fields become `nat` where the value is a counter, `int` for the
  semester, and `real` for sizes and average ratings; optional fields become `Option`.
 */
module Types {
  import opened Wrappers

  datatype UserRole = Junior | Senior

  /** Every role, each once. */
  const AllRoles: seq<UserRole> := [Junior, Senior]

  /** The string a role is written as in the source (`'junior' | 'senior'`). */
  function RoleName(r: UserRole): string {
    match r
    case Junior => "junior"
    case Senior => "senior"
  }

  /** Reads a role back from its string; `None` for any other string. */
  function ParseRole(s: string): (r: Option<UserRole>)
    ensures r.Some? ==> RoleName(r.value) == s
    ensures r.None? ==> forall t: UserRole :: RoleName(t) != s
  {
    if s == "junior" then Some(Junior)
    else if s == "senior" then Some(Senior)
    else None
  }

  /** `UserRole` has exactly two values, with distinct names that read back to themselves. */
  lemma RolesEnumerated()
    ensures |AllRoles| == 2 && AllRoles[0] != AllRoles[1]
    ensures forall r: UserRole :: r in AllRoles
    ensures forall r: UserRole :: ParseRole(RoleName(r)) == Some(r)
  {
    forall r: UserRole
      ensures r in AllRoles && ParseRole(RoleName(r)) == Some(r)
    {
      match r
      case Junior => assert AllRoles[0] == r;
      case Senior => assert AllRoles[1] == r;
    }
  }

  datatype MaterialType = Notes | Paper | Book | Assignment | Other

  /** Every material type, each once, in declaration order. */
  const AllMaterialTypes: seq<MaterialType> := [Notes, Paper, Book, Assignment, Other]

  function TypeName(t: MaterialType): string {
    match t
    case Notes => "notes"
    case Paper => "paper"
    case Book => "book"
    case Assignment => "assignment"
    case Other => "other"
  }

  function ParseType(s: string): (t: Option<MaterialType>)
    ensures t.Some? ==> TypeName(t.value) == s
    ensures t.None? ==> forall u: MaterialType :: TypeName(u) != s
  {
    if s == "notes" then Some(Notes)
    else if s == "paper" then Some(Paper)
    else if s == "book" then Some(Book)
    else if s == "assignment" then Some(Assignment)
    else if s == "other" then Some(Other)
    else None
  }

  /** `MaterialType` has exactly five values, with distinct names that read back to themselves. */
  lemma MaterialTypesEnumerated()
    ensures |AllMaterialTypes| == 5
    ensures forall i, j :: 0 <= i < j < 5 ==> AllMaterialTypes[i] != AllMaterialTypes[j]
    ensures forall t: MaterialType :: t in AllMaterialTypes
    ensures forall t: MaterialType :: ParseType(TypeName(t)) == Some(t)
    ensures forall t, u: MaterialType :: TypeName(t) == TypeName(u) ==> t == u
  {
    forall t: MaterialType
      ensures t in AllMaterialTypes && ParseType(TypeName(t)) == Some(t)
    {
      match t
      case Notes => assert AllMaterialTypes[0] == t;
      case Paper => assert AllMaterialTypes[1] == t;
      case Book => assert AllMaterialTypes[2] == t;
      case Assignment => assert AllMaterialTypes[3] == t;
      case Other => assert AllMaterialTypes[4] == t;
    }
    forall t: MaterialType, u: MaterialType | TypeName(t) == TypeName(u)
      ensures t == u
    {
      assert ParseType(TypeName(t)) == Some(t) && ParseType(TypeName(u)) == Some(u);
    }
  }

  /** A star value, `1 | 2 | 3 | 4 | 5`. */
  type Stars = x: int | 1 <= x <= 5 witness 1

  datatype User = User(
    id: string,
    name: string,
    email: string,
    role: UserRole,
    avatar: Option<string>,
    collegeId: Option<string>,
    verified: bool,
    rating: Option<real>,
    totalRatings: Option<nat>)

  datatype Subject = Subject(id: string, name: string, code: string, semester: int)

  datatype Material = Material(
    id: string,
    title: string,
    description: string,
    subjectId: string,
    subject: Subject,
    kind: MaterialType,
    fileUrl: string,
    thumbnailUrl: Option<string>,
    uploadedBy: string,
    uploadedByUser: Option<User>,
    uploadedAt: string,
    downloads: nat,
    size: real,
    rating: Option<real>,
    totalRatings: Option<nat>,
    userRating: Option<real>)

  datatype Rating = Rating(id: string, materialId: string, userId: string, value: Stars, createdAt: string)

  /** A file handed over by the browser's file picker; only its identity matters to the forms. */
  datatype FileRef = FileRef(name: string)

  /** A rating's value is one of the five star values. */
  lemma RatingValueInRange(r: Rating)
    ensures 1 <= r.value <= 5
  {
  }

  /** The embedded subject is the one `subjectId` names: an invariant the record type does not carry. */
  predicate SubjectConsistent(m: Material) {
    m.subject.id == m.subjectId
  }

  /** The record type admits a material whose embedded subject disagrees with its `subjectId`. */
  lemma SubjectLinkNotEnforced()
    ensures exists m: Material :: !SubjectConsistent(m)
  {
    var m := Material("m", "", "", "cs101", Subject("cs201", "", "", 3), Notes, "", None, "", None, "",
                      0, 0.0, None, None, None);
    assert !SubjectConsistent(m);
  }
}
