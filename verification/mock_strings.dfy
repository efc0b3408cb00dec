/**
  Facts about the literal pieces the mock records' strings are written in (see `MockData`).
  The long strings are concatenations of short pieces because the verifier checks a literal
  character by character, and that check is cheap only for short literals. Each lemma here
  states that one piece has no adjacent "l", "g" (case-blind); `Text.LacksPairAppend` joins
  them into facts about whole fields, which show that a record cannot match "Algorithms".
 */
module MockStrings {
  import opened Text
  import MockData

  /** The data-structures notes have no "lg" in a searchable field. */
  lemma Browse1LacksLg()
    ensures var m := MockData.Browse1;
      LacksPair(m.title, 'l', 'g') && LacksPair(m.description, 'l', 'g')
      && LacksPair(m.subject.name, 'l', 'g') && LacksPair(m.subject.code, 'l', 'g')
  {
    Browse1TitleLacksLg();
    Browse1DescriptionLacksLg();
    LacksLgPiece3();
    LacksLgPiece4();
  }

  lemma Browse1TitleLacksLg()
    ensures LacksPair(MockData.Browse1.title, 'l', 'g')
  {
    LacksLgPiece1();
    LacksLgPiece2();
    LacksPairAppend("Data Structures ", "Comprehensive Notes", 'l', 'g');
  }

  lemma Browse1DescriptionLacksLg()
    ensures LacksPair(MockData.Browse1.description, 'l', 'g')
  {
    var p1, p2, p3, p4 := "Complete semester ", "notes covering ", "arrays, linked ", "lists, trees, ";
    var p5, p6, p7 := "and graphs with ", "examples and ", "diagrams.";
    LacksLgPiece5(); LacksLgPiece6(); LacksLgPiece7(); LacksLgPiece8();
    LacksLgPiece9(); LacksLgPiece10(); LacksLgPiece11();
    LacksPairAppend(p1, p2, 'l', 'g');
    LacksPairAppend(p1 + p2, p3, 'l', 'g');
    LacksPairAppend(p1 + p2 + p3, p4, 'l', 'g');
    LacksPairAppend(p1 + p2 + p3 + p4, p5, 'l', 'g');
    LacksPairAppend(p1 + p2 + p3 + p4 + p5, p6, 'l', 'g');
    LacksPairAppend(p1 + p2 + p3 + p4 + p5 + p6, p7, 'l', 'g');
  }

  /** The lab manual has no "lg" in a searchable field. */
  lemma Browse5LacksLg()
    ensures var m := MockData.Browse5;
      LacksPair(m.title, 'l', 'g') && LacksPair(m.description, 'l', 'g')
      && LacksPair(m.subject.name, 'l', 'g') && LacksPair(m.subject.code, 'l', 'g')
  {
    Browse5TitleLacksLg();
    Browse5DescriptionLacksLg();
    LacksLgPiece14();
    LacksLgPiece16();
  }

  lemma Browse5TitleLacksLg()
    ensures LacksPair(MockData.Browse5.title, 'l', 'g')
  {
    var p1, p2, p3 := "Introduction to ", "Programming ", "Lab Manual";
    LacksLgPiece12(); LacksLgPiece13(); LacksLgPiece15();
    LacksPairAppend(p1, p2, 'l', 'g');
    LacksPairAppend(p1 + p2, p3, 'l', 'g');
  }

  lemma Browse5DescriptionLacksLg()
    ensures LacksPair(MockData.Browse5.description, 'l', 'g')
  {
    var p1, p2, p3, p4 := "Practical exercises ", "and code examples ", "for first-year ", "programming course.";
    LacksLgPiece17(); LacksLgPiece18(); LacksLgPiece19(); LacksLgPiece20();
    LacksPairAppend(p1, p2, 'l', 'g');
    LacksPairAppend(p1 + p2, p3, 'l', 'g');
    LacksPairAppend(p1 + p2 + p3, p4, 'l', 'g');
  }

  // One literal piece per lemma.
  lemma LacksLgPiece1() ensures LacksPair("Data Structures ", 'l', 'g') {}
  lemma LacksLgPiece2() ensures LacksPair("Comprehensive Notes", 'l', 'g') {}
  lemma LacksLgPiece3() ensures LacksPair("Data Structures", 'l', 'g') {}
  lemma LacksLgPiece4() ensures LacksPair("CS201", 'l', 'g') {}
  lemma LacksLgPiece5() ensures LacksPair("Complete semester ", 'l', 'g') {}
  lemma LacksLgPiece6() ensures LacksPair("notes covering ", 'l', 'g') {}
  lemma LacksLgPiece7() ensures LacksPair("arrays, linked ", 'l', 'g') {}
  lemma LacksLgPiece8() ensures LacksPair("lists, trees, ", 'l', 'g') {}
  lemma LacksLgPiece9() ensures LacksPair("and graphs with ", 'l', 'g') {}
  lemma LacksLgPiece10() ensures LacksPair("examples and ", 'l', 'g') {}
  lemma LacksLgPiece11() ensures LacksPair("diagrams.", 'l', 'g') {}
  lemma LacksLgPiece12() ensures LacksPair("Introduction to ", 'l', 'g') {}
  lemma LacksLgPiece13() ensures LacksPair("Programming ", 'l', 'g') {}
  lemma LacksLgPiece14() ensures LacksPair("Introduction to Programming", 'l', 'g') {}
  lemma LacksLgPiece15() ensures LacksPair("Lab Manual", 'l', 'g') {}
  lemma LacksLgPiece16() ensures LacksPair("CS101", 'l', 'g') {}
  lemma LacksLgPiece17() ensures LacksPair("Practical exercises ", 'l', 'g') {}
  lemma LacksLgPiece18() ensures LacksPair("and code examples ", 'l', 'g') {}
  lemma LacksLgPiece19() ensures LacksPair("for first-year ", 'l', 'g') {}
  lemma LacksLgPiece20() ensures LacksPair("programming course.", 'l', 'g') {}
}
