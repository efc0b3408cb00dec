/**
  The signup password rules: three flags computed from the password alone. A flag is set
  when its rule is met; the password is acceptable when all three are set.
 */
module Password {
  import opened Text

  datatype Flags = Flags(length: bool, specialAndNumber: bool, cases: bool)

  /** All rules unmet: the initial flags and the flags after a mode switch. */
  const Cleared: Flags := Flags(false, false, false)

  /** The symbol class of the signup rule's regular expression, one character each. */
  const Specials: string := "!@#$%^&*()" + "_+-=[]{};'" + ":\"\\|,.<>/?"

  predicate IsSpecial(c: char) { c in Specials }

  datatype CharClass = Symbol | Digit | Upper | Lowercase

  predicate InClass(c: char, k: CharClass) {
    match k
    case Symbol => IsSpecial(c)
    case Digit => IsDigit(c)
    case Upper => IsUpper(c)
    case Lowercase => IsLower(c)
  }

  /** Some character of `s` belongs to class `k`. */
  ghost predicate Has(s: string, k: CharClass) {
    exists i :: 0 <= i < |s| && InClass(s[i], k)
  }

  /** A regular-expression `test` for one character class: a left-to-right scan. */
  function Scan(s: string, k: CharClass): (found: bool)
    ensures found <==> Has(s, k)
    decreases |s|
  {
    if |s| == 0 then false
    else if InClass(s[0], k) then
      assert InClass(s[0], k);
      true
    else
      var rest := Scan(s[1..], k);
      assert Has(s, k) <==> Has(s[1..], k) by {
        if Has(s, k) {
          var i :| 0 <= i < |s| && InClass(s[i], k);
          assert i > 0 && s[1..][i - 1] == s[i];
        }
        if Has(s[1..], k) {
          var j :| 0 <= j < |s[1..]| && InClass(s[1..][j], k);
          assert s[j + 1] == s[1..][j];
        }
      }
      rest
  }

  /** The three flags for a password. */
  function Evaluate(p: string): (f: Flags)
    ensures f.length <==> |p| >= 8
    ensures f.specialAndNumber <==> Has(p, Symbol) && Has(p, Digit)
    ensures f.cases <==> Has(p, Upper) && Has(p, Lowercase)
  {
    Flags(|p| >= 8, Scan(p, Symbol) && Scan(p, Digit), Scan(p, Upper) && Scan(p, Lowercase))
  }

  /** The password meets every rule. */
  predicate Acceptable(f: Flags) {
    f.length && f.specialAndNumber && f.cases
  }

  /** An acceptable password has at least eight characters, a symbol, a digit and both letter cases. */
  lemma AcceptableMeansAllRules(p: string)
    requires Acceptable(Evaluate(p))
    ensures |p| >= 8 && Has(p, Symbol) && Has(p, Digit) && Has(p, Upper) && Has(p, Lowercase)
  {
  }

  /** "abc" meets no rule. */
  lemma ShortLowercaseMeetsNoRule()
    ensures Evaluate("abc") == Cleared
  {
    var bad := "abc";
    assert forall i :: 0 <= i < |bad| ==> bad[i] in "abc";
  }

  /** "Abcdef1!" meets all three rules. */
  lemma MixedPasswordMeetsAllRules()
    ensures Evaluate("Abcdef1!") == Flags(true, true, true)
  {
    var good := "Abcdef1!";
    assert good[7] == '!' && InClass(good[7], Symbol);
    assert good[6] == '1' && InClass(good[6], Digit);
    assert good[0] == 'A' && InClass(good[0], Upper);
    assert good[1] == 'b' && InClass(good[1], Lowercase);
  }

  /** The empty password meets no rule. */
  lemma EmptyPasswordMeetsNoRule()
    ensures Evaluate("") == Cleared
  {
  }

  /** Tilde, backtick and space are not in the symbol class. */
  lemma SymbolClassExclusions()
    ensures !IsSpecial('~') && !IsSpecial('`') && !IsSpecial(' ')
    ensures |Specials| == 30
  {
  }

  /** No symbol is a digit or a letter. */
  lemma SymbolsAreNotAlphanumeric(c: char)
    requires IsSpecial(c)
    ensures !IsDigit(c) && !IsUpper(c) && !IsLower(c)
  {
  }

  /** Lengthening a password never unsets a flag. */
  lemma FlagsMonotone(p: string, extra: string)
    ensures var f, g := Evaluate(p), Evaluate(p + extra);
      (f.length ==> g.length) && (f.specialAndNumber ==> g.specialAndNumber) && (f.cases ==> g.cases)
  {
    forall k: CharClass | Has(p, k)
      ensures Has(p + extra, k)
    {
      var i :| 0 <= i < |p| && InClass(p[i], k);
      assert (p + extra)[i] == p[i];
    }
  }
}
