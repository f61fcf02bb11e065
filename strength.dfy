/**
 * `calculateStrength`: five independent criteria on the password text,
 * counted and mapped to a label by a `switch` that has cases for 0 to 4 only.
 */
module Strength {
  import opened Basics
  import opened Charsets

  /** The labels of the `switch`, in increasing strength. */
  datatype Label = Weak | Fair | Good | Strong | VeryStrong
  {
    /** The text the component displays for the label. */
    function Text(): string
    {
      match this
      case Weak => "WEAK"
      case Fair => "FAIR"
      case Good => "GOOD"
      case Strong => "STRONG"
      case VeryStrong => "VERY STRONG"
    }

    /** The criteria count whose `case` returns this label. */
    function Rank(): nat
    {
      match this
      case Weak => 0
      case Fair => 1
      case Good => 2
      case Strong => 3
      case VeryStrong => 4
    }
  }

  const MinLength: nat := 8

  /** `password.length >= 8` */
  predicate LengthCriterion(s: string) { |s| >= MinLength }
  /** `/[A-Z]/.test(password)` */
  predicate HasUpper(s: string) { exists i :: 0 <= i < |s| && IsUpper(s[i]) }
  /** `/[a-z]/.test(password)` */
  predicate HasLower(s: string) { exists i :: 0 <= i < |s| && IsLower(s[i]) }
  /** `/\d/.test(password)` */
  predicate HasDigit(s: string) { exists i :: 0 <= i < |s| && IsDigit(s[i]) }
  /** `/[!@#$%^&*(),.?":{}|<>]/.test(password)` */
  predicate HasSpecial(s: string) { exists i :: 0 <= i < |s| && IsSpecial(s[i]) }

  predicate AllCriteria(s: string)
  {
    LengthCriterion(s) && HasUpper(s) && HasLower(s) && HasDigit(s) && HasSpecial(s)
  }

  predicate NoCriterion(s: string)
  {
    !LengthCriterion(s) && !HasUpper(s) && !HasLower(s) && !HasDigit(s) && !HasSpecial(s)
  }

  /** The number of criteria the text satisfies: at most five, five exactly when all hold, zero exactly when none does. */
  function CriteriaCount(s: string): (n: nat)
    ensures n <= 5
    ensures n == 5 <==> AllCriteria(s)
    ensures n == 0 <==> NoCriterion(s)
  {
    Indicator(LengthCriterion(s)) + Indicator(HasUpper(s)) + Indicator(HasLower(s))
      + Indicator(HasDigit(s)) + Indicator(HasSpecial(s))
  }

  /**
   * The `switch`: counts 0 to 4 have a label whose rank is that count; any
   * other count, in particular 5, falls through every case and has none.
   */
  function LabelFor(strength: int): (l: Option<Label>)
    ensures l.Some? <==> 0 <= strength <= 4
    ensures l.Some? ==> l.value.Rank() == strength
  {
    if strength == 0 then Some(Weak)
    else if strength == 1 then Some(Fair)
    else if strength == 2 then Some(Good)
    else if strength == 3 then Some(Strong)
    else if strength == 4 then Some(VeryStrong)
    else None
  }

  /** The label `calculateStrength` returns for a text, `None` for `undefined`. */
  function Score(s: string): (l: Option<Label>)
    ensures l.None? <==> AllCriteria(s)
    ensures l.Some? ==> l.value.Rank() == CriteriaCount(s)
  {
    LabelFor(CriteriaCount(s))
  }

  /** `calculateStrength`, with its counter `strength` incremented once per criterion that holds. */
  method CalculateStrength(password: string) returns (score: Option<Label>)
    ensures score == Score(password)
    ensures score.None? <==> AllCriteria(password)
    ensures score.Some? ==> score.value.Rank() == CriteriaCount(password)
  {
    var strength := 0;
    var lengthCriteria := |password| >= MinLength;
    var upperCaseCriteria := HasUpper(password);
    var lowerCaseCriteria := HasLower(password);
    var digitCriteria := HasDigit(password);
    var specialCharCriteria := HasSpecial(password);

    if lengthCriteria { strength := strength + 1; }
    if upperCaseCriteria { strength := strength + 1; }
    if lowerCaseCriteria { strength := strength + 1; }
    if digitCriteria { strength := strength + 1; }
    if specialCharCriteria { strength := strength + 1; }

    score := LabelFor(strength);
  }

  /** Every label is the result of exactly one count, and the labels' texts are distinct and non-empty. */
  lemma LabelsAreDistinct(l: Label, m: Label)
    ensures LabelFor(l.Rank()) == Some(l)
    ensures l.Text() != ""
    ensures l.Text() == m.Text() <==> l == m
  {
  }

  /** The empty text meets no criterion and scores WEAK. */
  lemma ScoreOfEmpty()
    ensures CriteriaCount("") == 0
    ensures Score("") == Some(Weak)
  {
  }

  /** A single uppercase letter meets only the uppercase criterion and scores FAIR. */
  lemma ScoreOfSingleUpper()
    ensures CriteriaCount("A") == 1
    ensures Score("A") == Some(Fair)
  {
    var s := "A";
    assert IsUpper(s[0]);
  }

  /** A text of length 8 with an uppercase letter, a lowercase letter, a digit and a special character gets no label. */
  lemma ScoreOfAllCriteria()
    ensures CriteriaCount("Ab3$defg") == 5
    ensures Score("Ab3$defg") == None
  {
    var s := "Ab3$defg";
    assert IsUpper(s[0]) && IsLower(s[1]) && IsDigit(s[2]) && IsSpecial(s[3]);
  }

  /** Eight underscores: long enough, yet `_` is not special, so the text scores FAIR. */
  lemma ScoreOfUnderscores()
    ensures Score("________") == Some(Fair)
  {
    var s := "________";
    assert forall i :: 0 <= i < |s| ==> s[i] == '_';
  }
}
