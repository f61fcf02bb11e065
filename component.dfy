/**
 * `PasswordComponent`: the two display fields and `generatePassword`, which
 * builds the pool from the options, draws the password and scores it.
 */
module Component {
  import opened Basics
  import opened Charsets
  import opened CharacterPool
  import opened Generator
  import opened Strength

  class PasswordComponent {
    var generatedPassword: string
    /** `None` both before the first generation and when the score has no label. */
    var passwordStrength: Option<Label>

    constructor ()
      ensures generatedPassword == "" && passwordStrength == None
    {
      generatedPassword := "";
      passwordStrength := None;
    }

    /**
     * `generatePassword`: the form value `options` is only read; the two
     * fields are overwritten with the drawn password and its score.
     */
    method GeneratePassword(options: Options, randomIndex: seq<nat>)
      requires ValidIndices(randomIndex, options.length, |Pool(options)|)
      modifies this
      ensures generatedPassword == Draw(Pool(options), randomIndex)
      ensures |generatedPassword| == Max0(options.length)
      ensures forall c :: c in generatedPassword ==> Admitted(options, c)
      ensures passwordStrength == Score(generatedPassword)
    {
      var length := options.length;
      var validChars := BuildPool(options);
      generatedPassword := GenerateRandomPassword(length, validChars, randomIndex);
      PoolMembers(options);
      passwordStrength := CalculateStrength(generatedPassword);
    }
  }

  /**
   * A generated password meets a character criterion only if the options
   * enable the matching class, so its count is bounded by the length
   * criterion plus the number of enabled classes.
   */
  lemma GeneratedScoreFollowsOptions(o: Options, randomIndex: seq<nat>)
    requires ValidIndices(randomIndex, o.length, |Pool(o)|)
    ensures HasUpper(Draw(Pool(o), randomIndex)) ==> o.includeUppercase
    ensures HasLower(Draw(Pool(o), randomIndex)) ==> o.includeLowercase
    ensures HasDigit(Draw(Pool(o), randomIndex)) ==> o.includeNumbers
    ensures HasSpecial(Draw(Pool(o), randomIndex)) ==> o.includeSymbols
    ensures CriteriaCount(Draw(Pool(o), randomIndex)) <=
      Indicator(o.length >= MinLength) + Indicator(o.includeUppercase) + Indicator(o.includeLowercase)
        + Indicator(o.includeNumbers) + Indicator(o.includeSymbols)
  {
    var p := Draw(Pool(o), randomIndex);
    forall i | 0 <= i < |p| ensures CharacterFollowsOptions(o, p[i]) {
      CharacterOfGenerated(o, randomIndex, i);
    }
  }

  /** What a character's class says about the options once it is known to come from the pool. */
  ghost predicate CharacterFollowsOptions(o: Options, c: char)
  {
    (IsUpper(c) ==> o.includeUppercase) && (IsLower(c) ==> o.includeLowercase) &&
    (IsDigit(c) ==> o.includeNumbers) && (IsSpecial(c) ==> o.includeSymbols)
  }

  /** Each character of a generated password satisfies `CharacterFollowsOptions`. */
  lemma CharacterOfGenerated(o: Options, randomIndex: seq<nat>, i: nat)
    requires ValidIndices(randomIndex, o.length, |Pool(o)|)
    requires i < |randomIndex|
    ensures CharacterFollowsOptions(o, Draw(Pool(o), randomIndex)[i])
  {
    var c := Draw(Pool(o), randomIndex)[i];
    DrawAt(Pool(o), randomIndex, i);
    PoolMembers(o);
    assert Admitted(o, c);
    SymbolsAreNotAlphanumeric();
    if IsSpecial(c) {
      SpecialIsNotAlphanumeric(c);
    }
  }

  /** With every class enabled and length 8, the generator can produce a password that gets no label. */
  lemma GeneratorReachesNoLabel()
    ensures var o := Options(8, true, true, true, true);
      ValidIndices([0, 26, 52, 62, 26, 26, 26, 26], o.length, |Pool(o)|) &&
      Draw(Pool(o), [0, 26, 52, 62, 26, 26, 26, 26]) == "Aa0!aaaa" &&
      Score("Aa0!aaaa") == None
  {
    var o := Options(8, true, true, true, true);
    var idx: seq<nat> := [0, 26, 52, 62, 26, 26, 26, 26];
    var p := Draw(Pool(o), idx);
    forall k | 0 <= k < 8 ensures p[k] == "Aa0!aaaa"[k] {
      DrawAt(Pool(o), idx, k);
    }
    var s := "Aa0!aaaa";
    assert IsUpper(s[0]) && IsLower(s[1]) && IsDigit(s[2]) && IsSpecial(s[3]);
  }

  /** With symbols only, eight draws of `_` give a password that misses the special criterion and scores FAIR. */
  lemma SymbolsOnlyCanMissSpecial()
    ensures var o := Options(8, false, false, false, true);
      ValidIndices([10, 10, 10, 10, 10, 10, 10, 10], o.length, |Pool(o)|) &&
      Draw(Pool(o), [10, 10, 10, 10, 10, 10, 10, 10]) == "________" &&
      Score("________") == Some(Fair)
  {
    var o := Options(8, false, false, false, true);
    var idx: seq<nat> := [10, 10, 10, 10, 10, 10, 10, 10];
    var p := Draw(Pool(o), idx);
    forall k | 0 <= k < 8 ensures p[k] == '_' {
      DrawAt(Pool(o), idx, k);
    }
    assert p == "________";
    ScoreOfUnderscores();
  }

  /** A non-positive length gives the empty password, whatever the pool, and it scores WEAK. */
  lemma NonPositiveLengthIsWeak(o: Options, randomIndex: seq<nat>)
    requires o.length <= 0
    requires ValidIndices(randomIndex, o.length, |Pool(o)|)
    ensures Draw(Pool(o), randomIndex) == ""
    ensures Score(Draw(Pool(o), randomIndex)) == Some(Weak)
  {
    ScoreOfEmpty();
  }
}
