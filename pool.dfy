/**
 * The generation options read from the form and the character pool
 * (`validChars`) that the component builds from them.
 */
module CharacterPool {
  import opened Basics
  import opened Charsets

  /** The resolved form value: the requested length and the four class toggles. */
  datatype Options = Options(
    length: int,
    includeUppercase: bool,
    includeLowercase: bool,
    includeNumbers: bool,
    includeSymbols: bool)

  /** The position of a character's class in the pool's fixed order. */
  function ClassRank(c: char): nat
  {
    if IsUpper(c) then 0 else if IsLower(c) then 1 else if IsDigit(c) then 2 else 3
  }

  /** No character of `s` belongs to a later class than a character after it. */
  ghost predicate RankOrdered(s: string)
  {
    forall i, j :: 0 <= i < j < |s| ==> ClassRank(s[i]) <= ClassRank(s[j])
  }

  /** True when `c` belongs to an alphabet that `o` enables. */
  predicate Admitted(o: Options, c: char)
  {
    (o.includeUppercase && IsUpper(c)) || (o.includeLowercase && IsLower(c)) ||
    (o.includeNumbers && IsDigit(c)) || (o.includeSymbols && c in Symbols)
  }

  /** The pool: the enabled alphabets appended in the order uppercase, lowercase, digits, symbols. */
  function Pool(o: Options): string
  {
    (if o.includeUppercase then Uppercase else "") + (if o.includeLowercase then Lowercase else "")
      + (if o.includeNumbers then Digits else "") + (if o.includeSymbols then Symbols else "")
  }

  /** The pool's length is the sum of the enabled alphabets' sizes. */
  lemma PoolLength(o: Options)
    ensures |Pool(o)| == 26 * Indicator(o.includeUppercase) + 26 * Indicator(o.includeLowercase)
                       + 10 * Indicator(o.includeNumbers) + 24 * Indicator(o.includeSymbols)
  {
  }

  /** The pool holds the characters of the enabled classes and no others. */
  lemma PoolMembers(o: Options)
    ensures forall c :: c in Pool(o) <==> Admitted(o, c)
  {
    UppercaseIsRange();
    LowercaseIsRange();
    DigitsIsRange();
  }

  /** The pool's characters appear in class order: uppercase, lowercase, digits, symbols. */
  lemma PoolOrdered(o: Options)
    ensures RankOrdered(Pool(o))
  {
    UppercaseIsRange();
    LowercaseIsRange();
    DigitsIsRange();
    SymbolsAreNotAlphanumeric();
    var up := if o.includeUppercase then Uppercase else "";
    var low := if o.includeLowercase then Lowercase else "";
    var num := if o.includeNumbers then Digits else "";
    var sym := if o.includeSymbols then Symbols else "";
    AllOfRank(up, 0);
    AllOfRank(low, 1);
    AllOfRank(num, 2);
    AllOfRank(sym, 3);
    AppendOrdered(up, low, 0);
    AppendOrdered(up + low, num, 1);
    AppendOrdered(up + low + num, sym, 2);
  }

  /** The statements of `generatePassword` that build `validChars` with `+=`. */
  method BuildPool(o: Options) returns (validChars: string)
    ensures validChars == Pool(o)
  {
    validChars := "";
    if o.includeUppercase { validChars := validChars + Uppercase; }
    if o.includeLowercase { validChars := validChars + Lowercase; }
    if o.includeNumbers { validChars := validChars + Digits; }
    if o.includeSymbols { validChars := validChars + Symbols; }
  }

  /** Every character of an alphabet has that alphabet's rank. */
  lemma AllOfRank(s: string, r: nat)
    requires r == 0 ==> forall c :: c in s ==> IsUpper(c)
    requires r == 1 ==> forall c :: c in s ==> IsLower(c)
    requires r == 2 ==> forall c :: c in s ==> IsDigit(c)
    requires r == 3 ==> forall c :: c in s ==> !IsUpper(c) && !IsLower(c) && !IsDigit(c)
    requires r <= 3
    ensures forall i :: 0 <= i < |s| ==> ClassRank(s[i]) == r
  {
    forall i | 0 <= i < |s| ensures ClassRank(s[i]) == r {
      assert s[i] in s;
    }
  }

  /** Appending characters of rank above `r` to an ordered prefix of rank at most `r` keeps it ordered. */
  lemma AppendOrdered(s: string, t: string, r: nat)
    requires RankOrdered(s)
    requires forall i :: 0 <= i < |s| ==> ClassRank(s[i]) <= r
    requires forall i :: 0 <= i < |t| ==> ClassRank(t[i]) == r + 1
    ensures RankOrdered(s + t)
    ensures forall i :: 0 <= i < |s + t| ==> ClassRank((s + t)[i]) <= r + 1
  {
  }

  /** Enabling only lowercase and digits gives exactly the lowercase alphabet followed by the digits. */
  lemma LowercaseAndDigitsPool(length: int)
    ensures Pool(Options(length, false, true, true, false)) == "abcdefghijklmnopqrstuvwxyz0123456789"
  {
  }

  /** The pool is empty exactly when every class is switched off. */
  lemma EmptyPoolIffNoClass(o: Options)
    ensures Pool(o) == [] <==>
      !o.includeUppercase && !o.includeLowercase && !o.includeNumbers && !o.includeSymbols
  {
  }

  /** A double quote never enters the pool, whatever the options. */
  lemma QuoteNeverInPool(o: Options)
    ensures '"' !in Pool(o)
  {
    PoolMembers(o);
    SymbolSetsDiffer();
  }
}
