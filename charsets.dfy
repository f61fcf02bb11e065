/**
 * The fixed alphabets the password component draws from, and the character
 * classes its strength scorer tests for.
 */
module Charsets {

  /** The four alphabets of the generator, exactly as the component writes them. */
  const Uppercase: string := "ABCDEFGHIJKLMNOPQRSTUVWXYZ"
  const Lowercase: string := "abcdefghijklmnopqrstuvwxyz"
  const Digits: string := "0123456789"
  const Symbols: string := "!@#$%^&*()_+[]{}|;:,.<>?"

  /** The members of the scorer's bracket expression `[!@#$%^&*(),.?":{}|<>]`. */
  const SpecialChars: string := "!@#$%^&*(),.?\":{}|<>"

  /** The generator symbols that the scorer does not count as special. */
  const UncountedSymbols: string := "_+[];"

  /** Character classes of the scorer's regular expressions `[A-Z]`, `[a-z]` and `\d`. */
  predicate IsUpper(c: char) { 'A' <= c <= 'Z' }
  predicate IsLower(c: char) { 'a' <= c <= 'z' }
  predicate IsDigit(c: char) { '0' <= c <= '9' }
  predicate IsSpecial(c: char) { c in SpecialChars }

  /** Each generator alphabet is exactly the range its name promises. */
  lemma UppercaseIsRange()
    ensures |Uppercase| == 26
    ensures forall c :: c in Uppercase <==> IsUpper(c)
  {
  }

  lemma LowercaseIsRange()
    ensures |Lowercase| == 26
    ensures forall c :: c in Lowercase <==> IsLower(c)
  {
  }

  lemma DigitsIsRange()
    ensures |Digits| == 10
    ensures forall c :: c in Digits <==> IsDigit(c)
  {
  }

  /** The generator's symbols are neither letters nor digits. */
  lemma SymbolsAreNotAlphanumeric()
    ensures |Symbols| == 24
    ensures forall c :: c in Symbols ==> !IsUpper(c) && !IsLower(c) && !IsDigit(c)
  {
  }

  /**
   * The generator's symbol alphabet and the scorer's special set disagree:
   * `_ + [ ] ;` can be generated but are not special, and `"` is special but
   * belongs to no generator alphabet.
   */
  lemma SymbolSetsDiffer()
    ensures forall c :: c in Symbols ==> (IsSpecial(c) <==> c !in UncountedSymbols)
    ensures forall c :: IsSpecial(c) && c != '"' ==> c in Symbols
    ensures IsSpecial('"') && '"' !in Symbols
  {
    forall c | c in Symbols ensures IsSpecial(c) <==> c !in UncountedSymbols {
      var i :| 0 <= i < |Symbols| && Symbols[i] == c;
      SymbolAt(i);
    }
  }

  /** No special character is a letter or a digit. */
  lemma SpecialIsNotAlphanumeric(c: char)
    requires IsSpecial(c)
    ensures !IsUpper(c) && !IsLower(c) && !IsDigit(c)
  {
  }

  /** One symbol at a time, so that no proof has to consider all 24 at once. */
  lemma SymbolAt(i: nat)
    requires i < |Symbols|
    ensures IsSpecial(Symbols[i]) <==> Symbols[i] !in UncountedSymbols
  {
  }
}
