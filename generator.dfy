/**
 * `generateRandomPassword`: draws `length` characters from the pool. The
 * call to `Math.random()` is replaced by an index oracle: the caller supplies
 * the index that each pass of the loop picks.
 */
module Generator {
  import opened Basics

  /**
   * What the random source may supply for a call with this length and pool
   * size: one index per pass of the loop, each in `[0, poolSize)`, as
   * `Math.floor(Math.random() * poolSize)` yields. For a positive length
   * this requires a non-empty pool.
   */
  predicate ValidIndices(randomIndex: seq<nat>, length: int, poolSize: nat)
  {
    |randomIndex| == Max0(length) &&
    forall k :: 0 <= k < |randomIndex| ==> randomIndex[k] < poolSize
  }

  /** The password produced by appending, in turn, the character at each index. */
  function Draw(validChars: string, randomIndex: seq<nat>): (password: string)
    requires forall k :: 0 <= k < |randomIndex| ==> randomIndex[k] < |validChars|
    ensures |password| == |randomIndex|
  {
    if randomIndex == [] then ""
    else
      var last := |randomIndex| - 1;
      Draw(validChars, randomIndex[..last]) + [validChars[randomIndex[last]]]
  }

  /** Character `k` of a drawn password is the pool character at the `k`-th index. */
  lemma {:induction false} DrawAt(validChars: string, randomIndex: seq<nat>, k: nat)
    requires forall j :: 0 <= j < |randomIndex| ==> randomIndex[j] < |validChars|
    requires k < |randomIndex|
    ensures Draw(validChars, randomIndex)[k] == validChars[randomIndex[k]]
  {
    var last := |randomIndex| - 1;
    if k < last {
      DrawAt(validChars, randomIndex[..last], k);
    }
  }

  /** Every character of a drawn password comes from the pool. */
  lemma DrawFromPool(validChars: string, randomIndex: seq<nat>)
    requires forall j :: 0 <= j < |randomIndex| ==> randomIndex[j] < |validChars|
    ensures forall c :: c in Draw(validChars, randomIndex) ==> c in validChars
  {
    var p := Draw(validChars, randomIndex);
    forall c | c in p ensures c in validChars {
      var k :| 0 <= k < |p| && p[k] == c;
      DrawAt(validChars, randomIndex, k);
    }
  }

  /**
   * The loop of `generateRandomPassword`: it runs `length` times (not at all
   * when `length <= 0`) and appends the pool character at each supplied index.
   */
  method GenerateRandomPassword(length: int, validChars: string, randomIndex: seq<nat>)
    returns (password: string)
    requires ValidIndices(randomIndex, length, |validChars|)
    ensures password == Draw(validChars, randomIndex)
    ensures |password| == Max0(length)
    ensures length <= 0 ==> password == ""
    ensures forall k :: 0 <= k < |password| ==> password[k] == validChars[randomIndex[k]]
    ensures forall c :: c in password ==> c in validChars
  {
    password := "";
    var i := 0;
    while i < length
      invariant 0 <= i <= Max0(length)
      invariant password == Draw(validChars, randomIndex[..i])
    {
      var index := randomIndex[i];
      assert randomIndex[..i + 1][..i] == randomIndex[..i];
      password := password + [validChars[index]];
      i := i + 1;
    }
    assert randomIndex[..i] == randomIndex;
    forall k | 0 <= k < |password| ensures password[k] == validChars[randomIndex[k]] {
      DrawAt(validChars, randomIndex, k);
    }
    DrawFromPool(validChars, randomIndex);
  }
}
