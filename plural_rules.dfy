/**
 * The per-language numeral rules: each maps a magnitude (or a signed delta)
 * to the class that picks a word form, independently of any word table.
 */
module PluralRules {
  import opened Decimal

  /** The three Slavic noun forms: "one" (21 секунду), "few" (22 секунды), "many" (25 секунд). */
  datatype SlavicClass = One | Few | Many

  /** Russian, Bulgarian and Macedonian: the class of n from n % 10 and n % 100. */
  function EastSlavicClass(n: nat): SlavicClass {
    if n % 10 == 1 && n % 100 != 11 then One
    else if 2 <= n % 10 <= 4 && (n % 100 < 10 || n % 100 >= 20) then Few
    else Many
  }

  /** Polish: only the magnitude 1 itself takes the "one" form. */
  function PolishClass(n: nat): SlavicClass {
    if n == 1 then One
    else if 2 <= n % 10 <= 4 && (n % 100 < 10 || n % 100 >= 20) then Few
    else Many
  }

  /** The written number's second-to-last digit is 1 (11, 12, ..., 119, ...). */
  ghost predicate SpelledTeen(n: nat) {
    var s := NatToDecimal(n);
    |s| >= 2 && s[|s| - 2] == '1'
  }

  /** The written number ends in the digit 1 but not in 11. */
  ghost predicate SpelledOne(n: nat) {
    var s := NatToDecimal(n);
    s[|s| - 1] == '1' && !SpelledTeen(n)
  }

  /** The written number ends in 2, 3 or 4 but not in 12, 13 or 14. */
  ghost predicate SpelledFew(n: nat) {
    var s := NatToDecimal(n);
    s[|s| - 1] in {'2', '3', '4'} && !SpelledTeen(n)
  }

  /** "Teen" endings are exactly the residues 10..19 modulo 100. */
  lemma SpelledTeenIff(n: nat)
    ensures SpelledTeen(n) <==> 10 <= n % 100 < 20
  {
    LastTwoDigits(n);
    if n >= 10 {
      TensDigit(n);
    }
  }

  /**
   * The East Slavic rule, stated on the written number: the "one" form for
   * numbers ending in 1 but not 11, "few" for endings 2-4 but not 12-14, and
   * "many" for everything else, 0, 5..20 and 25..30 included.
   */
  lemma {:induction false} EastSlavicBySpelling(n: nat)
    ensures EastSlavicClass(n) == One <==> SpelledOne(n)
    ensures EastSlavicClass(n) == Few <==> SpelledFew(n)
    ensures EastSlavicClass(n) == Many <==> !SpelledOne(n) && !SpelledFew(n)
  {
    SpelledTeenIff(n);
    LastTwoDigits(n);
  }

  /** Polish agrees with the East Slavic rule except that 21, 31, ... take "many". */
  lemma {:induction false} PolishVersusEastSlavic(n: nat)
    ensures n != 1 && SpelledOne(n) ==> PolishClass(n) == Many
    ensures !(n != 1 && SpelledOne(n)) ==> PolishClass(n) == EastSlavicClass(n)
  {
    EastSlavicBySpelling(n);
    LastTwoDigits(n);
  }

  /** Czech and Slovak plural keys: zero, past (instrumental) and the two future classes. */
  datatype CaseSlot = Zero | Past | FutureFew | FutureMany

  function WestSlavicSlot(delta: int): CaseSlot {
    if delta == 0 then Zero
    else if delta < 0 then Past
    else if 2 <= delta % 10 <= 4 && (delta % 100 < 10 || delta % 100 >= 20) then FutureFew
    else FutureMany
  }

  /**
   * The sign alone decides the case for negative deltas; for positive ones the
   * future class is the East Slavic "few" class, and never depends on the sign.
   */
  lemma {:induction false} WestSlavicBySign(delta: int)
    ensures delta == 0 <==> WestSlavicSlot(delta) == Zero
    ensures delta < 0 <==> WestSlavicSlot(delta) == Past
    ensures delta > 0 ==> (WestSlavicSlot(delta) == FutureFew <==> SpelledFew(delta))
  {
    if delta > 0 {
      EastSlavicBySpelling(delta);
    }
  }

  /** Arabic and Hebrew: the dual (exactly 2), the 3..10 plural, and the higher form. */
  datatype CountClass = Dual | UpToTen | Higher

  function ArabicClass(n: nat): CountClass {
    if n == 2 then Dual else if 2 < n <= 10 then UpToTen else Higher
  }

  function HebrewClass(n: nat): CountClass {
    if n == 2 then Dual else if n == 0 || 2 < n <= 10 then UpToTen else Higher
  }

  /** The two rules differ only at zero, which Hebrew counts with the 3..10 plural. */
  lemma ArabicVersusHebrew(n: nat)
    ensures n != 0 ==> ArabicClass(n) == HebrewClass(n)
    ensures ArabicClass(0) == Higher && HebrewClass(0) == UpToTen
  {
  }
}
