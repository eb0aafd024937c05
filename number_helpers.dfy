/**
 * The numeral helpers of the locales: ordinal numbers (English suffixes,
 * Korean native ordinals, the Bengali/Odia suffix tables, Tamil, Tagalog)
 * and the Buddhist-era year of the Thai and Lao locales.
 */
module NumberHelpers {
  import opened Decimal
  import opened PluralRules

  /** Python's str() of an int: a minus sign before the digits of a negative number. */
  function IntToDecimal(n: int): (s: string)
    ensures n >= 0 ==> s == NatToDecimal(n)
    ensures n < 0 ==> s == "-" + NatToDecimal(-n)
  {
    if n < 0 then "-" + NatToDecimal(-n) else NatToDecimal(n)
  }

  /** English: "st", "nd", "rd" after a last digit 1, 2, 3 unless the last two are 11, 12, 13; "th" otherwise. */
  function EnglishSuffix(n: nat): string {
    if n % 100 !in {11, 12, 13} then
      var remainder := n % 10;
      if remainder == 1 then "st"
      else if remainder == 2 then "nd"
      else if remainder == 3 then "rd"
      else "th"
    else "th"
  }

  function EnglishOrdinal(n: nat): string {
    NatToDecimal(n) + EnglishSuffix(n)
  }

  /**
   * The English ordinal read off the written number: "th" whenever the
   * next-to-last digit is 1 (11th, 112th), otherwise by the last digit
   * (1st, 22nd, 103rd, 0th, 124th); the number itself is shown in front.
   */
  lemma EnglishOrdinalBySpelling(n: nat)
    ensures var s := NatToDecimal(n);
            var last := s[|s| - 1];
            EnglishOrdinal(n)
              == s + (if SpelledTeen(n) then "th"
                      else if last == '1' then "st"
                      else if last == '2' then "nd"
                      else if last == '3' then "rd"
                      else "th")
    ensures NumeralOf(EnglishOrdinal(n)) == n
  {
    var s := NatToDecimal(n);
    var last := s[|s| - 1];
    assert DigitValue(last) == n % 10;
    SpelledTeenIff(n);
    SuffixByResidues(n);
    NumeralShown(n, EnglishSuffix(n));
  }

  /** The same rule on residues: a teen remainder modulo 100 means "th". */
  lemma SuffixByResidues(n: nat)
    ensures EnglishSuffix(n)
            == if 10 <= n % 100 < 20 then "th"
               else if n % 10 == 1 then "st"
               else if n % 10 == 2 then "nd"
               else if n % 10 == 3 then "rd"
               else "th"
  {
    LastTwoDigits(n);
    var t := (n / 10) % 10;
    assert n % 100 == 10 * t + n % 10;
  }

  /** The Korean native ordinal stems for 1..10; index 0 holds the plain numeral "0". */
  const KoreanStems: seq<string> := ["0", "첫", "두", "세", "네", "다섯", "여섯", "일곱", "여덟", "아홉", "열"]

  /** Korean: the native stem for 0..10 and the decimal numeral above, then "번째". */
  function KoreanOrdinal(n: nat): string {
    if n < |KoreanStems| then KoreanStems[n] + "번째" else NatToDecimal(n) + "번째"
  }

  /**
   * 1..10 take a native word with no digit in it; 0 and 11 upwards show the
   * number itself; every ordinal ends in "번째".
   */
  lemma KoreanOrdinalShape(n: nat)
    ensures var r := KoreanOrdinal(n);
            |r| >= 2 && r[|r| - 2..] == "번째"
    ensures 1 <= n <= 10 ==> forall i :: 0 <= i < |KoreanOrdinal(n)| ==> !IsDigit(KoreanOrdinal(n)[i])
    ensures n == 0 || n > 10 ==> NumeralOf(KoreanOrdinal(n)) == n
  {
    if n == 0 {
      assert KoreanOrdinal(0) == NatToDecimal(0) + "번째";
    }
    NumeralShown(n, "번째");
  }

  /** Different numbers have different Korean ordinals. */
  lemma KoreanOrdinalInjective(n: nat, m: nat)
    requires n != m
    ensures KoreanOrdinal(n) != KoreanOrdinal(m)
  {
    KoreanOrdinalShape(n);
    KoreanOrdinalShape(m);
    var small := (1 <= n <= 10) && (1 <= m <= 10);
    if small {
      assert KoreanStems[n] != KoreanStems[m];
      assert KoreanOrdinal(n)[..|KoreanStems[n]|] == KoreanStems[n];
    } else if 1 <= n <= 10 {
      assert IsDigit(KoreanOrdinal(m)[0]) by {
        assert KoreanOrdinal(m) == NatToDecimal(m) + "번째";
      }
    } else if 1 <= m <= 10 {
      assert IsDigit(KoreanOrdinal(n)[0]) by {
        assert KoreanOrdinal(n) == NatToDecimal(n) + "번째";
      }
    }
  }

  /** The five suffixes of the Bengali and Odia ordinal rule. */
  datatype IndicSuffixes = IndicSuffixes(higher: string, first: string, second: string, fourth: string, sixth: string)

  const Bengali: IndicSuffixes := IndicSuffixes("তম", "ম", "য়", "র্থ", "ষ্ঠ")
  const Odia: IndicSuffixes := IndicSuffixes("ତମ", "ମ", "ୟ", "ର୍ଥ", "ଷ୍ଠ")

  /**
   * Bengali/Odia _ordinal_number: 0 and 11 upwards take the "higher" suffix,
   * 1, 5, 7..10 the first, 2 and 3 the second, 4 and 6 their own; a negative
   * number has no ordinal and gives "".
   */
  function IndicOrdinal(t: IndicSuffixes, n: int): string {
    if n > 10 || n == 0 then NatToDecimal(n) + t.higher
    else if n in {1, 5, 7, 8, 9, 10} then NatToDecimal(n) + t.first
    else if n in {2, 3} then NatToDecimal(n) + t.second
    else if n == 4 then NatToDecimal(n) + t.fourth
    else if n == 6 then NatToDecimal(n) + t.sixth
    else ""
  }

  /** The suffix IndicOrdinal chooses for a non-negative number. */
  function IndicSuffix(t: IndicSuffixes, n: nat): string {
    if n == 0 || n > 10 then t.higher
    else if n in {1, 5, 7, 8, 9, 10} then t.first
    else if n in {2, 3} then t.second
    else if n == 4 then t.fourth
    else t.sixth
  }

  /**
   * Every non-negative number gets exactly one suffix after its numeral, and
   * only negative numbers get the empty string.
   */
  lemma IndicOrdinalShape(t: IndicSuffixes, n: int)
    requires t.higher != [] && t.first != [] && t.second != [] && t.fourth != [] && t.sixth != []
    ensures IndicOrdinal(t, n) == [] <==> n < 0
    ensures n >= 0 ==> IndicOrdinal(t, n) == NatToDecimal(n) + IndicSuffix(t, n)
  {
  }

  /** For both tables the numeral in front is the number, since no suffix starts with a digit. */
  lemma IndicOrdinalShowsNumber(n: nat)
    ensures NumeralOf(IndicOrdinal(Bengali, n)) == n
    ensures NumeralOf(IndicOrdinal(Odia, n)) == n
  {
    IndicOrdinalShape(Bengali, n);
    IndicOrdinalShape(Odia, n);
    NumeralShown(n, IndicSuffix(Bengali, n));
    NumeralShown(n, IndicSuffix(Odia, n));
  }

  /** Tamil: "வது" after 1, "ஆம்" after every other non-negative number, "" for a negative one. */
  function TamilOrdinal(n: int): string {
    if n == 1 then NatToDecimal(n) + "வது"
    else if n >= 0 then NatToDecimal(n) + "ஆம்"
    else ""
  }

  lemma TamilOrdinalShape(n: int)
    ensures TamilOrdinal(n) == [] <==> n < 0
    ensures n >= 0 ==> NumeralOf(TamilOrdinal(n)) == n
  {
    if n >= 0 {
      NumeralShown(n, if n == 1 then "வது" else "ஆம்");
    }
  }

  /** Tagalog: "ika-" before the number as Python writes it. */
  function TagalogOrdinal(n: int): string {
    "ika-" + IntToDecimal(n)
  }

  lemma TagalogOrdinalShowsNumber(n: nat)
    ensures TagalogOrdinal(n)[..4] == "ika-"
    ensures NumeralOf(TagalogOrdinal(n)[4..]) == n
  {
    assert TagalogOrdinal(n)[4..] == NatToDecimal(n) + [];
    NumeralShown(n, []);
  }

  /** The offset of the Buddhist era from the Gregorian calendar. */
  const BuddhistEraOffset: nat := 543

  function Zeros(k: nat): (z: string)
    ensures |z| == k && AllDigits(z)
  {
    if k == 0 then [] else Zeros(k - 1) + ['0']
  }

  /** Python's "{:04d}": the numeral left-padded with zeros to four characters. */
  function PadFour(n: nat): (s: string)
    ensures AllDigits(s)
    ensures |s| == if |NatToDecimal(n)| >= 4 then |NatToDecimal(n)| else 4
  {
    var d := NatToDecimal(n);
    if |d| >= 4 then d else Zeros(4 - |d|) + d
  }

  /** Leading zeros do not change the value of a numeral. */
  lemma {:induction false} ZerosAddNothing(k: nat, s: string)
    requires AllDigits(s)
    ensures DecimalToNat(Zeros(k) + s) == DecimalToNat(s)
    decreases |s|, k
  {
    if s == [] {
      assert Zeros(k) + s == Zeros(k);
      if k > 0 {
        ZerosAddNothing(k - 1, s);
        assert Zeros(k - 1) + s == Zeros(k - 1);
      }
    } else {
      var init := s[..|s| - 1];
      assert (Zeros(k) + s)[..|Zeros(k) + s| - 1] == Zeros(k) + init;
      ZerosAddNothing(k, init);
    }
  }

  /** year_full of the Thai and Lao locales: the Buddhist-era year, at least four digits. */
  function YearFull(year: nat): string {
    PadFour(year + BuddhistEraOffset)
  }

  /** year_abbreviation: year_full without its first two characters. */
  function YearAbbreviation(year: nat): string {
    YearFull(year)[2..]
  }

  /** The full year reads back as the Gregorian year plus 543, and is four digits up to Buddhist year 9999. */
  lemma YearFullReadsBack(year: nat)
    ensures DecimalToNat(YearFull(year)) == year + BuddhistEraOffset
    ensures year + BuddhistEraOffset < 10000 ==> |YearFull(year)| == 4
  {
    var n := year + BuddhistEraOffset;
    var d := NatToDecimal(n);
    DecimalRoundTrip(n);
    if |d| < 4 {
      ZerosAddNothing(4 - |d|, d);
    }
    if n < 10000 {
      DigitCount(n);
    }
  }

  /** A number below 10000 has at most four digits. */
  lemma {:induction false} DigitCount(n: nat)
    requires n < 10000
    ensures |NatToDecimal(n)| <= 4
  {
    if n >= 10 {
      if n / 10 >= 10 {
        if n / 100 >= 10 {
          assert |NatToDecimal(n / 1000)| == 1;
          assert NatToDecimal(n / 100) == NatToDecimal(n / 1000) + [DigitChar((n / 100) % 10)];
        }
      }
    }
  }

  /**
   * The abbreviation is the last two digits of the Buddhist-era year (2015
   * gives 2558 and 58) for every year whose Buddhist year has four digits or fewer.
   */
  lemma YearAbbreviationIsLastTwoDigits(year: nat)
    requires year + BuddhistEraOffset < 10000
    ensures YearAbbreviation(year) == TwoDigits((year + BuddhistEraOffset) % 100)
    ensures YearAbbreviation(year) == YearFull(year)[|YearFull(year)| - 2..]
  {
    var n := year + BuddhistEraOffset;
    var d := NatToDecimal(n);
    YearFullReadsBack(year);
    LastTwoCharacters(n);
    var full := YearFull(year);
    assert full[|full| - 2..] == d[|d| - 2..];
  }
}
