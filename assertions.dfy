/**
 * The concrete input/output pairs of the locale tests, stated as lemmas
 * about the model: each ensures clause is one assertion of the test suite.
 * A counted phrase is proved through its rendering ("{0} час" at 21 is
 * "21 час"); a describe_multi call through the phrases of its pairs.
 */
module LocaleAssertions {
  import opened Wrappers
  import opened Decimal
  import opened Timeframes
  import opened Locales
  import opened Relative
  import opened NumberHelpers
  import opened Calendar
  import opened TimeframeInstances

  /** The numerals the ordinal tests show, as str() writes them. */
  lemma SmallNumerals()
    ensures NatToDecimal(0) == "0"
    ensures NatToDecimal(1) == "1"
    ensures NatToDecimal(2) == "2"
    ensures NatToDecimal(3) == "3"
    ensures NatToDecimal(4) == "4"
    ensures NatToDecimal(5) == "5"
    ensures NatToDecimal(6) == "6"
    ensures NatToDecimal(10) == "10"
    ensures NatToDecimal(11) == "11"
    ensures NatToDecimal(12) == "12"
    ensures NatToDecimal(13) == "13"
    ensures NatToDecimal(14) == "14"
    ensures NatToDecimal(21) == "21"
    ensures NatToDecimal(22) == "22"
    ensures NatToDecimal(23) == "23"
    ensures NatToDecimal(24) == "24"
  {
  }

  lemma HundredsNumerals()
    ensures NatToDecimal(100) == "100"
    ensures NatToDecimal(101) == "101"
    ensures NatToDecimal(102) == "102"
    ensures NatToDecimal(103) == "103"
    ensures NatToDecimal(104) == "104"
    ensures NatToDecimal(110) == "110"
    ensures NatToDecimal(111) == "111"
    ensures NatToDecimal(112) == "112"
    ensures NatToDecimal(113) == "113"
    ensures NatToDecimal(114) == "114"
    ensures NatToDecimal(121) == "121"
    ensures NatToDecimal(122) == "122"
    ensures NatToDecimal(123) == "123"
    ensures NatToDecimal(124) == "124"
  {
    SmallNumerals();
  }

  lemma BuddhistNumeral()
    ensures NatToDecimal(2558) == "2558"
  {
    assert NatToDecimal(25) == "25";
    assert NatToDecimal(255) == "255";
  }

  // ---------------------------------------------------------------- English

  /** English: describe of "now", "hour" ignoring its magnitude, and _format_relative. */
  lemma EnglishPhrases()
    ensures Describe(English, Now, 0, true) == Ok("instantly")
    ensures Describe(English, Now, 0, false) == Ok("just now")
    ensures Timeframe(English, Key(Hour, false), 0) == Ok("an hour")
    ensures Timeframe(English, Key(Hour, true), 2) == Ok("2 hours")
    ensures FormatRelative(English, "just now", Now, 0) == "just now"
    ensures FormatRelative(English, "an hour", Key(Hour, false), 1) == "in an hour"
    ensures FormatRelative(English, "an hour", Key(Hour, false), -1) == "an hour ago"
  {
    EnglishHours2();
  }

  /** English ordinal_number below 25. */
  lemma EnglishOrdinalsLow()
    ensures EnglishOrdinal(0) == "0th" && EnglishOrdinal(1) == "1st" && EnglishOrdinal(2) == "2nd"
    ensures EnglishOrdinal(3) == "3rd" && EnglishOrdinal(4) == "4th" && EnglishOrdinal(10) == "10th"
    ensures EnglishOrdinal(11) == "11th" && EnglishOrdinal(12) == "12th" && EnglishOrdinal(13) == "13th"
    ensures EnglishOrdinal(14) == "14th" && EnglishOrdinal(21) == "21st" && EnglishOrdinal(22) == "22nd"
    ensures EnglishOrdinal(23) == "23rd" && EnglishOrdinal(24) == "24th"
  {
    SmallNumerals();
  }

  /** English ordinal_number from 100 on: the hundreds do not change the suffix. */
  lemma EnglishOrdinalsHigh()
    ensures EnglishOrdinal(100) == "100th" && EnglishOrdinal(101) == "101st" && EnglishOrdinal(102) == "102nd"
    ensures EnglishOrdinal(103) == "103rd" && EnglishOrdinal(104) == "104th" && EnglishOrdinal(110) == "110th"
    ensures EnglishOrdinal(111) == "111th" && EnglishOrdinal(112) == "112th" && EnglishOrdinal(113) == "113th"
    ensures EnglishOrdinal(114) == "114th" && EnglishOrdinal(121) == "121st" && EnglishOrdinal(122) == "122nd"
    ensures EnglishOrdinal(123) == "123rd" && EnglishOrdinal(124) == "124th"
  {
    HundredsNumerals();
  }

  /** English meridian: None, "B" and "NONSENSE" have no meridian. */
  lemma EnglishMeridianInvalid()
    ensures MeridianTableOf(English).Some?
    ensures Meridian(MeridianTableOf(English).value, 7, None) == None
    ensures Meridian(MeridianTableOf(English).value, 7, Some("B")) == None
    ensures Meridian(MeridianTableOf(English).value, 7, Some("NONSENSE")) == None
  {
  }

  /** Tagalog meridian: "A" gives "ng umaga"/"ng hapon", "a" gives "nu"/"nh". */
  lemma TagalogMeridians()
    ensures MeridianTableOf(Tagalog).Some?
    ensures Meridian(MeridianTableOf(Tagalog).value, 7, Some("A")) == Some("ng umaga")
    ensures Meridian(MeridianTableOf(Tagalog).value, 18, Some("A")) == Some("ng hapon")
    ensures Meridian(MeridianTableOf(Tagalog).value, 10, Some("a")) == Some("nu")
    ensures Meridian(MeridianTableOf(Tagalog).value, 22, Some("a")) == Some("nh")
  {
  }

  // ----------------------------------------------------------- Slavic rules

  /** Russian singulars and the relative templates. */
  lemma RussianRelative()
    ensures Timeframe(Russian, Key(Second, false), 1) == Ok("секунда")
    ensures Timeframe(Russian, Key(Quarter, false), 1) == Ok("квартал")
    ensures FormatRelative(Russian, "секунду", Key(Second, false), 1) == "через секунду"
    ensures FormatRelative(Russian, "секунду", Key(Second, false), -1) == "секунду назад"
    ensures FormatRelative(Russian, "квартал", Key(Quarter, false), 1) == "через квартал"
    ensures FormatRelative(Russian, "квартал", Key(Quarter, false), -1) == "квартал назад"
  {
  }

  /** Russian: 21 takes the "one" form, 22 the "few" form, 25 the "many" form. */
  lemma RussianPlurals()
    ensures Timeframe(Russian, Key(Second, true), 21) == Ok("21 секунду")
    ensures Timeframe(Russian, Key(Second, true), 22) == Ok("22 секунды")
    ensures Timeframe(Russian, Key(Second, true), 25) == Ok("25 секунд")
  {
    RussianSeconds21();
    RussianSeconds22();
    RussianSeconds25();
  }

  /** Russian: zero takes the "many" form, and 21 the "one" form for every unit. */
  lemma RussianZeroAndTwentyOne()
    ensures Timeframe(Russian, Key(Hour, true), 0) == Ok("0 часов")
    ensures Timeframe(Russian, Key(Hour, true), 21) == Ok("21 час")
    ensures Timeframe(Russian, Key(Minute, true), 21) == Ok("21 минуту")
  {
    RussianHours0();
    RussianHours21();
    RussianMinutes21();
  }

  /** Polish: unlike Russian, 21 takes the "many" form. */
  lemma PolishPlurals()
    ensures Timeframe(Polish, Key(Second, false), 1) == Ok("sekundę")
    ensures Timeframe(Polish, Key(Second, true), 21) == Ok("21 sekund")
    ensures Timeframe(Polish, Key(Second, true), 22) == Ok("22 sekundy")
    ensures Timeframe(Polish, Key(Week, true), 5) == Ok("5 tygodni")
  {
    PolishSeconds21();
    PolishSeconds22();
    PolishWeeks5();
  }

  /** Czech plurals: the instrumental for a negative delta, the 2-4 and 5+ forms for a positive one. */
  lemma CzechPlurals()
    ensures Timeframe(Czech, Key(Second, true), 0) == Ok("vteřina")
    ensures Timeframe(Czech, Key(Second, true), -2) == Ok("2 sekundami")
    ensures Timeframe(Czech, Key(Second, true), 5) == Ok("5 sekund")
    ensures Timeframe(Czech, Key(Month, true), 2) == Ok("2 měsíce")
  {
    CzechSecondsPast2();
    CzechSeconds5();
    CzechMonths2();
  }

  /** Czech singulars by sign, the zero form, and the relative templates. */
  lemma CzechSingulars()
    ensures Timeframe(Czech, Now, 0) == Ok("Teď")
    ensures Timeframe(Czech, Key(Hour, false), -1) == Ok("hodinou")
    ensures Timeframe(Czech, Key(Hour, false), 1) == Ok("hodinu")
    ensures Timeframe(Czech, Key(Year, true), 0) == Ok("0 let")
    ensures FormatRelative(Czech, "hodinu", Key(Hour, false), 1) == "Za hodinu"
    ensures FormatRelative(Czech, "hodinou", Key(Hour, false), -1) == "Před hodinou"
  {
    CzechYears0();
  }

  /** Slovak: the same cases with Slovak words. */
  lemma SlovakTimeframes()
    ensures Timeframe(Slovak, Now, 0) == Ok("Teraz")
    ensures Timeframe(Slovak, Key(Second, false), -1) == Ok("sekundou")
    ensures Timeframe(Slovak, Key(Day, false), 1) == Ok("deň")
    ensures Timeframe(Slovak, Key(Second, true), -5) == Ok("5 sekundami")
    ensures Timeframe(Slovak, Key(Second, true), 0) == Ok("0 sekúnd")
    ensures Timeframe(Slovak, Key(Day, true), 2) == Ok("2 dni")
  {
    SlovakSecondsPast5();
    SlovakSeconds0();
    SlovakDays2();
  }

  /** Bulgarian: two forms, "ends in 1 but not 11" against everything else. */
  lemma BulgarianPlurals()
    ensures Timeframe(Bulgarian, Key(Hour, true), 5) == Ok("5 часа")
    ensures Timeframe(Bulgarian, Key(Hour, true), 21) == Ok("21 час")
    ensures Timeframe(Bulgarian, Key(Minute, true), 21) == Ok("21 минута")
  {
    BulgarianHours5();
    BulgarianHours21();
    BulgarianMinutes21();
  }

  /** Macedonian: the same two forms. */
  lemma MacedonianPlurals()
    ensures Timeframe(Macedonian, Key(Hour, true), 21) == Ok("21 саат")
    ensures Timeframe(Macedonian, Key(Hour, true), 22) == Ok("22 саати")
    ensures Timeframe(Macedonian, Key(Day, true), 3) == Ok("3 дена")
  {
    MacedonianHours21();
    MacedonianHours22();
    MacedonianDays3();
  }

  /** Macedonian singulars, meridians, describe and the past template. */
  lemma MacedonianPhrases()
    ensures Timeframe(Macedonian, Key(Hour, false), 1) == Ok("еден саат")
    ensures MeridianTableOf(Macedonian).Some?
    ensures Meridian(MeridianTableOf(Macedonian).value, 7, Some("A")) == Some("претпладне")
    ensures Meridian(MeridianTableOf(Macedonian).value, 22, Some("a")) == Some("пп")
    ensures Describe(Macedonian, Key(Week, false), 0, true) == Ok("една недела")
    ensures Describe(Macedonian, Key(Week, false), 0, false) == Ok("за една недела")
    ensures FormatRelative(Macedonian, "1 саат", Key(Hour, true), -1) == "пред 1 саат"
  {
    assert Timeframe(Macedonian, Key(Week, false), 0) == Ok("една недела");
    assert FormatRelative(Macedonian, "една недела", Key(Week, false), 0) == "за една недела";
  }

  // --------------------------------------------------------- describe_multi
  // Each call is proved in three steps on pinned arguments: the phrases of
  // its pairs (through MultiFromPhrases), the joined list, and the wrap.

  lemma MacedonianFullPhrases(spans: seq<Span>, segs: seq<string>)
    requires spans == [Span(Key(Year, true), 5), Span(Key(Week, true), 1),
                       Span(Key(Hour, true), 1), Span(Key(Minute, true), 6)]
    requires segs == ["5 години", "1 недела", "1 саат", "6 минути"]
    ensures DescribeMulti(Macedonian, spans, false)
            == Ok(FormatRelative(Macedonian, JoinSegments(Macedonian, segs), Key(Second, true), LeadingDelta(spans)))
  {
    MacedonianYears5(); MacedonianWeeks1(); MacedonianHours1(); MacedonianMinutes6();
    MultiFromPhrases(Macedonian, spans, segs, false);
  }

  lemma MacedonianFullJoin(segs: seq<string>)
    requires segs == ["5 години", "1 недела", "1 саат", "6 минути"]
    ensures JoinSegments(Macedonian, segs) == "5 години 1 недела 1 саат 6 минути"
  {
    assert segs[..1] == ["5 години"];
    assert segs[..2][..1] == ["5 години"];
    assert JoinWith(" ", segs[..2]) == "5 години 1 недела";
    assert segs[..3][..2] == segs[..2];
    assert JoinWith(" ", segs[..3]) == "5 години 1 недела 1 саат";
  }

  lemma MacedonianFullWrap()
    ensures FormatRelative(Macedonian, "5 години 1 недела 1 саат 6 минути", Key(Second, true), 5)
            == "за 5 години 1 недела 1 саат 6 минути"
  {
  }

  lemma MacedonianMultiFull(spans: seq<Span>)
    requires spans == [Span(Key(Year, true), 5), Span(Key(Week, true), 1),
                       Span(Key(Hour, true), 1), Span(Key(Minute, true), 6)]
    ensures DescribeMulti(Macedonian, spans, false) == Ok("за 5 години 1 недела 1 саат 6 минути")
  {
    var segs := ["5 години", "1 недела", "1 саат", "6 минути"];
    MacedonianFullPhrases(spans, segs);
    MacedonianFullJoin(segs);
    assert LeadingDelta(spans) == 5;
    MacedonianFullWrap();
  }

  lemma MacedonianZeroDaysPhrases(spans: seq<Span>, segs: seq<string>)
    requires spans == [Span(Key(Day, true), 0), Span(Key(Hour, true), 1), Span(Key(Minute, true), 6)]
    requires segs == ["0 дена", "1 саат", "6 минути"]
    ensures DescribeMulti(Macedonian, spans, false)
            == Ok(FormatRelative(Macedonian, JoinSegments(Macedonian, segs), Key(Second, true), LeadingDelta(spans)))
  {
    MacedonianDays0(); MacedonianHours1(); MacedonianMinutes6();
    MultiFromPhrases(Macedonian, spans, segs, false);
  }

  lemma MacedonianZeroDaysJoin(segs: seq<string>)
    requires segs == ["0 дена", "1 саат", "6 минути"]
    ensures JoinSegments(Macedonian, segs) == "0 дена 1 саат 6 минути"
  {
    assert segs[..1] == ["0 дена"];
    assert segs[..2][..1] == ["0 дена"];
    assert JoinWith(" ", segs[..2]) == "0 дена 1 саат";
  }

  lemma MacedonianZeroDaysWrap()
    ensures FormatRelative(Macedonian, "0 дена 1 саат 6 минути", Key(Second, true), 1)
            == "за 0 дена 1 саат 6 минути"
  {
  }

  lemma MacedonianMultiZeroDays(spans: seq<Span>)
    requires spans == [Span(Key(Day, true), 0), Span(Key(Hour, true), 1), Span(Key(Minute, true), 6)]
    ensures DescribeMulti(Macedonian, spans, false) == Ok("за 0 дена 1 саат 6 минути")
  {
    var segs := ["0 дена", "1 саат", "6 минути"];
    MacedonianZeroDaysPhrases(spans, segs);
    MacedonianZeroDaysJoin(segs);
    assert LeadingDelta(spans) == 1;
    MacedonianZeroDaysWrap();
  }

  /** Macedonian describe_multi: joined by spaces, "за " in front once, zero pairs kept. */
  lemma MacedonianMulti()
    ensures DescribeMulti(Macedonian, [Span(Key(Year, true), 5), Span(Key(Week, true), 1),
                                       Span(Key(Hour, true), 1), Span(Key(Minute, true), 6)], false)
            == Ok("за 5 години 1 недела 1 саат 6 минути")
    ensures DescribeMulti(Macedonian, [Span(Key(Day, true), 0), Span(Key(Hour, true), 1),
                                       Span(Key(Minute, true), 6)], false)
            == Ok("за 0 дена 1 саат 6 минути")
  {
    MacedonianMultiFull([Span(Key(Year, true), 5), Span(Key(Week, true), 1),
                         Span(Key(Hour, true), 1), Span(Key(Minute, true), 6)]);
    MacedonianMultiZeroDays([Span(Key(Day, true), 0), Span(Key(Hour, true), 1), Span(Key(Minute, true), 6)]);
  }

  lemma HebrewFullPhrases(spans: seq<Span>, segs: seq<string>)
    requires spans == [Span(Key(Year, true), 5), Span(Key(Week, false), 1),
                       Span(Key(Hour, false), 1), Span(Key(Minute, true), 6)]
    requires segs == ["5 שנים", "שבוע", "שעה", "6 דקות"]
    ensures DescribeMulti(Hebrew, spans, false)
            == Ok(FormatRelative(Hebrew, JoinSegments(Hebrew, segs), Key(Second, true), LeadingDelta(spans)))
  {
    HebrewYears5(); HebrewMinutes6();
    assert Timeframe(Hebrew, Key(Week, false), 1) == Ok(segs[1]);
    assert Timeframe(Hebrew, Key(Hour, false), 1) == Ok(segs[2]);
    MultiFromPhrases(Hebrew, spans, segs, false);
  }

  lemma HebrewFullJoin(segs: seq<string>)
    requires segs == ["5 שנים", "שבוע", "שעה", "6 דקות"]
    ensures JoinSegments(Hebrew, segs) == "5 שנים, שבוע, שעה ו־6 דקות"
  {
    assert HebrewFold(segs, 1) == "5 שנים";
    assert HebrewFold(segs, 2) == "5 שנים, שבוע";
    assert HebrewFold(segs, 3) == "5 שנים, שבוע, שעה";
    assert Maqaf(segs[3]) == "־";
  }

  lemma HebrewFullWrap()
    ensures FormatRelative(Hebrew, "5 שנים, שבוע, שעה ו־6 דקות", Key(Second, true), 5)
            == "בעוד 5 שנים, שבוע, שעה ו־6 דקות"
  {
  }

  lemma HebrewMultiFull(spans: seq<Span>)
    requires spans == [Span(Key(Year, true), 5), Span(Key(Week, false), 1),
                       Span(Key(Hour, false), 1), Span(Key(Minute, true), 6)]
    ensures DescribeMulti(Hebrew, spans, false) == Ok("בעוד 5 שנים, שבוע, שעה ו־6 דקות")
  {
    var segs := ["5 שנים", "שבוע", "שעה", "6 דקות"];
    HebrewFullPhrases(spans, segs);
    HebrewFullJoin(segs);
    assert LeadingDelta(spans) == 5;
    HebrewFullWrap();
  }

  lemma HebrewTwoWordsPhrases(spans: seq<Span>, segs: seq<string>)
    requires spans == [Span(Key(Hour, false), 1), Span(Key(Minute, false), 1)]
    requires segs == ["שעה", "דקה"]
    ensures DescribeMulti(Hebrew, spans, false)
            == Ok(FormatRelative(Hebrew, JoinSegments(Hebrew, segs), Key(Second, true), LeadingDelta(spans)))
  {
    assert Timeframe(Hebrew, Key(Hour, false), 1) == Ok(segs[0]);
    assert Timeframe(Hebrew, Key(Minute, false), 1) == Ok(segs[1]);
    MultiFromPhrases(Hebrew, spans, segs, false);
  }

  lemma HebrewTwoWordsJoin(segs: seq<string>)
    requires segs == ["שעה", "דקה"]
    ensures JoinSegments(Hebrew, segs) == "שעה ודקה"
  {
    assert HebrewFold(segs, 1) == "שעה";
    assert Maqaf(segs[1]) == "";
  }

  lemma HebrewTwoWordsWrap()
    ensures FormatRelative(Hebrew, "שעה ודקה", Key(Second, true), 1) == "בעוד שעה ודקה"
  {
  }

  lemma HebrewMultiTwoWords(spans: seq<Span>)
    requires spans == [Span(Key(Hour, false), 1), Span(Key(Minute, false), 1)]
    ensures DescribeMulti(Hebrew, spans, false) == Ok("בעוד שעה ודקה")
  {
    var segs := ["שעה", "דקה"];
    HebrewTwoWordsPhrases(spans, segs);
    HebrewTwoWordsJoin(segs);
    assert LeadingDelta(spans) == 1;
    HebrewTwoWordsWrap();
  }

  /** Hebrew describe_multi: ", " between items, " ו" before the last, a maqaf before a numeral. */
  lemma HebrewMulti()
    ensures DescribeMulti(Hebrew, [Span(Key(Year, true), 5), Span(Key(Week, false), 1),
                                   Span(Key(Hour, false), 1), Span(Key(Minute, true), 6)], false)
            == Ok("בעוד 5 שנים, שבוע, שעה ו־6 דקות")
    ensures DescribeMulti(Hebrew, [Span(Key(Hour, false), 1), Span(Key(Minute, false), 1)], false)
            == Ok("בעוד שעה ודקה")
  {
    HebrewMultiFull([Span(Key(Year, true), 5), Span(Key(Week, false), 1),
                     Span(Key(Hour, false), 1), Span(Key(Minute, true), 6)]);
    HebrewMultiTwoWords([Span(Key(Hour, false), 1), Span(Key(Minute, false), 1)]);
  }

  lemma TagalogFullPhrases(spans: seq<Span>, segs: seq<string>)
    requires spans == [Span(Key(Year, true), 5), Span(Key(Week, true), 1),
                       Span(Key(Hour, true), 1), Span(Key(Minute, true), 6)]
    requires segs == ["5 taon", "1 linggo", "1 oras", "6 minuto"]
    ensures DescribeMulti(Tagalog, spans, false)
            == Ok(FormatRelative(Tagalog, JoinSegments(Tagalog, segs), Key(Second, true), LeadingDelta(spans)))
  {
    TagalogYears5(); TagalogWeeks1(); TagalogHours1(); TagalogMinutes6();
    MultiFromPhrases(Tagalog, spans, segs, false);
  }

  lemma TagalogFullJoin(segs: seq<string>)
    requires segs == ["5 taon", "1 linggo", "1 oras", "6 minuto"]
    ensures JoinSegments(Tagalog, segs) == "5 taon 1 linggo 1 oras 6 minuto"
  {
    assert segs[..1] == ["5 taon"];
    assert segs[..2][..1] == ["5 taon"];
    assert JoinWith(" ", segs[..2]) == "5 taon 1 linggo";
    assert segs[..3][..2] == segs[..2];
    assert JoinWith(" ", segs[..3]) == "5 taon 1 linggo 1 oras";
  }

  lemma TagalogFullWrap()
    ensures FormatRelative(Tagalog, "5 taon 1 linggo 1 oras 6 minuto", Key(Second, true), 5)
            == "5 taon 1 linggo 1 oras 6 minuto mula ngayon"
  {
  }

  lemma TagalogMultiFull(spans: seq<Span>)
    requires spans == [Span(Key(Year, true), 5), Span(Key(Week, true), 1),
                       Span(Key(Hour, true), 1), Span(Key(Minute, true), 6)]
    ensures DescribeMulti(Tagalog, spans, false) == Ok("5 taon 1 linggo 1 oras 6 minuto mula ngayon")
  {
    var segs := ["5 taon", "1 linggo", "1 oras", "6 minuto"];
    TagalogFullPhrases(spans, segs);
    TagalogFullJoin(segs);
    assert LeadingDelta(spans) == 5;
    TagalogFullWrap();
  }

  lemma TagalogMultiDistance(spans: seq<Span>)
    requires spans == [Span(Key(Hour, true), 1), Span(Key(Minute, true), 6)]
    ensures DescribeMulti(Tagalog, spans, true) == Ok("1 oras 6 minuto")
  {
    var segs := ["1 oras", "6 minuto"];
    TagalogHours1(); TagalogMinutes6();
    MultiFromPhrases(Tagalog, spans, segs, true);
    assert JoinSegments(Tagalog, segs) == "1 oras 6 minuto" by {
      assert segs[..1] == ["1 oras"];
    }
  }

  /** Tagalog describe_multi: joined by spaces, " mula ngayon" after once, or not at all for the distance. */
  lemma TagalogMulti()
    ensures DescribeMulti(Tagalog, [Span(Key(Year, true), 5), Span(Key(Week, true), 1),
                                    Span(Key(Hour, true), 1), Span(Key(Minute, true), 6)], false)
            == Ok("5 taon 1 linggo 1 oras 6 minuto mula ngayon")
    ensures DescribeMulti(Tagalog, [Span(Key(Hour, true), 1), Span(Key(Minute, true), 6)], true)
            == Ok("1 oras 6 minuto")
  {
    TagalogMultiFull([Span(Key(Year, true), 5), Span(Key(Week, true), 1),
                      Span(Key(Hour, true), 1), Span(Key(Minute, true), 6)]);
    TagalogMultiDistance([Span(Key(Hour, true), 1), Span(Key(Minute, true), 6)]);
  }

  // ------------------------------------------------------ the other shapes

  /** Icelandic: dative for the past, accusative for the future, ValueError at zero. */
  lemma IcelandicTimeframes()
    ensures Timeframe(Icelandic, Now, 0) == Ok("rétt í þessu")
    ensures Timeframe(Icelandic, Key(Minute, false), -1) == Ok("einni mínútu")
    ensures Timeframe(Icelandic, Key(Minute, false), 1) == Ok("eina mínútu")
    ensures Timeframe(Icelandic, Key(Day, true), -2) == Ok("2 dögum")
    ensures Timeframe(Icelandic, Key(Day, true), 2) == Ok("2 daga")
    ensures Timeframe(Icelandic, Key(Year, true), 0).Err?
  {
    IcelandicDaysPast2();
    IcelandicDays2();
  }

  /** Arabic: the dual word, the 3..10 plural, and the singular noun above ten. */
  lemma ArabicTimeframes()
    ensures Timeframe(Arabic, Key(Hour, false), 1) == Ok("ساعة")
    ensures Timeframe(Arabic, Key(Minute, true), 2) == Ok("دقيقتين")
    ensures Timeframe(Arabic, Key(Minute, true), 3) == Ok("3 دقائق")
    ensures Timeframe(Arabic, Key(Minute, true), 11) == Ok("11 دقيقة")
    ensures Timeframe(Arabic, Key(Year, true), 115) == Ok("115 سنة")
  {
    ArabicMinutes3();
    ArabicMinutes11();
    ArabicYears115();
  }

  /** Hebrew: the dual word for 2 days, and the singular noun above ten for days and years. */
  lemma HebrewTimeframes()
    ensures Timeframe(Hebrew, Now, 0) == Ok("הרגע")
    ensures Timeframe(Hebrew, Key(Day, true), 2) == Ok("יומיים")
    ensures Timeframe(Hebrew, Key(Day, true), 3) == Ok("3 ימים")
    ensures Timeframe(Hebrew, Key(Day, true), 80) == Ok("80 יום")
    ensures Timeframe(Hebrew, Key(Year, true), 15) == Ok("15 שנה")
  {
    HebrewDays3();
    HebrewDays80();
    HebrewYears15();
  }

  /** Korean timeframes and the special day/year words of _format_relative. */
  lemma KoreanPhrases()
    ensures Timeframe(Korean, Key(Hour, false), 1) == Ok("한시간")
    ensures Timeframe(Korean, Key(Month, true), 2) == Ok("2개월")
    ensures FormatRelative(Korean, "하루", Key(Day, false), 1) == "내일"
    ensures FormatRelative(Korean, "4일", Key(Day, true), 4) == "그글피"
    ensures FormatRelative(Korean, "5일", Key(Day, true), 5) == "5일 후"
    ensures FormatRelative(Korean, "2일", Key(Day, true), -2) == "그제"
    ensures FormatRelative(Korean, "3일", Key(Day, true), -3) == "3일 전"
    ensures FormatRelative(Korean, "2년", Key(Year, true), -2) == "재작년"
    ensures FormatRelative(Korean, "3년", Key(Year, true), 3) == "3년 후"
    ensures FormatRelative(Korean, "한시간", Key(Hour, false), -1) == "한시간 전"
  {
    KoreanMonths2();
  }

  /** Korean ordinal_number: native stems up to 10. */
  lemma KoreanOrdinalsNative()
    ensures KoreanOrdinal(1) == "첫번째" && KoreanOrdinal(4) == "네번째" && KoreanOrdinal(10) == "열번째"
  {
  }

  /** Korean ordinal_number: the numeral for 0 and above 10. */
  lemma KoreanOrdinalsNumeral()
    ensures KoreanOrdinal(0) == "0번째" && KoreanOrdinal(11) == "11번째" && KoreanOrdinal(100) == "100번째"
  {
    assert NatToDecimal(0) == "0";
    assert NatToDecimal(11) == "11";
    assert NatToDecimal(100) == "100" by { assert NatToDecimal(10) == "10"; }
  }

  /** Bengali and Odia _ordinal_number, with "" for -1. */
  lemma IndicOrdinals()
    ensures IndicOrdinal(Bengali, 0) == "0তম" && IndicOrdinal(Bengali, 3) == "3য়"
    ensures IndicOrdinal(Bengali, 6) == "6ষ্ঠ" && IndicOrdinal(Bengali, -1) == ""
    ensures IndicOrdinal(Odia, 4) == "4ର୍ଥ" && IndicOrdinal(Odia, 10) == "10ମ" && IndicOrdinal(Odia, -1) == ""
  {
    SmallNumerals();
  }

  /** Tamil _ordinal_number: "வது" for 1 only, "ஆம்" otherwise, "" for -1. */
  lemma TamilOrdinals()
    ensures TamilOrdinal(0) == "0ஆம்" && TamilOrdinal(1) == "1வது" && TamilOrdinal(11) == "11ஆம்"
    ensures TamilOrdinal(-1) == ""
  {
    assert NatToDecimal(0) == "0";
    assert NatToDecimal(1) == "1";
    assert NatToDecimal(11) == "11";
  }

  /** Tagalog ordinal_number: "ika-" and the number. */
  lemma TagalogOrdinals()
    ensures TagalogOrdinal(0) == "ika-0" && TagalogOrdinal(23) == "ika-23" && TagalogOrdinal(114) == "ika-114"
  {
    assert NatToDecimal(0) == "0";
    assert NatToDecimal(23) == "23";
    assert NatToDecimal(114) == "114" by { assert NatToDecimal(11) == "11"; }
  }

  /** Thai and Lao: 2015 is Buddhist year 2558, abbreviated "58". */
  lemma BuddhistYear2015()
    ensures YearFull(2015) == "2558"
    ensures YearAbbreviation(2015) == "58"
  {
    BuddhistNumeral();
  }
}
