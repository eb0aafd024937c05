/**
 * One lemma per counted phrase the locale tests assert: the entry the
 * locale's table holds, the class its rule picks, and the numeral rendered
 * into the chosen form.
 */
module TimeframeInstances {
  import opened Wrappers
  import opened Decimal
  import opened Timeframes
  import opened PluralRules
  import opened Locales

  lemma EnglishHours2()
    ensures Timeframe(English, Key(Hour, true), 2) == Ok("2 hours")
  {
    assert EntryOf(English, Hour, true) == Some(Plain(Numbered(" hours")));
    assert NatToDecimal(2) == "2";
    assert Render(Numbered(" hours"), 2) == "2 hours";
  }

  lemma RussianSeconds21()
    ensures Timeframe(Russian, Key(Second, true), 21) == Ok("21 секунду")
  {
    assert EntryOf(Russian, Second, true) == Some(BySlavicClass(Numbered(" секунду"), Numbered(" секунды"), Numbered(" секунд")));
    assert SlavicClassOf(Russian, 21) == One;
    assert NatToDecimal(21) == "21";
    assert Render(Numbered(" секунду"), 21) == "21 секунду";
  }

  lemma RussianSeconds22()
    ensures Timeframe(Russian, Key(Second, true), 22) == Ok("22 секунды")
  {
    assert EntryOf(Russian, Second, true) == Some(BySlavicClass(Numbered(" секунду"), Numbered(" секунды"), Numbered(" секунд")));
    assert SlavicClassOf(Russian, 22) == Few;
    assert NatToDecimal(22) == "22";
    assert Render(Numbered(" секунды"), 22) == "22 секунды";
  }

  lemma RussianSeconds25()
    ensures Timeframe(Russian, Key(Second, true), 25) == Ok("25 секунд")
  {
    assert EntryOf(Russian, Second, true) == Some(BySlavicClass(Numbered(" секунду"), Numbered(" секунды"), Numbered(" секунд")));
    assert SlavicClassOf(Russian, 25) == Many;
    assert NatToDecimal(25) == "25";
    assert Render(Numbered(" секунд"), 25) == "25 секунд";
  }

  lemma RussianHours0()
    ensures Timeframe(Russian, Key(Hour, true), 0) == Ok("0 часов")
  {
    assert EntryOf(Russian, Hour, true) == Some(BySlavicClass(Numbered(" час"), Numbered(" часа"), Numbered(" часов")));
    assert SlavicClassOf(Russian, 0) == Many;
    assert NatToDecimal(0) == "0";
    assert Render(Numbered(" часов"), 0) == "0 часов";
  }

  lemma RussianHours21()
    ensures Timeframe(Russian, Key(Hour, true), 21) == Ok("21 час")
  {
    assert EntryOf(Russian, Hour, true) == Some(BySlavicClass(Numbered(" час"), Numbered(" часа"), Numbered(" часов")));
    assert SlavicClassOf(Russian, 21) == One;
    assert NatToDecimal(21) == "21";
    assert Render(Numbered(" час"), 21) == "21 час";
  }

  lemma RussianMinutes21()
    ensures Timeframe(Russian, Key(Minute, true), 21) == Ok("21 минуту")
  {
    assert EntryOf(Russian, Minute, true) == Some(BySlavicClass(Numbered(" минуту"), Numbered(" минуты"), Numbered(" минут")));
    assert SlavicClassOf(Russian, 21) == One;
    assert NatToDecimal(21) == "21";
    assert Render(Numbered(" минуту"), 21) == "21 минуту";
  }

  lemma PolishSeconds21()
    ensures Timeframe(Polish, Key(Second, true), 21) == Ok("21 sekund")
  {
    assert EntryOf(Polish, Second, true) == Some(BySlavicClass(Numbered(" sekundę"), Numbered(" sekundy"), Numbered(" sekund")));
    assert SlavicClassOf(Polish, 21) == Many;
    assert NatToDecimal(21) == "21";
    assert Render(Numbered(" sekund"), 21) == "21 sekund";
  }

  lemma PolishSeconds22()
    ensures Timeframe(Polish, Key(Second, true), 22) == Ok("22 sekundy")
  {
    assert EntryOf(Polish, Second, true) == Some(BySlavicClass(Numbered(" sekundę"), Numbered(" sekundy"), Numbered(" sekund")));
    assert SlavicClassOf(Polish, 22) == Few;
    assert NatToDecimal(22) == "22";
    assert Render(Numbered(" sekundy"), 22) == "22 sekundy";
  }

  lemma PolishWeeks5()
    ensures Timeframe(Polish, Key(Week, true), 5) == Ok("5 tygodni")
  {
    assert EntryOf(Polish, Week, true) == Some(BySlavicClass(Numbered(" tydzień"), Numbered(" tygodnie"), Numbered(" tygodni")));
    assert SlavicClassOf(Polish, 5) == Many;
    assert NatToDecimal(5) == "5";
    assert Render(Numbered(" tygodni"), 5) == "5 tygodni";
  }

  lemma CzechSecondsPast2()
    ensures Timeframe(Czech, Key(Second, true), -2) == Ok("2 sekundami")
  {
    assert EntryOf(Czech, Second, true) == Some(ByCase(Word("vteřina"), Numbered(" sekundami"), Numbered(" sekundy"), Numbered(" sekund")));
    assert WestSlavicSlot(-2) == Past;
    assert NatToDecimal(2) == "2";
    assert Render(Numbered(" sekundami"), 2) == "2 sekundami";
  }

  lemma CzechSeconds5()
    ensures Timeframe(Czech, Key(Second, true), 5) == Ok("5 sekund")
  {
    assert EntryOf(Czech, Second, true) == Some(ByCase(Word("vteřina"), Numbered(" sekundami"), Numbered(" sekundy"), Numbered(" sekund")));
    assert WestSlavicSlot(5) == FutureMany;
    assert NatToDecimal(5) == "5";
    assert Render(Numbered(" sekund"), 5) == "5 sekund";
  }

  lemma CzechMonths2()
    ensures Timeframe(Czech, Key(Month, true), 2) == Ok("2 měsíce")
  {
    assert EntryOf(Czech, Month, true) == Some(ByCase(Numbered(" měsíců"), Numbered(" měsíci"), Numbered(" měsíce"), Numbered(" měsíců")));
    assert WestSlavicSlot(2) == FutureFew;
    assert NatToDecimal(2) == "2";
    assert Render(Numbered(" měsíce"), 2) == "2 měsíce";
  }

  lemma CzechYears0()
    ensures Timeframe(Czech, Key(Year, true), 0) == Ok("0 let")
  {
    assert EntryOf(Czech, Year, true) == Some(ByCase(Numbered(" let"), Numbered(" lety"), Numbered(" roky"), Numbered(" let")));
    assert WestSlavicSlot(0) == Zero;
    assert NatToDecimal(0) == "0";
    assert Render(Numbered(" let"), 0) == "0 let";
  }

  lemma SlovakSecondsPast5()
    ensures Timeframe(Slovak, Key(Second, true), -5) == Ok("5 sekundami")
  {
    assert EntryOf(Slovak, Second, true) == Some(ByCase(Numbered(" sekúnd"), Numbered(" sekundami"), Numbered(" sekundy"), Numbered(" sekúnd")));
    assert WestSlavicSlot(-5) == Past;
    assert NatToDecimal(5) == "5";
    assert Render(Numbered(" sekundami"), 5) == "5 sekundami";
  }

  lemma SlovakSeconds0()
    ensures Timeframe(Slovak, Key(Second, true), 0) == Ok("0 sekúnd")
  {
    assert EntryOf(Slovak, Second, true) == Some(ByCase(Numbered(" sekúnd"), Numbered(" sekundami"), Numbered(" sekundy"), Numbered(" sekúnd")));
    assert WestSlavicSlot(0) == Zero;
    assert NatToDecimal(0) == "0";
    assert Render(Numbered(" sekúnd"), 0) == "0 sekúnd";
  }

  lemma SlovakDays2()
    ensures Timeframe(Slovak, Key(Day, true), 2) == Ok("2 dni")
  {
    assert EntryOf(Slovak, Day, true) == Some(ByCase(Numbered(" dní"), Numbered(" dňami"), Numbered(" dni"), Numbered(" dní")));
    assert WestSlavicSlot(2) == FutureFew;
    assert NatToDecimal(2) == "2";
    assert Render(Numbered(" dni"), 2) == "2 dni";
  }

  lemma BulgarianHours5()
    ensures Timeframe(Bulgarian, Key(Hour, true), 5) == Ok("5 часа")
  {
    assert EntryOf(Bulgarian, Hour, true) == Some(BySlavicClass(Numbered(" час"), Numbered(" часа"), Numbered(" часа")));
    assert SlavicClassOf(Bulgarian, 5) == Many;
    assert NatToDecimal(5) == "5";
    assert Render(Numbered(" часа"), 5) == "5 часа";
  }

  lemma BulgarianHours21()
    ensures Timeframe(Bulgarian, Key(Hour, true), 21) == Ok("21 час")
  {
    assert EntryOf(Bulgarian, Hour, true) == Some(BySlavicClass(Numbered(" час"), Numbered(" часа"), Numbered(" часа")));
    assert SlavicClassOf(Bulgarian, 21) == One;
    assert NatToDecimal(21) == "21";
    assert Render(Numbered(" час"), 21) == "21 час";
  }

  lemma BulgarianMinutes21()
    ensures Timeframe(Bulgarian, Key(Minute, true), 21) == Ok("21 минута")
  {
    assert EntryOf(Bulgarian, Minute, true) == Some(BySlavicClass(Numbered(" минута"), Numbered(" минути"), Numbered(" минути")));
    assert SlavicClassOf(Bulgarian, 21) == One;
    assert NatToDecimal(21) == "21";
    assert Render(Numbered(" минута"), 21) == "21 минута";
  }

  lemma MacedonianHours21()
    ensures Timeframe(Macedonian, Key(Hour, true), 21) == Ok("21 саат")
  {
    assert EntryOf(Macedonian, Hour, true) == Some(BySlavicClass(Numbered(" саат"), Numbered(" саати"), Numbered(" саати")));
    assert SlavicClassOf(Macedonian, 21) == One;
    assert NatToDecimal(21) == "21";
    assert Render(Numbered(" саат"), 21) == "21 саат";
  }

  lemma MacedonianHours22()
    ensures Timeframe(Macedonian, Key(Hour, true), 22) == Ok("22 саати")
  {
    assert EntryOf(Macedonian, Hour, true) == Some(BySlavicClass(Numbered(" саат"), Numbered(" саати"), Numbered(" саати")));
    assert SlavicClassOf(Macedonian, 22) == Few;
    assert NatToDecimal(22) == "22";
    assert Render(Numbered(" саати"), 22) == "22 саати";
  }

  lemma MacedonianDays3()
    ensures Timeframe(Macedonian, Key(Day, true), 3) == Ok("3 дена")
  {
    assert EntryOf(Macedonian, Day, true) == Some(BySlavicClass(Numbered(" ден"), Numbered(" дена"), Numbered(" дена")));
    assert SlavicClassOf(Macedonian, 3) == Few;
    assert NatToDecimal(3) == "3";
    assert Render(Numbered(" дена"), 3) == "3 дена";
  }

  lemma MacedonianYears5()
    ensures Timeframe(Macedonian, Key(Year, true), 5) == Ok("5 години")
  {
    assert EntryOf(Macedonian, Year, true) == Some(BySlavicClass(Numbered(" година"), Numbered(" години"), Numbered(" години")));
    assert SlavicClassOf(Macedonian, 5) == Many;
    assert NatToDecimal(5) == "5";
    assert Render(Numbered(" години"), 5) == "5 години";
  }

  lemma MacedonianWeeks1()
    ensures Timeframe(Macedonian, Key(Week, true), 1) == Ok("1 недела")
  {
    assert EntryOf(Macedonian, Week, true) == Some(BySlavicClass(Numbered(" недела"), Numbered(" недели"), Numbered(" недели")));
    assert SlavicClassOf(Macedonian, 1) == One;
    assert NatToDecimal(1) == "1";
    assert Render(Numbered(" недела"), 1) == "1 недела";
  }

  lemma MacedonianHours1()
    ensures Timeframe(Macedonian, Key(Hour, true), 1) == Ok("1 саат")
  {
    assert EntryOf(Macedonian, Hour, true) == Some(BySlavicClass(Numbered(" саат"), Numbered(" саати"), Numbered(" саати")));
    assert SlavicClassOf(Macedonian, 1) == One;
    assert NatToDecimal(1) == "1";
    assert Render(Numbered(" саат"), 1) == "1 саат";
  }

  lemma MacedonianMinutes6()
    ensures Timeframe(Macedonian, Key(Minute, true), 6) == Ok("6 минути")
  {
    assert EntryOf(Macedonian, Minute, true) == Some(BySlavicClass(Numbered(" минута"), Numbered(" минути"), Numbered(" минути")));
    assert SlavicClassOf(Macedonian, 6) == Many;
    assert NatToDecimal(6) == "6";
    assert Render(Numbered(" минути"), 6) == "6 минути";
  }

  lemma MacedonianDays0()
    ensures Timeframe(Macedonian, Key(Day, true), 0) == Ok("0 дена")
  {
    assert EntryOf(Macedonian, Day, true) == Some(BySlavicClass(Numbered(" ден"), Numbered(" дена"), Numbered(" дена")));
    assert SlavicClassOf(Macedonian, 0) == Many;
    assert NatToDecimal(0) == "0";
    assert Render(Numbered(" дена"), 0) == "0 дена";
  }

  lemma IcelandicDaysPast2()
    ensures Timeframe(Icelandic, Key(Day, true), -2) == Ok("2 dögum")
  {
    assert EntryOf(Icelandic, Day, true) == Some(BySign(Numbered(" dögum"), Numbered(" daga")));
    assert NatToDecimal(2) == "2";
    assert Render(Numbered(" dögum"), 2) == "2 dögum";
  }

  lemma IcelandicDays2()
    ensures Timeframe(Icelandic, Key(Day, true), 2) == Ok("2 daga")
  {
    assert EntryOf(Icelandic, Day, true) == Some(BySign(Numbered(" dögum"), Numbered(" daga")));
    assert NatToDecimal(2) == "2";
    assert Render(Numbered(" daga"), 2) == "2 daga";
  }

  lemma ArabicMinutes3()
    ensures Timeframe(Arabic, Key(Minute, true), 3) == Ok("3 دقائق")
  {
    assert EntryOf(Arabic, Minute, true) == Some(ByCount(Word("دقيقتين"), Numbered(" دقائق"), Numbered(" دقيقة")));
    assert CountClassOf(Arabic, 3) == UpToTen;
    assert NatToDecimal(3) == "3";
    assert Render(Numbered(" دقائق"), 3) == "3 دقائق";
  }

  lemma ArabicMinutes11()
    ensures Timeframe(Arabic, Key(Minute, true), 11) == Ok("11 دقيقة")
  {
    assert EntryOf(Arabic, Minute, true) == Some(ByCount(Word("دقيقتين"), Numbered(" دقائق"), Numbered(" دقيقة")));
    assert CountClassOf(Arabic, 11) == Higher;
    assert NatToDecimal(11) == "11";
    assert Render(Numbered(" دقيقة"), 11) == "11 دقيقة";
  }

  lemma ArabicYears115()
    ensures Timeframe(Arabic, Key(Year, true), 115) == Ok("115 سنة")
  {
    assert EntryOf(Arabic, Year, true) == Some(ByCount(Word("سنتين"), Numbered(" سنوات"), Numbered(" سنة")));
    assert CountClassOf(Arabic, 115) == Higher;
    assert NatToDecimal(115) == "115";
    assert Render(Numbered(" سنة"), 115) == "115 سنة";
  }

  lemma HebrewDays3()
    ensures Timeframe(Hebrew, Key(Day, true), 3) == Ok("3 ימים")
  {
    assert EntryOf(Hebrew, Day, true) == Some(ByCount(Word("יומיים"), Numbered(" ימים"), Numbered(" יום")));
    assert CountClassOf(Hebrew, 3) == UpToTen;
    assert NatToDecimal(3) == "3";
    assert Render(Numbered(" ימים"), 3) == "3 ימים";
  }

  lemma HebrewDays80()
    ensures Timeframe(Hebrew, Key(Day, true), 80) == Ok("80 יום")
  {
    assert EntryOf(Hebrew, Day, true) == Some(ByCount(Word("יומיים"), Numbered(" ימים"), Numbered(" יום")));
    assert CountClassOf(Hebrew, 80) == Higher;
    assert NatToDecimal(80) == "80";
    assert Render(Numbered(" יום"), 80) == "80 יום";
  }

  lemma HebrewYears15()
    ensures Timeframe(Hebrew, Key(Year, true), 15) == Ok("15 שנה")
  {
    assert EntryOf(Hebrew, Year, true) == Some(ByCount(Word("שנתיים"), Numbered(" שנים"), Numbered(" שנה")));
    assert CountClassOf(Hebrew, 15) == Higher;
    assert NatToDecimal(15) == "15";
    assert Render(Numbered(" שנה"), 15) == "15 שנה";
  }

  lemma HebrewYears5()
    ensures Timeframe(Hebrew, Key(Year, true), 5) == Ok("5 שנים")
  {
    assert EntryOf(Hebrew, Year, true) == Some(ByCount(Word("שנתיים"), Numbered(" שנים"), Numbered(" שנה")));
    assert CountClassOf(Hebrew, 5) == UpToTen;
    assert NatToDecimal(5) == "5";
    assert Render(Numbered(" שנים"), 5) == "5 שנים";
  }

  lemma HebrewMinutes6()
    ensures Timeframe(Hebrew, Key(Minute, true), 6) == Ok("6 דקות")
  {
    assert EntryOf(Hebrew, Minute, true) == Some(Plain(Numbered(" דקות")));
    assert NatToDecimal(6) == "6";
    assert Render(Numbered(" דקות"), 6) == "6 דקות";
  }

  lemma KoreanMonths2()
    ensures Timeframe(Korean, Key(Month, true), 2) == Ok("2개월")
  {
    assert EntryOf(Korean, Month, true) == Some(Plain(Numbered("개월")));
    assert NatToDecimal(2) == "2";
    assert Render(Numbered("개월"), 2) == "2개월";
  }

  lemma TagalogYears5()
    ensures Timeframe(Tagalog, Key(Year, true), 5) == Ok("5 taon")
  {
    assert EntryOf(Tagalog, Year, true) == Some(Plain(Numbered(" taon")));
    assert NatToDecimal(5) == "5";
    assert Render(Numbered(" taon"), 5) == "5 taon";
  }

  lemma TagalogWeeks1()
    ensures Timeframe(Tagalog, Key(Week, true), 1) == Ok("1 linggo")
  {
    assert EntryOf(Tagalog, Week, true) == Some(Plain(Numbered(" linggo")));
    assert NatToDecimal(1) == "1";
    assert Render(Numbered(" linggo"), 1) == "1 linggo";
  }

  lemma TagalogHours1()
    ensures Timeframe(Tagalog, Key(Hour, true), 1) == Ok("1 oras")
  {
    assert EntryOf(Tagalog, Hour, true) == Some(Plain(Numbered(" oras")));
    assert NatToDecimal(1) == "1";
    assert Render(Numbered(" oras"), 1) == "1 oras";
  }

  lemma TagalogMinutes6()
    ensures Timeframe(Tagalog, Key(Minute, true), 6) == Ok("6 minuto")
  {
    assert EntryOf(Tagalog, Minute, true) == Some(Plain(Numbered(" minuto")));
    assert NatToDecimal(6) == "6";
    assert Render(Numbered(" minuto"), 6) == "6 minuto";
  }
}
