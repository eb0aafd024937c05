/**
 * What _format_timeframe promises, per rule shape: the Slavic classes stated
 * on the written number, the sign-dependent cases, the Icelandic zero error,
 * the Arabic/Hebrew dual, and the numeral a plural phrase shows.
 */
module TimeframeProperties {
  import opened Wrappers
  import opened Decimal
  import opened Timeframes
  import opened PluralRules
  import opened Locales

  /** A form of that kind that renders with a leading digit renders the magnitude itself. */
  lemma FormNumeral(f: Form, n: nat)
    requires ShowsMagnitudeOrNoNumeral(f)
    ensures Render(f, n) != [] && IsDigit(Render(f, n)[0]) ==> NumeralOf(Render(f, n)) == n
  {
    if f.Counted? {
      RenderShowsMagnitude(f, n);
    }
  }

  /**
   * A plural phrase that starts with a numeral shows abs(delta): the same
   * number for delta and -delta, in every locale.
   */
  lemma PluralNumeralIsMagnitude(lang: Lang, u: Unit, delta: int)
    ensures Timeframe(lang, Key(u, true), delta).Ok? && Timeframe(lang, Key(u, true), delta).value != []
            && IsDigit(Timeframe(lang, Key(u, true), delta).value[0])
            ==> NumeralOf(Timeframe(lang, Key(u, true), delta).value) == Abs(delta)
  {
    var e := EntryOf(lang, u, true);
    if e.Some? {
      SelectNumeral(lang, e.value, delta);
    }
  }

  /** Select keeps that property: whatever form it picks, a leading numeral is abs(delta). */
  lemma SelectNumeral(lang: Lang, e: Entry, delta: int)
    requires EntryShowsMagnitude(e)
    ensures Select(lang, e, delta).Ok? && Select(lang, e, delta).value != []
            && IsDigit(Select(lang, e, delta).value[0])
            ==> NumeralOf(Select(lang, e, delta).value) == Abs(delta)
  {
    var n := Abs(delta);
    match e
    case Plain(f) => FormNumeral(f, n);
    case BySlavicClass(one, few, many) =>
      var c := SlavicClassOf(lang, n);
      FormNumeral(if c == One then one else if c == Few then few else many, n);
    case BySign(past, future) =>
      FormNumeral(if delta < 0 then past else future, n);
    case ByCase(zero, past, futureFew, futureMany) =>
      var f := match WestSlavicSlot(delta)
               case Zero => zero
               case Past => past
               case FutureFew => futureFew
               case FutureMany => futureMany;
      FormNumeral(f, n);
    case ByCount(dual, upToTen, higher) =>
      var c := CountClassOf(lang, n);
      FormNumeral(if c == Dual then dual else if c == UpToTen then upToTen else higher, n);
  }

  /** Only Czech, Slovak and Icelandic look at the sign; everyone else gives delta and -delta the same phrase. */
  lemma SignInsensitive(lang: Lang, key: TimeframeKey, delta: int)
    requires lang !in {Czech, Slovak, Icelandic}
    ensures Timeframe(lang, key, delta) == Timeframe(lang, key, -delta)
  {
    if key.Key? && EntryOf(lang, key.unit, key.plural).Some? {
      SelectSignBlind(lang, EntryOf(lang, key.unit, key.plural).value, delta);
    }
  }

  /** An entry that does not look at the sign selects the same phrase for delta and -delta. */
  lemma SelectSignBlind(lang: Lang, e: Entry, delta: int)
    requires SignBlind(e)
    ensures Select(lang, e, delta) == Select(lang, e, -delta)
  {
    assert Abs(delta) == Abs(-delta);
  }

  /** English singular keys ignore the magnitude: _format_timeframe("hour", 0) is "an hour". */
  lemma EnglishSingularIgnoresMagnitude(u: Unit, d1: int, d2: int)
    ensures Timeframe(English, Key(u, false), d1) == Timeframe(English, Key(u, false), d2)
    ensures Timeframe(English, Key(u, false), d1).Ok?
    ensures forall i :: 0 <= i < |Timeframe(English, Key(u, false), d1).value| ==>
              !IsDigit(Timeframe(English, Key(u, false), d1).value[i])
  {
  }

  /** The form a Slavic entry picks, stated on the written number rather than on n % 10. */
  ghost function SpelledSlavicForm(one: Form, few: Form, many: Form, n: nat): Form {
    if SpelledOne(n) then one else if SpelledFew(n) then few else many
  }

  /**
   * Russian, Bulgarian and Macedonian plurals: "one" for numbers ending in 1
   * but not 11, "few" for endings 2-4 but not 12-14, "many" otherwise.
   */
  lemma {:induction false} EastSlavicTimeframe(lang: Lang, u: Unit, delta: int)
    requires lang in {Russian, Bulgarian, Macedonian}
    requires EntryOf(lang, u, true).Some?
    ensures EntryOf(lang, u, true).value.BySlavicClass?
    ensures var e := EntryOf(lang, u, true).value;
            Timeframe(lang, Key(u, true), delta) == Ok(Render(SpelledSlavicForm(e.one, e.few, e.many, Abs(delta)), Abs(delta)))
  {
    EastSlavicBySpelling(Abs(delta));
  }

  /** Bulgarian and Macedonian write "few" and "many" alike: only "ends in 1 but not 11" is distinguished. */
  lemma {:induction false} TwoFormTimeframe(lang: Lang, u: Unit, delta: int)
    requires lang in {Bulgarian, Macedonian}
    requires EntryOf(lang, u, true).Some?
    ensures EntryOf(lang, u, true).value.BySlavicClass?
    ensures var e := EntryOf(lang, u, true).value;
            Timeframe(lang, Key(u, true), delta) == Ok(Render(if SpelledOne(Abs(delta)) then e.one else e.many, Abs(delta)))
  {
    EastSlavicTimeframe(lang, u, delta);
  }

  /** Polish plurals: "one" only for 1 itself, so 21 takes the "many" form ("21 sekund"). */
  lemma {:induction false} PolishTimeframe(u: Unit, delta: int)
    requires u != Quarter
    ensures EntryOf(Polish, u, true).Some? && EntryOf(Polish, u, true).value.BySlavicClass?
    ensures var e := EntryOf(Polish, u, true).value;
            var n := Abs(delta);
            Timeframe(Polish, Key(u, true), delta)
              == Ok(Render(if n == 1 then e.one else if SpelledFew(n) then e.few else e.many, n))
  {
    var n := Abs(delta);
    EastSlavicBySpelling(n);
    PolishVersusEastSlavic(n);
  }

  /**
   * Czech and Slovak plurals: a negative delta takes the instrumental form
   * whatever its size; a positive one the "few" form for endings 2-4 (not
   * 12-14) and the "many" form otherwise; zero has its own form.
   */
  lemma {:induction false} WestSlavicTimeframe(lang: Lang, u: Unit, delta: int)
    requires lang in {Czech, Slovak} && u != Quarter
    ensures EntryOf(lang, u, true).Some? && EntryOf(lang, u, true).value.ByCase?
    ensures var e := EntryOf(lang, u, true).value;
            var n := Abs(delta);
            Timeframe(lang, Key(u, true), delta)
              == Ok(Render(if delta == 0 then e.zero
                           else if delta < 0 then e.past
                           else if SpelledFew(n) then e.futureFew
                           else e.futureMany, n))
  {
    WestSlavicBySign(delta);
  }

  /** Czech and Slovak singulars: the instrumental ("hodinou") for the past, the accusative ("hodinu") otherwise. */
  lemma WestSlavicSingular(lang: Lang, u: Unit, delta: int)
    requires lang in {Czech, Slovak} && u != Quarter
    ensures EntryOf(lang, u, false).Some? && EntryOf(lang, u, false).value.BySign?
    ensures var e := EntryOf(lang, u, false).value;
            Timeframe(lang, Key(u, false), delta) == Ok(Render(if delta < 0 then e.past else e.future, Abs(delta)))
  {
  }

  /**
   * Icelandic: the dative for a negative delta, the accusative for a positive
   * one, and ValueError for zero on every key but "now".
   */
  lemma IcelandicTimeframe(key: TimeframeKey, delta: int)
    ensures key.Key? && key.unit != Quarter ==>
              EntryOf(Icelandic, key.unit, key.plural).Some? && EntryOf(Icelandic, key.unit, key.plural).value.BySign?
    ensures key.Key? && key.unit != Quarter && delta != 0 ==>
              var e := EntryOf(Icelandic, key.unit, key.plural).value;
              Timeframe(Icelandic, key, delta) == Ok(Render(if delta < 0 then e.past else e.future, Abs(delta)))
    ensures Timeframe(Icelandic, key, delta).Err? <==> key.Key? && (delta == 0 || key.unit == Quarter)
  {
  }

  /** A zero magnitude is an error in Icelandic only, and there for every key but "now". */
  lemma ZeroRejectedOnlyByIcelandic(lang: Lang, key: TimeframeKey)
    ensures Timeframe(lang, key, 0).Err? && Timeframe(lang, key, 0).error.InvalidMagnitude?
            <==> lang == Icelandic && key.Key? && key.unit != Quarter
  {
  }

  /** A dual/plural entry with a fixed dual word and two numbered forms, as both Arabic and Hebrew store them. */
  predicate CountEntry(e: Entry) {
    && e.ByCount? && e.dual.Word?
    && e.upToTen.Counted? && e.upToTen.before == []
    && e.higher.Counted? && e.higher.before == []
  }

  /** How Select reads such an entry: the dual word alone, or the numeral followed by the chosen noun. */
  lemma CountSelect(lang: Lang, e: Entry, delta: int)
    requires CountEntry(e)
    ensures var n := Abs(delta);
            var c := CountClassOf(lang, n);
            Select(lang, e, delta)
              == Ok(if c == Dual then e.dual.text
                    else if c == UpToTen then NatToDecimal(n) + e.upToTen.after
                    else NatToDecimal(n) + e.higher.after)
  {
    var n := Abs(delta);
    assert Render(e.upToTen, n) == NatToDecimal(n) + e.upToTen.after;
    assert Render(e.higher, n) == NatToDecimal(n) + e.higher.after;
  }

  /**
   * Arabic plurals: 2 is a dual word with no numeral, 3..10 the numeral with
   * the plural noun, and 0, 1 and 11 upwards the numeral with the singular noun.
   */
  lemma ArabicTimeframe(u: Unit, delta: int)
    requires u != Quarter
    ensures EntryOf(Arabic, u, true).Some? && CountEntry(EntryOf(Arabic, u, true).value)
    ensures var e := EntryOf(Arabic, u, true).value;
            var n := Abs(delta);
            && (n == 2 ==> Timeframe(Arabic, Key(u, true), delta) == Ok(e.dual.text))
            && (3 <= n <= 10 ==> Timeframe(Arabic, Key(u, true), delta) == Ok(NatToDecimal(n) + e.upToTen.after))
            && (n < 2 || n > 10 ==> Timeframe(Arabic, Key(u, true), delta) == Ok(NatToDecimal(n) + e.higher.after))
  {
    CountSelect(Arabic, EntryOf(Arabic, u, true).value, delta);
  }

  /** The noun Arabic counts 11 upwards with is the singular phrase: "11 ساعة" against "ساعة". */
  lemma ArabicHigherIsSingular(u: Unit)
    requires u != Quarter
    ensures EntryOf(Arabic, u, true).Some? && EntryOf(Arabic, u, false).Some?
    ensures EntryOf(Arabic, u, true).value.ByCount? && EntryOf(Arabic, u, false).value.Plain?
    ensures EntryOf(Arabic, u, true).value.higher
            == Numbered(" " + Render(EntryOf(Arabic, u, false).value.form, 0))
  {
  }

  /** Hebrew: 2 hours, days, weeks, months and years are single dual words; zero counts like 3..10. */
  lemma HebrewTimeframe(u: Unit, delta: int)
    requires u in {Hour, Day, Week, Month, Year}
    ensures EntryOf(Hebrew, u, true).Some? && CountEntry(EntryOf(Hebrew, u, true).value)
    ensures var e := EntryOf(Hebrew, u, true).value;
            var n := Abs(delta);
            && (n == 2 ==> Timeframe(Hebrew, Key(u, true), delta) == Ok(e.dual.text))
            && (n == 0 || 3 <= n <= 10 ==> Timeframe(Hebrew, Key(u, true), delta) == Ok(NatToDecimal(n) + e.upToTen.after))
            && (n == 1 || n > 10 ==> Timeframe(Hebrew, Key(u, true), delta) == Ok(NatToDecimal(n) + e.higher.after))
  {
    CountSelect(Hebrew, EntryOf(Hebrew, u, true).value, delta);
  }
}
