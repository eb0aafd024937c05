# Locale rule engine of arrow, in Dafny

This project models the locale layer of the arrow date library, the `arrow.locales` module, as its test suite `tests/test_locales.py` pins it down. A locale is a rule object. It turns a timeframe key ("now", "hour", "hours", ...) and a signed delta into a phrase in its language. It wraps that phrase in a past or future template. It writes ordinal numbers and, for Thai and Lao, Buddhist-era years. It owns 1-indexed day and month tables. Every locale class registers its names in a module-wide map, and `get_locale` looks names up in it.

The model has the following parts.

- **Registry** (`registry.dfy`)
  - The module map is the field `entries: map<string, LocaleId>` of the class `LocaleRegistry`.
  - `Register` is a class definition. It fails with LookupError when one of its names is already bound, and otherwise inserts every name.
  - `Get` is `get_locale`. It normalises the name (lower case, `_` read as `-`) and fails with ValueError on a miss.
  - The built-in map is built by binding each modelled locale's names in turn.
  - `get_locale_by_class_name` searches the built-in classes.
- **Identifiers** (`locale_names.dfy`)
  - The normalisation.
  - Python's `str.islower`.
  - The pattern `^[a-z]{2}(-[a-z]{2})?(?:-latn|-cyrl)?$` that every declared name must match.
- **Calendar tables** (`calendar.dfy`)
  - The validation shape: 8 day slots and 13 month slots, each with an empty slot 0 and non-empty names after it.
  - The table lookups.
  - The meridian lookup, which has words for "a" and "A" only.
- **Timeframes** (`timeframes.dfy`, `plural_rules.dfy`, `locales.dfy`)
  - `_format_timeframe` is `Timeframe`. It looks up the locale's entry for the key, then lets the locale's numeral rule pick a form:
    - the East Slavic mod-10/mod-100 class (Russian, Bulgarian, Macedonian);
    - the Polish class, where only 1 itself is "one";
    - the Czech/Slovak slot, where the sign decides the case;
    - the Icelandic dative/accusative by sign, where zero is a ValueError;
    - the Arabic/Hebrew dual and 3..10 plural.
  - A counted form is rendered with the decimal numeral of `abs(delta)` (`decimal.dfy`).
- **Relative phrases** (`relative.dfy`)
  - `_format_relative`: "now" is never wrapped, a negative delta takes the past template, and any other delta takes the future template. Korean first replaces small day and year offsets with single words.
  - `describe`: the timeframe phrase, made relative unless only the distance is asked for.
  - `describe_multi`:
    1. formats every pair, zero-magnitude pairs included;
    2. joins the phrases, Hebrew with ", " and " ו" (plus a maqaf before a numeral), the other locales with spaces;
    3. wraps the whole string once.
- **Number helpers** (`number_helpers.dfy`)
  - English ordinal suffixes.
  - Korean native ordinals for 1..10.
  - The Bengali/Odia suffix tables.
  - Tamil and Tagalog ordinals.
  - The Buddhist-era `year_full` (year + 543, zero-padded to four digits) and `year_abbreviation` (year_full without its first two characters).
- **Test assertions as lemmas** (`timeframe_instances.dfy`, `assertions.dfy`): the concrete input/output pairs of the test suite are stated as lemmas about the model.

Locale coverage is limited to representative locales: English, Russian, Polish, Bulgarian, Macedonian, Czech, Slovak, Icelandic, Arabic, Hebrew, Korean and Tagalog. Bengali, Odia, Tamil, Thai and Lao appear through their number helpers. Words are opaque strings transcribed from the assertions.

Where the test suite is silent, the model makes these choices.

- **A zero delta is wrapped in the future template.** describe's default delta is 0, and `describe("second", only_distance=False)` is "за една секунда" (tests/test_locales.py:788; Tagalog 1687-1691). Only the "now" key stays unwrapped.
- **`describe_multi` picks its direction from the first non-zero delta, in every locale, Hebrew included.** A call whose deltas are all zero is wrapped as future. The direction is read through the "seconds" key, which matters only for Korean's special words (never used for that key). The tests never mix signs within one call (tests/test_locales.py:887-908, 1102-1120, 1831-1852), so they cannot tell this rule from wrapping by the last pair.
- **Icelandic rejects a zero magnitude on every unit key.** The tests pin only "years" (tests/test_locales.py:519-521).
- **Czech and Slovak singular keys take the accusative at delta 0.** No test calls a singular key at 0 in these locales.
- **Czech and Slovak positive plurals ending in 12-14 take the 5+ form, as in the other Slavic rules.** No Czech or Slovak test uses 12-14.

## Model

| member | source | states |
|---|---|---|
| Calendar.DayName | tests/test_locales.py:10-20 | day_name(day) for ISO weekdays 1..7 on a table that passes validation is the day-th name after the spacer, and it is non-empty |
| Calendar.DayAbbreviation | tests/test_locales.py:17-20 | day_abbreviation(day) for 1..7 is the day-th abbreviation after the spacer, and it is non-empty |
| Calendar.MonthName | tests/test_locales.py:22-25 | month_name(month) for 1..12 is the month-th name after the spacer, and it is non-empty |
| Calendar.MonthAbbreviation | tests/test_locales.py:27-30 | month_abbreviation(month) for 1..12 is the month-th abbreviation after the spacer, and it is non-empty |
| Calendar.EnglishCalendarWellFormed | tests/test_locales.py:10-33 | the English tables have 8 day and 13 month slots, an empty slot 0 and no empty name elsewhere |
| Calendar.EnglishCalendarNumbering | tests/test_locales.py:10-33 | the English tables are numbered the ISO way: day 1 is Monday and day 7 Sunday, month 1 January and month 12 December (names and abbreviations) |
| Calendar.MeridianShape | tests/test_locales.py:164-167 | only the tokens "a" and "A" yield a meridian (None, "B", "NONSENSE" yield None); the word names the half of the day the hour is in |
| Decimal.NatToDecimal | tests/test_locales.py:409-417 | the numeral a counted phrase shows is all digits, non-empty, ends in the last digit of n, and is one character exactly for n < 10 |
| Decimal.DecimalRoundTrip | tests/test_locales.py:409-417 | reading a rendered magnitude back gives the magnitude |
| Decimal.NoLeadingZero | tests/test_locales.py:409-417 | a rendered magnitude starts with 0 exactly when it is 0 |
| Decimal.NumeralShown | tests/test_locales.py:409-417 | a magnitude rendered in front of a non-digit is read back as that magnitude |
| Decimal.TwoDigits | tests/test_locales.py:1425-1426 | the two-character, zero-padded form of n < 100 reads back as n |
| Decimal.LastTwoCharacters | tests/test_locales.py:1425-1426 | the last two characters of the numeral of n >= 10 are the zero-padded n % 100 |
| LocaleNames.Normalize | tests/test_locales.py:63-71 | lookup normalisation keeps the length and folds every character: upper-case ASCII to lower case, "_" to "-" |
| LocaleNames.NormalizeProperties | tests/test_locales.py:63-71 | normalising is idempotent, leaves exactly the normal names unchanged, and identifies two names exactly when they differ only in letter case and "_" against "-" |
| LocaleNames.IdentifierIsLowerAndNormal | tests/test_locales.py:35-42 | a name that matches the identifier pattern is lower case (str.islower) and already normal |
| LocaleNames.BuiltinNamesMatch | tests/test_locales.py:35-42 | every name a built-in locale declares matches the identifier pattern and is lower case |
| Locales.Names | tests/test_locales.py:31 | every locale declares at least one name |
| Locales.EntryOf | tests/test_locales.py:246-260 | a locale has a table entry for every key except "quarter", which only English and Russian have; a plural entry always shows the magnitude in its counted forms; only Czech, Slovak and Icelandic entries look at the sign |
| Locales.EnglishEntry | tests/test_locales.py:114-116 | the English entries show the magnitude in plural forms and ignore the sign |
| Locales.RussianEntry | tests/test_locales.py:246-429 | the Russian entries show the magnitude in plural forms and ignore the sign |
| Locales.PolishEntry | tests/test_locales.py:431-480 | Polish has every key but "quarter"; plural forms show the magnitude; no entry looks at the sign |
| Locales.BulgarianEntry | tests/test_locales.py:747-768 | Bulgarian has every key but "quarter"; plural forms show the magnitude; no entry looks at the sign |
| Locales.MacedonianEntry | tests/test_locales.py:770-885 | Macedonian has every key but "quarter"; plural forms show the magnitude; no entry looks at the sign |
| Locales.CzechEntry | tests/test_locales.py:591-657 | Czech has every key but "quarter"; plural forms show the magnitude |
| Locales.SlovakEntry | tests/test_locales.py:673-731 | Slovak has every key but "quarter"; plural forms show the magnitude |
| Locales.IcelandicEntry | tests/test_locales.py:483-521 | Icelandic has every key but "quarter"; plural forms show the magnitude |
| Locales.ArabicEntry | tests/test_locales.py:1560-1592 | Arabic has every key but "quarter"; plural forms show the magnitude or no numeral at all (the dual); no entry looks at the sign |
| Locales.HebrewEntry | tests/test_locales.py:1055-1100 | Hebrew has every key but "quarter"; plural forms show the magnitude or no numeral (the dual); no entry looks at the sign |
| Locales.KoreanEntry | tests/test_locales.py:2522-2538 | Korean has every key but "quarter"; plural forms show the magnitude; no entry looks at the sign |
| Locales.TagalogEntry | tests/test_locales.py:1768-1829 | Tagalog has every key but "quarter"; plural forms show the magnitude; no entry looks at the sign |
| NumberHelpers.IntToDecimal | tests/test_locales.py:1854-1863 | str(n): the digits of n for n >= 0, a minus sign before the digits of -n otherwise |
| NumberHelpers.EnglishOrdinalBySpelling | tests/test_locales.py:133-162 | the ordinal is the number followed by "th" when its next-to-last digit is 1, else "st"/"nd"/"rd" for a last digit 1/2/3 and "th" for any other; the number in front reads back as n |
| NumberHelpers.SuffixByResidues | tests/test_locales.py:133-162 | the same suffix rule stated on n % 10 and n % 100 (11, 12, 13 modulo 100 take "th") |
| NumberHelpers.KoreanOrdinalShape | tests/test_locales.py:2580-2594 | every Korean ordinal ends in "번째"; 1..10 use a native word with no digit; 0 and 11 upwards show the number itself |
| NumberHelpers.KoreanOrdinalInjective | tests/test_locales.py:2580-2594 | different numbers have different Korean ordinals |
| NumberHelpers.IndicOrdinalShape | tests/test_locales.py:1512-1522 | an ordinal (Bengali, and Odia at lines 2659-2669) is empty exactly for a negative number, and otherwise is the numeral followed by the suffix of its class |
| NumberHelpers.IndicOrdinalShowsNumber | tests/test_locales.py:1512-1522 | the numeral in front of a Bengali or Odia ordinal reads back as the number |
| NumberHelpers.TamilOrdinalShape | tests/test_locales.py:2808-2813 | a Tamil ordinal is empty exactly for a negative number, and otherwise starts with the number |
| NumberHelpers.TagalogOrdinalShowsNumber | tests/test_locales.py:1854-1863 | a Tagalog ordinal is "ika-" followed by the number |
| NumberHelpers.PadFour | tests/test_locales.py:1479-1480 | "{:04d}" is all digits, four long or the numeral's length when that is longer |
| NumberHelpers.YearFullReadsBack | tests/test_locales.py:1479-1480 | year_full reads back as the year plus 543, and has four digits while that sum is below 10000 |
| NumberHelpers.YearAbbreviationIsLastTwoDigits | tests/test_locales.py:1482-1483 | year_abbreviation is the last two characters of year_full, the zero-padded (year + 543) % 100 |
| PluralRules.SpelledTeenIff | tests/test_locales.py:279-342 | the written number's next-to-last digit is 1 exactly when n % 100 is in 10..19 |
| PluralRules.EastSlavicBySpelling | tests/test_locales.py:279-342 | East Slavic class: "one" exactly for numbers ending in 1 but not 11, "few" exactly for endings 2-4 but not 12-14, "many" for all others, both directions |
| PluralRules.PolishVersusEastSlavic | tests/test_locales.py:431-480 | Polish agrees with the East Slavic rule except that numbers other than 1 ending in 1 (21, 31, ...) take "many" |
| PluralRules.WestSlavicBySign | tests/test_locales.py:592-657 | the Czech/Slovak slot is "zero" exactly for 0, the instrumental exactly for negatives, and for positives the "few" slot exactly for endings 2-4 not 12-14 |
| PluralRules.ArabicVersusHebrew | tests/test_locales.py:1107-1108 | the Arabic and Hebrew count classes differ only at zero, which Hebrew counts with 3..10 ("0 ימים") |
| Registry.Lookup | tests/test_locales.py:52-71 | get_locale succeeds exactly when the normalised name is bound, returns its class, and otherwise fails naming the normalised name |
| Registry.LookupIgnoresSpelling | tests/test_locales.py:63-71 | two spellings that differ only in case and "_" against "-" look up the same result |
| Registry.AdmitBinds | tests/test_locales.py:93-105 | a class definition that is accepted binds every one of its names, keeps every earlier entry, and adds no other key |
| Registry.AdmitRejects | tests/test_locales.py:44-48 | a definition is rejected, with LookupError, exactly when one of its normalised names is already bound or repeats an earlier name of its own list |
| Registry.Bind | tests/test_locales.py:89-90 | binding a built-in class binds all its names, keeps the other entries, and adds exactly the normalised names |
| Registry.BuiltinNamesDisjoint | tests/test_locales.py:44-48 | two built-in locales never declare names that collide after normalising, so defining them all raises no LookupError |
| Registry.BuildMapResolves | tests/test_locales.py:89-90 | after the built-in classes are defined in order, each of their names resolves to its own class |
| Registry.BuiltinLookup | tests/test_locales.py:89-90 | every name of a built-in locale resolves to that locale in the module's map |
| Registry.ByClassName | tests/test_locales.py:73-87 | get_locale_by_class_name succeeds exactly for the name of a built-in class and returns that class; any other name is a ValueError naming it |
| Registry.LocaleRegistry.constructor | tests/test_locales.py:89-90 | the registry starts as the map of the built-in classes, with normalised keys |
| Registry.LocaleRegistry.Register | tests/test_locales.py:93-105 | defining a class inserts its names when none is taken and reports success; otherwise it reports LookupError and leaves the map unchanged; keys stay normalised |
| Registry.LocaleRegistry.Get | tests/test_locales.py:52-71 | get_locale on the current map: the class bound to the normalised name, or ValueError |
| Registry.NormalKeys | tests/test_locales.py:63-71 | the keys of the built-in map are normalised |
| Registry.BuildMapKeysMatch | tests/test_locales.py:35-42 | every key of the built-in map matches the identifier pattern |
| Registry.DuplicatedLocaleName | tests/test_locales.py:44-48 | defining a class named "en-us" fails with LookupError on "en-us" |
| Registry.TakenName | tests/test_locales.py:44-48 | a definition whose first name is bound already fails on that name |
| Registry.CustomLocaleSubclass | tests/test_locales.py:93-105 | custom classes named "foo"/"foo-BAR" and "underscores_ok" are accepted and resolve by "foo", "foo-BAR", "foo_bar" and "underscores_ok"; "en-us" keeps its class |
| Registry.GetLocaleSpellings | tests/test_locales.py:52-71 | "locale-name" is unknown at first; once bound it resolves as "locale_name", "locale-name" and "locale-NAME" |
| Registry.ClassNameLookup | tests/test_locales.py:73-87 | a built-in class is found by its class name; "NonExistentLocale" is a ValueError |
| Relative.KoreanSpecial | tests/test_locales.py:2540-2578 | a Korean special word exists only for day and year keys and a non-zero delta, and is never empty |
| Relative.RelativeUnwraps | tests/test_locales.py:118-131 | outside the Korean special words, _format_relative wraps the phrase exactly once in the past template for a negative delta and in the future template otherwise, and unwrapping gives the phrase back |
| Relative.RelativeDependsOnSign | tests/test_locales.py:802-822 | two deltas of the same sign make the same relative phrase |
| Relative.NowIsNeverWrapped | tests/test_locales.py:118-121 | the "now" key is returned unwrapped in every locale, whatever the delta |
| Relative.KoreanRelative | tests/test_locales.py:2540-2578 | Korean: day offsets -2, -1, 1..4 and year offsets -2, -1, 1, 2 are single words that do not depend on the phrase; any other offset gives "{0} 후" or "{0} 전" |
| Relative.DescribeComposes | tests/test_locales.py:786-800 | describe fails exactly when _format_timeframe does; with only_distance it is the bare phrase (except English "now", which is "instantly"), otherwise that phrase made relative |
| Relative.DescribeDistanceHasNoTemplate | tests/test_locales.py:786-800 | with only_distance a unit phrase is never wrapped: the result is the timeframe phrase itself |
| Relative.JoinAppend | tests/test_locales.py:887-908 | joining two non-empty runs of segments is joining each, with one separator between |
| Relative.JoinLength | tests/test_locales.py:887-908 | a joined list is as long as its segments plus one separator per gap |
| Relative.Segments | tests/test_locales.py:887-908 | describe_multi's phrases: one per pair, in order, each the pair's _format_timeframe (zero-magnitude pairs kept); an error exactly when some pair fails |
| Relative.LeadingDelta | tests/test_locales.py:887-893 | the delta the whole call is wrapped by is 0 exactly when all deltas are 0, and otherwise the delta of one of the pairs |
| Relative.HebrewFoldIsCommaJoin | tests/test_locales.py:1102-1120 | before the last item the Hebrew loop has built the plain ", "-separated list |
| Relative.HebrewJoinShape | tests/test_locales.py:1102-1120 | the Hebrew list is the items but the last joined with ", ", then " ו", a maqaf when the last item starts with a digit, then the last item |
| Relative.MultiWrapsOnce | tests/test_locales.py:887-908 | describe_multi succeeds with or without only_distance alike, and the wrapped result is the distance-only result inside one template of the leading sign |
| Relative.MultiFailsWithItsPairs | tests/test_locales.py:887-908 | describe_multi fails exactly when one of its pairs fails in _format_timeframe |
| Relative.MultiSpaceJoin | tests/test_locales.py:1831-1852 | outside Hebrew one more pair adds one space and that pair's phrase |
| Relative.MultiFromPhrases | tests/test_locales.py:887-908 | given the phrases of its pairs, describe_multi is their join, wrapped by the leading sign unless only the distance is asked for |
| Relative.MultiOfOne | tests/test_locales.py:900-908 | describe_multi of one unit pair equals describe of that pair |
| TimeframeProperties.PluralNumeralIsMagnitude | tests/test_locales.py:279-342 | a plural phrase that starts with a numeral shows abs(delta), in every locale |
| TimeframeProperties.SignInsensitive | tests/test_locales.py:279-342 | outside Czech, Slovak and Icelandic, _format_timeframe gives delta and -delta the same result |
| TimeframeProperties.EnglishSingularIgnoresMagnitude | tests/test_locales.py:114-116 | English singular keys ignore the magnitude and show no digit ("hour" at 0 is "an hour") |
| TimeframeProperties.EastSlavicTimeframe | tests/test_locales.py:279-342 | Russian, Bulgarian and Macedonian plurals choose their form by the written number: ending in 1 not 11, in 2-4 not 12-14, or anything else |
| TimeframeProperties.TwoFormTimeframe | tests/test_locales.py:747-768 | Bulgarian and Macedonian write "few" and "many" alike, so only "ends in 1 but not 11" is distinguished |
| TimeframeProperties.PolishTimeframe | tests/test_locales.py:431-480 | Polish plurals take "one" only for 1 itself, so 21 takes the "many" form |
| TimeframeProperties.WestSlavicTimeframe | tests/test_locales.py:592-657 | Czech and Slovak plurals: instrumental for every negative delta, the 2-4 form or the 5+ form for a positive one, a zero form of its own |
| TimeframeProperties.WestSlavicSingular | tests/test_locales.py:614-616 | Czech and Slovak singulars: instrumental for a negative delta, accusative otherwise |
| TimeframeProperties.IcelandicTimeframe | tests/test_locales.py:484-521 | Icelandic: dative for a negative delta, accusative for a positive one, and ValueError exactly for zero on a unit key (or the missing "quarter") |
| TimeframeProperties.ZeroRejectedOnlyByIcelandic | tests/test_locales.py:519-521 | a zero magnitude fails with ValueError only in Icelandic; the model extends the pinned "years" case to every unit key |
| TimeframeProperties.CountSelect | tests/test_locales.py:1561-1592 | a dual/plural entry gives the dual word alone for 2, otherwise the numeral and the noun of the count class |
| TimeframeProperties.ArabicTimeframe | tests/test_locales.py:1561-1592 | Arabic plurals: 2 is a dual word with no numeral, 3..10 the numeral with the plural noun, 0, 1 and 11 upwards the numeral with the singular noun |
| TimeframeProperties.ArabicHigherIsSingular | tests/test_locales.py:1561-1592 | the noun Arabic counts 11 upwards with is the singular phrase |
| TimeframeProperties.HebrewTimeframe | tests/test_locales.py:1056-1100 | Hebrew: 2 hours, days, weeks, months and years are single dual words; zero counts like 3..10 |
| Timeframes.RenderShowsMagnitude | tests/test_locales.py:409-417 | a counted form that leads with its numeral shows exactly the magnitude |
| Timeframes.StripApply | tests/test_locales.py:118-131 | wrapping adds the template text on both sides and loses nothing: stripping gives the phrase back |
| LocaleAssertions.SmallNumerals | tests/test_locales.py:133-147 | str() of the small numbers the tests show |
| LocaleAssertions.HundredsNumerals | tests/test_locales.py:149-162 | str() of 100..124 as the ordinal tests show them |
| LocaleAssertions.EnglishPhrases | tests/test_locales.py:110-131 | English describe of "now" ("instantly", "just now"), "an hour", "2 hours" and the three relative phrases |
| LocaleAssertions.EnglishOrdinalsLow | tests/test_locales.py:133-147 | English ordinals 0th .. 24th as asserted |
| LocaleAssertions.EnglishOrdinalsHigh | tests/test_locales.py:149-162 | English ordinals 100th .. 124th as asserted |
| LocaleAssertions.EnglishMeridianInvalid | tests/test_locales.py:164-167 | None, "B" and "NONSENSE" give no English meridian |
| LocaleAssertions.TagalogMeridians | tests/test_locales.py:1681-1685 | Tagalog meridians: "ng umaga" at 7 and "ng hapon" at 18 for "A", "nu" at 10 and "nh" at 22 for "a" |
| LocaleAssertions.RussianRelative | tests/test_locales.py:247-277 | Russian "секунда", "квартал" and their "через"/"назад" relatives |
| LocaleAssertions.RussianPlurals | tests/test_locales.py:279-295 | Russian 21, 22, 25 seconds |
| LocaleAssertions.RussianZeroAndTwentyOne | tests/test_locales.py:409-425 | Russian 0 hours, 21 hours, 21 minutes |
| LocaleAssertions.PolishPlurals | tests/test_locales.py:432-460 | Polish "sekundę", 21 and 22 seconds, 5 weeks |
| LocaleAssertions.CzechPlurals | tests/test_locales.py:592-647 | Czech seconds at 0, -2, 5 and 2 months |
| LocaleAssertions.CzechSingulars | tests/test_locales.py:592-669 | Czech "Teď", "hodinou"/"hodinu", "0 let" and "Za hodinu"/"Před hodinou" |
| LocaleAssertions.SlovakTimeframes | tests/test_locales.py:674-735 | Slovak "Teraz", "sekundou", "deň", -5 and 0 seconds, 2 days |
| LocaleAssertions.BulgarianPlurals | tests/test_locales.py:748-766 | Bulgarian 5 and 21 hours, 21 minutes |
| LocaleAssertions.MacedonianPlurals | tests/test_locales.py:824-885 | Macedonian 21 and 22 hours, 3 days |
| LocaleAssertions.MacedonianPhrases | tests/test_locales.py:771-818 | Macedonian "еден саат", meridians at 7 and 22, describe of "week" with and without only_distance, "пред 1 саат" |
| LocaleAssertions.MacedonianMulti | tests/test_locales.py:887-893 | Macedonian describe_multi of the full list and of the list with zero days |
| LocaleAssertions.HebrewMulti | tests/test_locales.py:1102-1113 | Hebrew describe_multi of the full list and of "hour"+"minute" |
| LocaleAssertions.TagalogMulti | tests/test_locales.py:1831-1840 | Tagalog describe_multi of the full list, and of hours+minutes with only_distance |
| LocaleAssertions.IcelandicTimeframes | tests/test_locales.py:484-521 | Icelandic "now", minute by sign, 2 days by sign, and the error for 0 years |
| LocaleAssertions.ArabicTimeframes | tests/test_locales.py:1561-1592 | Arabic "hour", the dual for 2 minutes, 3 and 11 minutes, 115 years |
| LocaleAssertions.HebrewTimeframes | tests/test_locales.py:1056-1100 | Hebrew "now", the dual for 2 days, 3 and 80 days, 15 years |
| LocaleAssertions.KoreanPhrases | tests/test_locales.py:2523-2578 | Korean "한시간", "2개월" and the special and ordinary relative phrases |
| LocaleAssertions.KoreanOrdinalsNative | tests/test_locales.py:2580-2591 | Korean native ordinals of 1, 4, 10 |
| LocaleAssertions.KoreanOrdinalsNumeral | tests/test_locales.py:2580-2594 | Korean numeral ordinals of 0, 11, 100 |
| LocaleAssertions.IndicOrdinals | tests/test_locales.py:1512-1522 | Bengali ordinals of 0, 3, 6, -1 (and Odia 4, 10, -1 at lines 2663-2669) |
| LocaleAssertions.TamilOrdinals | tests/test_locales.py:2808-2813 | Tamil ordinals of 0, 1, 11, -1 |
| LocaleAssertions.TagalogOrdinals | tests/test_locales.py:1854-1863 | Tagalog ordinals of 0, 23, 114 |
| LocaleAssertions.BuddhistYear2015 | tests/test_locales.py:1479-1483 | year_full(2015) is "2558" and year_abbreviation is "58" |
| TimeframeInstances.EnglishHours2 | tests/test_locales.py:115 | English _format_timeframe("hours", 2) is "2 hours" |
| TimeframeInstances.RussianSeconds21 | tests/test_locales.py:286-288 | Russian _format_timeframe("seconds", 21) is "21 секунду" |
| TimeframeInstances.RussianSeconds22 | tests/test_locales.py:289-291 | Russian _format_timeframe("seconds", 22) is "22 секунды" |
| TimeframeInstances.RussianSeconds25 | tests/test_locales.py:292-294 | Russian _format_timeframe("seconds", 25) is "25 секунд" |
| TimeframeInstances.RussianHours0 | tests/test_locales.py:410 | Russian _format_timeframe("hours", 0) is "0 часов" |
| TimeframeInstances.RussianHours21 | tests/test_locales.py:415 | Russian _format_timeframe("hours", 21) is "21 час" |
| TimeframeInstances.RussianMinutes21 | tests/test_locales.py:425 | Russian _format_timeframe("minutes", 21) is "21 минуту" |
| TimeframeInstances.PolishSeconds21 | tests/test_locales.py:437 | Polish _format_timeframe("seconds", 21) is "21 sekund" |
| TimeframeInstances.PolishSeconds22 | tests/test_locales.py:438 | Polish _format_timeframe("seconds", 22) is "22 sekundy" |
| TimeframeInstances.PolishWeeks5 | tests/test_locales.py:460 | Polish _format_timeframe("weeks", 5) is "5 tygodni" |
| TimeframeInstances.CzechSecondsPast2 | tests/test_locales.py:600 | Czech _format_timeframe("seconds", -2) is "2 sekundami" |
| TimeframeInstances.CzechSeconds5 | tests/test_locales.py:603 | Czech _format_timeframe("seconds", 5) is "5 sekund" |
| TimeframeInstances.CzechMonths2 | tests/test_locales.py:647 | Czech _format_timeframe("months", 2) is "2 měsíce" |
| TimeframeInstances.CzechYears0 | tests/test_locales.py:653 | Czech _format_timeframe("years", 0) is "0 let" |
| TimeframeInstances.SlovakSecondsPast5 | tests/test_locales.py:675 | Slovak _format_timeframe("seconds", -5) is "5 sekundami" |
| TimeframeInstances.SlovakSeconds0 | tests/test_locales.py:678 | Slovak _format_timeframe("seconds", 0) is "0 sekúnd" |
| TimeframeInstances.SlovakDays2 | tests/test_locales.py:704 | Slovak _format_timeframe("days", 2) is "2 dni" |
| TimeframeInstances.BulgarianHours5 | tests/test_locales.py:753 | Bulgarian _format_timeframe("hours", 5) is "5 часа" |
| TimeframeInstances.BulgarianHours21 | tests/test_locales.py:754 | Bulgarian _format_timeframe("hours", 21) is "21 час" |
| TimeframeInstances.BulgarianMinutes21 | tests/test_locales.py:764 | Bulgarian _format_timeframe("minutes", 21) is "21 минута" |
| TimeframeInstances.MacedonianHours21 | tests/test_locales.py:851 | Macedonian _format_timeframe("hours", 21) is "21 саат" |
| TimeframeInstances.MacedonianHours22 | tests/test_locales.py:852 | Macedonian _format_timeframe("hours", 22) is "22 саати" |
| TimeframeInstances.MacedonianDays3 | tests/test_locales.py:859 | Macedonian _format_timeframe("days", 3) is "3 дена" |
| TimeframeInstances.MacedonianYears5 | tests/test_locales.py:885 | Macedonian _format_timeframe("years", 5) is "5 години" |
| TimeframeInstances.MacedonianWeeks1 | tests/test_locales.py:864 | Macedonian _format_timeframe("weeks", 1) is "1 недела" |
| TimeframeInstances.MacedonianHours1 | tests/test_locales.py:847 | Macedonian _format_timeframe("hours", 1) is "1 саат" |
| TimeframeInstances.MacedonianMinutes6 | tests/test_locales.py:888-889 | Macedonian _format_timeframe("minutes", 6) is "6 минути" |
| TimeframeInstances.MacedonianDays0 | tests/test_locales.py:856 | Macedonian _format_timeframe("days", 0) is "0 дена" |
| TimeframeInstances.IcelandicDaysPast2 | tests/test_locales.py:505 | Icelandic _format_timeframe("days", -2) is "2 dögum" |
| TimeframeInstances.IcelandicDays2 | tests/test_locales.py:506 | Icelandic _format_timeframe("days", 2) is "2 daga" |
| TimeframeInstances.ArabicMinutes3 | tests/test_locales.py:1579 | Arabic _format_timeframe("minutes", 3) is "3 دقائق" |
| TimeframeInstances.ArabicMinutes11 | tests/test_locales.py:1587 | Arabic _format_timeframe("minutes", 11) is "11 دقيقة" |
| TimeframeInstances.ArabicYears115 | tests/test_locales.py:1592 | Arabic _format_timeframe("years", 115) is "115 سنة" |
| TimeframeInstances.HebrewDays3 | tests/test_locales.py:1075 | Hebrew _format_timeframe("days", 3) is "3 ימים" |
| TimeframeInstances.HebrewDays80 | tests/test_locales.py:1076 | Hebrew _format_timeframe("days", 80) is "80 יום" |
| TimeframeInstances.HebrewYears15 | tests/test_locales.py:1100 | Hebrew _format_timeframe("years", 15) is "15 שנה" |
| TimeframeInstances.HebrewYears5 | tests/test_locales.py:1099 | Hebrew _format_timeframe("years", 5) is "5 שנים" |
| TimeframeInstances.HebrewMinutes6 | tests/test_locales.py:1105-1106 | Hebrew _format_timeframe("minutes", 6) is "6 דקות" |
| TimeframeInstances.KoreanMonths2 | tests/test_locales.py:2536 | Korean _format_timeframe("months", 2) is "2개월" |
| TimeframeInstances.TagalogYears5 | tests/test_locales.py:1829 | Tagalog _format_timeframe("years", 5) is "5 taon" |
| TimeframeInstances.TagalogWeeks1 | tests/test_locales.py:1808 | Tagalog _format_timeframe("weeks", 1) is "1 linggo" |
| TimeframeInstances.TagalogHours1 | tests/test_locales.py:1791 | Tagalog _format_timeframe("hours", 1) is "1 oras" |
| TimeframeInstances.TagalogMinutes6 | tests/test_locales.py:1834-1835 | Tagalog _format_timeframe("minutes", 6) is "6 minuto" |

## Left out

- Locales other than the twelve above, the day and month tables of every locale but English, and the meridian tables of every locale but English, Macedonian and Tagalog: they are data the tests pin only word by word; the rule shapes they follow are the ones modelled.
- Weekday and month lookups through `arrow.Arrow(...).isoweekday()`: date arithmetic belongs to the datetime library; `day_name` and `month_name` are plain 1-indexed table lookups here.
- The pytest and mocker machinery (`mocker.patch.dict` on the map, patching `globals`): the registry is modelled directly, and binding "locale-name" stands for the patched entry.
- Registry.ByClassName: only the built-in classes are searched; a custom class defined inside a test body is not in the module's globals, and reflection over subclasses is not modelled.
- Registry.LocaleRegistry.Register: a definition is all or nothing; whether Python leaves the names before a clash bound is not pinned by the tests.
- Thai and Lao `_format_relative` as a whole is not modelled. This leaves out its rule that drops the space after the future template for the "seconds" key ("ໃນວິນາທີ", "ในอีกไม่กี่วินาที"; tests/test_locales.py:1437-1438, 1494-1495). It also leaves out the cases that depend on Python `str.format` brace handling (tests/test_locales.py:1435-1436, 1492-1493, 1498-1499, 1502-1503).
- The Amharic ("hours", 7) assertion that expects the seconds word (tests/test_locales.py:3165) and the Sinhala relative calls keyed by a non-English unit string (tests/test_locales.py:2912-2919): fixture data not generalised.
- Case folding beyond ASCII letters: Normalize lowers "A".."Z" only, which covers every name the tests use.
- Float deltas and their truncation: deltas are integers.
- Negative numbers in the English and Korean ordinals: the tests use only non-negative ones, so these take a natural number.
- The "quarter" key outside English and Russian: those tables have no entry for it, and the model reports a missing timeframe where Python raises KeyError; the tests pin "quarter" for Russian only.
- Instantiating locale objects, caching and I/O: the model works on the locale rules directly.
