/**
 * The locale rule objects: for each modelled language its names, its word
 * table per timeframe key, its past/future templates, and the one shared
 * engine (Timeframe) that picks a form by the language's numeral rule.
 */
module Locales {
  import opened Wrappers
  import opened Decimal
  import opened Timeframes
  import opened PluralRules

  /** The representative locales: one per rule shape the tests pin down. */
  datatype Lang =
    | English | Russian | Polish | Bulgarian | Macedonian | Czech | Slovak
    | Icelandic | Arabic | Hebrew | Korean | Tagalog

  /** The names a locale class declares; the registry binds each of them. */
  function Names(lang: Lang): (names: seq<string>)
    ensures |names| > 0
  {
    match lang
    case English => ["en", "en-us", "en-gb", "en-au", "en-be", "en-jp", "en-za", "en-ca", "en-ph"]
    case Russian => ["ru", "ru-ru"]
    case Polish => ["pl", "pl-pl"]
    case Bulgarian => ["bg", "bg-bg"]
    case Macedonian => ["mk", "mk-mk"]
    case Czech => ["cs", "cs-cz"]
    case Slovak => ["sk", "sk-sk"]
    case Icelandic => ["is", "is-is"]
    case Arabic => ["ar", "ar-ae", "ar-eg"]
    case Hebrew => ["he", "he-il"]
    case Korean => ["ko", "ko-kr"]
    case Tagalog => ["tl", "tl-ph"]
  }

  /** The name of the locale's class, for lookup by class name. */
  function ClassName(lang: Lang): string {
    match lang
    case English => "EnglishLocale"
    case Russian => "RussianLocale"
    case Polish => "PolishLocale"
    case Bulgarian => "BulgarianLocale"
    case Macedonian => "MacedonianLocale"
    case Czech => "CzechLocale"
    case Slovak => "SlovakLocale"
    case Icelandic => "IcelandicLocale"
    case Arabic => "ArabicLocale"
    case Hebrew => "HebrewLocale"
    case Korean => "KoreanLocale"
    case Tagalog => "TagalogLocale"
  }

  const AllLangs: seq<Lang> :=
    [English, Russian, Polish, Bulgarian, Macedonian, Czech, Slovak, Icelandic, Arabic, Hebrew, Korean, Tagalog]

  /** How a locale stores one timeframe key, and so which rule selects its form. */
  datatype Entry =
    | Plain(form: Form)                                                // one form for every delta
    | BySlavicClass(one: Form, few: Form, many: Form)                  // class of abs(delta)
    | BySign(past: Form, future: Form)                                 // case chosen by the sign
    | ByCase(zero: Form, past: Form, futureFew: Form, futureMany: Form) // Czech/Slovak plurals
    | ByCount(dual: Form, upToTen: Form, higher: Form)                 // Arabic/Hebrew plurals

  /** Why _format_timeframe fails: the ValueError on a zero magnitude, or a key the table lacks. */
  datatype TimeframeError = InvalidMagnitude(delta: int) | MissingTimeframe(key: TimeframeKey)

  /** "{0}" followed by the given text. */
  function Numbered(after: string): Form {
    Counted("", after)
  }

  function NowPhrase(lang: Lang): string {
    match lang
    case English => "just now"
    case Russian => "сейчас"
    case Polish => "teraz"
    case Bulgarian => "сега"
    case Macedonian => "сега"
    case Czech => "Teď"
    case Slovak => "Teraz"
    case Icelandic => "rétt í þessu"
    case Arabic => "الآن"
    case Hebrew => "הרגע"
    case Korean => "지금"
    case Tagalog => "ngayon"
  }

  /** The template wrapped around a phrase for a negative delta. */
  function PastWrapper(lang: Lang): Wrapper {
    match lang
    case English => Wrapper("", " ago")
    case Russian => Wrapper("", " назад")
    case Polish => Wrapper("", " temu")
    case Bulgarian => Wrapper("", " назад")
    case Macedonian => Wrapper("пред ", "")
    case Czech => Wrapper("Před ", "")
    case Slovak => Wrapper("Pred ", "")
    case Icelandic => Wrapper("fyrir ", " síðan")
    case Arabic => Wrapper("منذ ", "")
    case Hebrew => Wrapper("לפני ", "")
    case Korean => Wrapper("", " 전")
    case Tagalog => Wrapper("nakaraang ", "")
  }

  /** The template wrapped around a phrase for a positive delta. */
  function FutureWrapper(lang: Lang): Wrapper {
    match lang
    case English => Wrapper("in ", "")
    case Russian => Wrapper("через ", "")
    case Polish => Wrapper("za ", "")
    case Bulgarian => Wrapper("напред ", "")
    case Macedonian => Wrapper("за ", "")
    case Czech => Wrapper("Za ", "")
    case Slovak => Wrapper("O ", "")
    case Icelandic => Wrapper("eftir ", "")
    case Arabic => Wrapper("خلال ", "")
    case Hebrew => Wrapper("בעוד ", "")
    case Korean => Wrapper("", " 후")
    case Tagalog => Wrapper("", " mula ngayon")
  }

  /** A form whose rendering shows the magnitude, or starts with no digit at all. */
  predicate ShowsMagnitudeOrNoNumeral(f: Form) {
    LeadsWithNumeral(f) || (f.Word? && (f.text == [] || !IsDigit(f.text[0])))
  }

  /** An entry whose choice depends on the magnitude only, never on the sign. */
  predicate SignBlind(e: Entry) {
    !e.BySign? && !e.ByCase?
  }

  /** Every form of the entry is of that kind. */
  predicate EntryShowsMagnitude(e: Entry) {
    match e
    case Plain(f) => ShowsMagnitudeOrNoNumeral(f)
    case BySlavicClass(one, few, many) =>
      ShowsMagnitudeOrNoNumeral(one) && ShowsMagnitudeOrNoNumeral(few) && ShowsMagnitudeOrNoNumeral(many)
    case BySign(past, future) => ShowsMagnitudeOrNoNumeral(past) && ShowsMagnitudeOrNoNumeral(future)
    case ByCase(zero, past, futureFew, futureMany) =>
      ShowsMagnitudeOrNoNumeral(zero) && ShowsMagnitudeOrNoNumeral(past)
      && ShowsMagnitudeOrNoNumeral(futureFew) && ShowsMagnitudeOrNoNumeral(futureMany)
    case ByCount(dual, upToTen, higher) =>
      ShowsMagnitudeOrNoNumeral(dual) && ShowsMagnitudeOrNoNumeral(upToTen) && ShowsMagnitudeOrNoNumeral(higher)
  }

  /** The table entry of a locale for a unit in its singular or plural spelling. */
  function EntryOf(lang: Lang, u: Unit, plural: bool): (e: Option<Entry>)
    ensures e.None? <==> u == Quarter && lang !in {English, Russian}
    ensures plural && e.Some? ==> EntryShowsMagnitude(e.value)
    ensures e.Some? && lang !in {Czech, Slovak, Icelandic} ==> SignBlind(e.value)
  {
    match lang
    case English => Some(EnglishEntry(u, plural))
    case Russian => Some(RussianEntry(u, plural))
    case Polish => PolishEntry(u, plural)
    case Bulgarian => BulgarianEntry(u, plural)
    case Macedonian => MacedonianEntry(u, plural)
    case Czech => CzechEntry(u, plural)
    case Slovak => SlovakEntry(u, plural)
    case Icelandic => IcelandicEntry(u, plural)
    case Arabic => ArabicEntry(u, plural)
    case Hebrew => HebrewEntry(u, plural)
    case Korean => KoreanEntry(u, plural)
    case Tagalog => TagalogEntry(u, plural)
  }

  function EnglishEntry(u: Unit, plural: bool): (e: Entry)
    ensures plural ==> EntryShowsMagnitude(e)
    ensures SignBlind(e)
  {
    match u
    case Second => if plural then Plain(Numbered(" seconds")) else Plain(Word("a second"))
    case Minute => if plural then Plain(Numbered(" minutes")) else Plain(Word("a minute"))
    case Hour => if plural then Plain(Numbered(" hours")) else Plain(Word("an hour"))
    case Day => if plural then Plain(Numbered(" days")) else Plain(Word("a day"))
    case Week => if plural then Plain(Numbered(" weeks")) else Plain(Word("a week"))
    case Month => if plural then Plain(Numbered(" months")) else Plain(Word("a month"))
    case Quarter => if plural then Plain(Numbered(" quarters")) else Plain(Word("a quarter"))
    case Year => if plural then Plain(Numbered(" years")) else Plain(Word("a year"))
  }

  function RussianEntry(u: Unit, plural: bool): (e: Entry)
    ensures plural ==> EntryShowsMagnitude(e)
    ensures SignBlind(e)
  {
    match u
    case Second =>
      if plural then BySlavicClass(Numbered(" секунду"), Numbered(" секунды"), Numbered(" секунд"))
      else Plain(Word("секунда"))
    case Minute =>
      if plural then BySlavicClass(Numbered(" минуту"), Numbered(" минуты"), Numbered(" минут"))
      else Plain(Word("минуту"))
    case Hour =>
      if plural then BySlavicClass(Numbered(" час"), Numbered(" часа"), Numbered(" часов"))
      else Plain(Word("час"))
    case Day =>
      if plural then BySlavicClass(Numbered(" день"), Numbered(" дня"), Numbered(" дней"))
      else Plain(Word("день"))
    case Week =>
      if plural then BySlavicClass(Numbered(" неделю"), Numbered(" недели"), Numbered(" недель"))
      else Plain(Word("неделю"))
    case Month =>
      if plural then BySlavicClass(Numbered(" месяц"), Numbered(" месяца"), Numbered(" месяцев"))
      else Plain(Word("месяц"))
    case Quarter =>
      if plural then BySlavicClass(Numbered(" квартал"), Numbered(" квартала"), Numbered(" кварталов"))
      else Plain(Word("квартал"))
    case Year =>
      if plural then BySlavicClass(Numbered(" год"), Numbered(" года"), Numbered(" лет"))
      else Plain(Word("год"))
  }

  function PolishEntry(u: Unit, plural: bool): (e: Option<Entry>)
    ensures e.None? <==> u == Quarter
    ensures plural && e.Some? ==> EntryShowsMagnitude(e.value)
    ensures e.Some? ==> SignBlind(e.value)
  {
    match u
    case Second =>
      Some(if plural then BySlavicClass(Numbered(" sekundę"), Numbered(" sekundy"), Numbered(" sekund"))
           else Plain(Word("sekundę")))
    case Minute =>
      Some(if plural then BySlavicClass(Numbered(" minutę"), Numbered(" minuty"), Numbered(" minut"))
           else Plain(Word("minutę")))
    case Hour =>
      Some(if plural then BySlavicClass(Numbered(" godzinę"), Numbered(" godziny"), Numbered(" godzin"))
           else Plain(Word("godzinę")))
    case Day =>
      Some(if plural then BySlavicClass(Numbered(" dzień"), Numbered(" dni"), Numbered(" dni"))
           else Plain(Word("dzień")))
    case Week =>
      Some(if plural then BySlavicClass(Numbered(" tydzień"), Numbered(" tygodnie"), Numbered(" tygodni"))
           else Plain(Word("tydzień")))
    case Month =>
      Some(if plural then BySlavicClass(Numbered(" miesiąc"), Numbered(" miesiące"), Numbered(" miesięcy"))
           else Plain(Word("miesiąc")))
    case Quarter => None
    case Year =>
      Some(if plural then BySlavicClass(Numbered(" rok"), Numbered(" lata"), Numbered(" lat"))
           else Plain(Word("rok")))
  }

  function BulgarianEntry(u: Unit, plural: bool): (e: Option<Entry>)
    ensures e.None? <==> u == Quarter
    ensures plural && e.Some? ==> EntryShowsMagnitude(e.value)
    ensures e.Some? ==> SignBlind(e.value)
  {
    match u
    case Second =>
      Some(if plural then BySlavicClass(Numbered(" секунда"), Numbered(" секунди"), Numbered(" секунди"))
           else Plain(Word("секунда")))
    case Minute =>
      Some(if plural then BySlavicClass(Numbered(" минута"), Numbered(" минути"), Numbered(" минути"))
           else Plain(Word("минута")))
    case Hour =>
      Some(if plural then BySlavicClass(Numbered(" час"), Numbered(" часа"), Numbered(" часа"))
           else Plain(Word("час")))
    case Day =>
      Some(if plural then BySlavicClass(Numbered(" ден"), Numbered(" дни"), Numbered(" дни"))
           else Plain(Word("ден")))
    case Week =>
      Some(if plural then BySlavicClass(Numbered(" седмица"), Numbered(" седмици"), Numbered(" седмици"))
           else Plain(Word("седмица")))
    case Month =>
      Some(if plural then BySlavicClass(Numbered(" месец"), Numbered(" месеца"), Numbered(" месеца"))
           else Plain(Word("месец")))
    case Quarter => None
    case Year =>
      Some(if plural then BySlavicClass(Numbered(" година"), Numbered(" години"), Numbered(" години"))
           else Plain(Word("година")))
  }

  function MacedonianEntry(u: Unit, plural: bool): (e: Option<Entry>)
    ensures e.None? <==> u == Quarter
    ensures plural && e.Some? ==> EntryShowsMagnitude(e.value)
    ensures e.Some? ==> SignBlind(e.value)
  {
    match u
    case Second =>
      Some(if plural then BySlavicClass(Numbered(" секунда"), Numbered(" секунди"), Numbered(" секунди"))
           else Plain(Word("една секунда")))
    case Minute =>
      Some(if plural then BySlavicClass(Numbered(" минута"), Numbered(" минути"), Numbered(" минути"))
           else Plain(Word("една минута")))
    case Hour =>
      Some(if plural then BySlavicClass(Numbered(" саат"), Numbered(" саати"), Numbered(" саати"))
           else Plain(Word("еден саат")))
    case Day =>
      Some(if plural then BySlavicClass(Numbered(" ден"), Numbered(" дена"), Numbered(" дена"))
           else Plain(Word("еден ден")))
    case Week =>
      Some(if plural then BySlavicClass(Numbered(" недела"), Numbered(" недели"), Numbered(" недели"))
           else Plain(Word("една недела")))
    case Month =>
      Some(if plural then BySlavicClass(Numbered(" месец"), Numbered(" месеци"), Numbered(" месеци"))
           else Plain(Word("еден месец")))
    case Quarter => None
    case Year =>
      Some(if plural then BySlavicClass(Numbered(" година"), Numbered(" години"), Numbered(" години"))
           else Plain(Word("една година")))
  }

  function CzechEntry(u: Unit, plural: bool): (e: Option<Entry>)
    ensures e.None? <==> u == Quarter
    ensures plural && e.Some? ==> EntryShowsMagnitude(e.value)
  {
    match u
    case Second =>
      Some(if plural then ByCase(Word("vteřina"), Numbered(" sekundami"), Numbered(" sekundy"), Numbered(" sekund"))
           else BySign(Word("vteřina"), Word("vteřina")))
    case Minute =>
      Some(if plural then ByCase(Numbered(" minut"), Numbered(" minutami"), Numbered(" minuty"), Numbered(" minut"))
           else BySign(Word("minutou"), Word("minutu")))
    case Hour =>
      Some(if plural then ByCase(Numbered(" hodin"), Numbered(" hodinami"), Numbered(" hodiny"), Numbered(" hodin"))
           else BySign(Word("hodinou"), Word("hodinu")))
    case Day =>
      Some(if plural then ByCase(Numbered(" dnů"), Numbered(" dny"), Numbered(" dny"), Numbered(" dnů"))
           else BySign(Word("dnem"), Word("den")))
    case Week =>
      Some(if plural then ByCase(Numbered(" týdnů"), Numbered(" týdny"), Numbered(" týdny"), Numbered(" týdnů"))
           else BySign(Word("týdnem"), Word("týden")))
    case Month =>
      Some(if plural then ByCase(Numbered(" měsíců"), Numbered(" měsíci"), Numbered(" měsíce"), Numbered(" měsíců"))
           else BySign(Word("měsícem"), Word("měsíc")))
    case Quarter => None
    case Year =>
      Some(if plural then ByCase(Numbered(" let"), Numbered(" lety"), Numbered(" roky"), Numbered(" let"))
           else BySign(Word("rokem"), Word("rok")))
  }

  function SlovakEntry(u: Unit, plural: bool): (e: Option<Entry>)
    ensures e.None? <==> u == Quarter
    ensures plural && e.Some? ==> EntryShowsMagnitude(e.value)
  {
    match u
    case Second =>
      Some(if plural then ByCase(Numbered(" sekúnd"), Numbered(" sekundami"), Numbered(" sekundy"), Numbered(" sekúnd"))
           else BySign(Word("sekundou"), Word("sekundu")))
    case Minute =>
      Some(if plural then ByCase(Numbered(" minút"), Numbered(" minútami"), Numbered(" minúty"), Numbered(" minút"))
           else BySign(Word("minútou"), Word("minútu")))
    case Hour =>
      Some(if plural then ByCase(Numbered(" hodín"), Numbered(" hodinami"), Numbered(" hodiny"), Numbered(" hodín"))
           else BySign(Word("hodinou"), Word("hodinu")))
    case Day =>
      Some(if plural then ByCase(Numbered(" dní"), Numbered(" dňami"), Numbered(" dni"), Numbered(" dní"))
           else BySign(Word("dňom"), Word("deň")))
    case Week =>
      Some(if plural then ByCase(Numbered(" týždňov"), Numbered(" týždňami"), Numbered(" týždne"), Numbered(" týždňov"))
           else BySign(Word("týždňom"), Word("týždeň")))
    case Month =>
      Some(if plural then ByCase(Numbered(" mesiacov"), Numbered(" mesiacmi"), Numbered(" mesiace"), Numbered(" mesiacov"))
           else BySign(Word("mesiacom"), Word("mesiac")))
    case Quarter => None
    case Year =>
      Some(if plural then ByCase(Numbered(" rokov"), Numbered(" rokmi"), Numbered(" roky"), Numbered(" rokov"))
           else BySign(Word("rokom"), Word("rok")))
  }

  /** Icelandic: the dative for the past, the accusative for the future. */
  function IcelandicEntry(u: Unit, plural: bool): (e: Option<Entry>)
    ensures e.None? <==> u == Quarter
    ensures plural && e.Some? ==> EntryShowsMagnitude(e.value)
  {
    match u
    case Second =>
      Some(if plural then BySign(Numbered(" sekúndum"), Numbered(" sekúndur"))
           else BySign(Word("sekúndu"), Word("sekúndu")))
    case Minute =>
      Some(if plural then BySign(Numbered(" mínútum"), Numbered(" mínútur"))
           else BySign(Word("einni mínútu"), Word("eina mínútu")))
    case Hour =>
      Some(if plural then BySign(Numbered(" tímum"), Numbered(" tíma"))
           else BySign(Word("einum tíma"), Word("einn tíma")))
    case Day =>
      Some(if plural then BySign(Numbered(" dögum"), Numbered(" daga"))
           else BySign(Word("einum degi"), Word("einn dag")))
    case Week =>
      Some(if plural then BySign(Numbered(" vikum"), Numbered(" vikur"))
           else BySign(Word("viku"), Word("viku")))
    case Month =>
      Some(if plural then BySign(Numbered(" mánuðum"), Numbered(" mánuði"))
           else BySign(Word("einum mánuði"), Word("einn mánuð")))
    case Quarter => None
    case Year =>
      Some(if plural then BySign(Numbered(" árum"), Numbered(" ár"))
           else BySign(Word("einu ári"), Word("eitt ár")))
  }

  /** Arabic: dual word for 2, the plural noun for 3..10, the singular noun above. */
  function ArabicEntry(u: Unit, plural: bool): (e: Option<Entry>)
    ensures e.None? <==> u == Quarter
    ensures plural && e.Some? ==> EntryShowsMagnitude(e.value)
    ensures e.Some? ==> SignBlind(e.value)
  {
    match u
    case Second =>
      Some(if plural then ByCount(Word("ثانيتين"), Numbered(" ثوان"), Numbered(" ثانية"))
           else Plain(Word("ثانية")))
    case Minute =>
      Some(if plural then ByCount(Word("دقيقتين"), Numbered(" دقائق"), Numbered(" دقيقة"))
           else Plain(Word("دقيقة")))
    case Hour =>
      Some(if plural then ByCount(Word("ساعتين"), Numbered(" ساعات"), Numbered(" ساعة"))
           else Plain(Word("ساعة")))
    case Day =>
      Some(if plural then ByCount(Word("يومين"), Numbered(" أيام"), Numbered(" يوم"))
           else Plain(Word("يوم")))
    case Week =>
      Some(if plural then ByCount(Word("اسبوعين"), Numbered(" أسابيع"), Numbered(" اسبوع"))
           else Plain(Word("اسبوع")))
    case Month =>
      Some(if plural then ByCount(Word("شهرين"), Numbered(" أشهر"), Numbered(" شهر"))
           else Plain(Word("شهر")))
    case Quarter => None
    case Year =>
      Some(if plural then ByCount(Word("سنتين"), Numbered(" سنوات"), Numbered(" سنة"))
           else Plain(Word("سنة")))
  }

  /** Hebrew: dual words for 2 hours, days, weeks, months and years; seconds and minutes are plain. */
  function HebrewEntry(u: Unit, plural: bool): (e: Option<Entry>)
    ensures e.None? <==> u == Quarter
    ensures plural && e.Some? ==> EntryShowsMagnitude(e.value)
    ensures e.Some? ==> SignBlind(e.value)
  {
    match u
    case Second => Some(if plural then Plain(Numbered(" שניות")) else Plain(Word("שנייה")))
    case Minute => Some(if plural then Plain(Numbered(" דקות")) else Plain(Word("דקה")))
    case Hour =>
      Some(if plural then ByCount(Word("שעתיים"), Numbered(" שעות"), Numbered(" שעות"))
           else Plain(Word("שעה")))
    case Day =>
      Some(if plural then ByCount(Word("יומיים"), Numbered(" ימים"), Numbered(" יום"))
           else Plain(Word("יום")))
    case Week =>
      Some(if plural then ByCount(Word("שבועיים"), Numbered(" שבועות"), Numbered(" שבועות"))
           else Plain(Word("שבוע")))
    case Month =>
      Some(if plural then ByCount(Word("חודשיים"), Numbered(" חודשים"), Numbered(" חודשים"))
           else Plain(Word("חודש")))
    case Quarter => None
    case Year =>
      Some(if plural then ByCount(Word("שנתיים"), Numbered(" שנים"), Numbered(" שנה"))
           else Plain(Word("שנה")))
  }

  function KoreanEntry(u: Unit, plural: bool): (e: Option<Entry>)
    ensures e.None? <==> u == Quarter
    ensures plural && e.Some? ==> EntryShowsMagnitude(e.value)
    ensures e.Some? ==> SignBlind(e.value)
  {
    match u
    case Second => Some(if plural then Plain(Numbered("초")) else Plain(Word("1초")))
    case Minute => Some(if plural then Plain(Numbered("분")) else Plain(Word("1분")))
    case Hour => Some(if plural then Plain(Numbered("시간")) else Plain(Word("한시간")))
    case Day => Some(if plural then Plain(Numbered("일")) else Plain(Word("하루")))
    case Week => Some(if plural then Plain(Numbered("주")) else Plain(Word("1주")))
    case Month => Some(if plural then Plain(Numbered("개월")) else Plain(Word("한달")))
    case Quarter => None
    case Year => Some(if plural then Plain(Numbered("년")) else Plain(Word("1년")))
  }

  function TagalogEntry(u: Unit, plural: bool): (e: Option<Entry>)
    ensures e.None? <==> u == Quarter
    ensures plural && e.Some? ==> EntryShowsMagnitude(e.value)
    ensures e.Some? ==> SignBlind(e.value)
  {
    match u
    case Second => Some(if plural then Plain(Numbered(" segundo")) else Plain(Word("isang segundo")))
    case Minute => Some(if plural then Plain(Numbered(" minuto")) else Plain(Word("isang minuto")))
    case Hour => Some(if plural then Plain(Numbered(" oras")) else Plain(Word("isang oras")))
    case Day => Some(if plural then Plain(Numbered(" araw")) else Plain(Word("isang araw")))
    case Week => Some(if plural then Plain(Numbered(" linggo")) else Plain(Word("isang linggo")))
    case Month => Some(if plural then Plain(Numbered(" buwan")) else Plain(Word("isang buwan")))
    case Quarter => None
    case Year => Some(if plural then Plain(Numbered(" taon")) else Plain(Word("isang taon")))
  }

  /** Which Slavic rule a locale counts with. */
  function SlavicClassOf(lang: Lang, n: nat): SlavicClass {
    if lang == Polish then PolishClass(n) else EastSlavicClass(n)
  }

  /** Which dual/plural rule a locale counts with. */
  function CountClassOf(lang: Lang, n: nat): CountClass {
    if lang == Hebrew then HebrewClass(n) else ArabicClass(n)
  }

  /** Icelandic has no phrasing for a zero magnitude and raises ValueError. */
  predicate ZeroIsInvalid(lang: Lang) {
    lang == Icelandic
  }

  /** The form an entry selects for a delta, by the locale's rule. */
  function Select(lang: Lang, e: Entry, delta: int): Result<string, TimeframeError> {
    var n := Abs(delta);
    match e
    case Plain(f) => Ok(Render(f, n))
    case BySlavicClass(one, few, many) =>
      var c := SlavicClassOf(lang, n);
      Ok(Render(if c == One then one else if c == Few then few else many, n))
    case BySign(past, future) =>
      if delta < 0 then Ok(Render(past, n))
      else if delta == 0 && ZeroIsInvalid(lang) then Err(InvalidMagnitude(delta))
      else Ok(Render(future, n))
    case ByCase(zero, past, futureFew, futureMany) =>
      var slot := WestSlavicSlot(delta);
      Ok(Render(match slot
                case Zero => zero
                case Past => past
                case FutureFew => futureFew
                case FutureMany => futureMany, n))
    case ByCount(dual, upToTen, higher) =>
      var c := CountClassOf(lang, n);
      Ok(Render(if c == Dual then dual else if c == UpToTen then upToTen else higher, n))
  }

  /** _format_timeframe(key, delta): the bare phrase for a key and a signed delta. */
  function Timeframe(lang: Lang, key: TimeframeKey, delta: int): Result<string, TimeframeError> {
    match key
    case Now => Ok(NowPhrase(lang))
    case Key(u, plural) =>
      match EntryOf(lang, u, plural)
      case None => Err(MissingTimeframe(key))
      case Some(e) => Select(lang, e, delta)
  }
}
