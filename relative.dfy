/**
 * The relative layer over _format_timeframe: the past/future template
 * (_format_relative), describe, and describe_multi, including the Korean
 * lexicalised day and year words and the Hebrew list conjunction.
 */
module Relative {
  import opened Wrappers
  import opened Decimal
  import opened Timeframes
  import opened Locales

  /** Korean words that replace "{0} 후"/"{0} 전" for small day and year offsets. */
  function KoreanSpecial(key: TimeframeKey, delta: int): (w: Option<string>)
    ensures w.Some? ==> key.Key? && key.unit in {Day, Year} && delta != 0 && |w.value| > 0
  {
    match key
    case Key(Day, _) =>
      if delta == -2 then Some("그제")
      else if delta == -1 then Some("어제")
      else if delta == 1 then Some("내일")
      else if delta == 2 then Some("모레")
      else if delta == 3 then Some("글피")
      else if delta == 4 then Some("그글피")
      else None
    case Key(Year, _) =>
      if delta == -2 then Some("재작년")
      else if delta == -1 then Some("작년")
      else if delta == 1 then Some("내년")
      else if delta == 2 then Some("내후년")
      else None
    case _ => None
  }

  /** The template the sign of delta selects: past below zero, future otherwise. */
  function DirectionWrapper(lang: Lang, delta: int): Wrapper {
    if delta < 0 then PastWrapper(lang) else FutureWrapper(lang)
  }

  /**
   * _format_relative(phrase, key, delta): "now" stays as it is; any other key
   * is wrapped in the past template for a negative delta and in the future
   * template otherwise. Korean first looks up its special day/year words.
   */
  function FormatRelative(lang: Lang, phrase: string, key: TimeframeKey, delta: int): string {
    if lang == Korean && KoreanSpecial(key, delta).Some? then KoreanSpecial(key, delta).value
    else if key == Now then phrase
    else Apply(DirectionWrapper(lang, delta), phrase)
  }

  /** A Korean special word takes the place of the phrase: it does not depend on it. */
  predicate IsKoreanSpecial(lang: Lang, key: TimeframeKey, delta: int) {
    lang == Korean && KoreanSpecial(key, delta).Some?
  }

  /**
   * Outside the Korean special words, the result is the phrase wrapped exactly
   * once in the template of delta's sign, and unwrapping gives the phrase back.
   */
  lemma RelativeUnwraps(lang: Lang, phrase: string, key: TimeframeKey, delta: int)
    requires key.Key? && !IsKoreanSpecial(lang, key, delta)
    ensures var w := if delta < 0 then PastWrapper(lang) else FutureWrapper(lang);
            var s := FormatRelative(lang, phrase, key, delta);
            && |s| == |w.before| + |phrase| + |w.after|
            && s[..|w.before|] == w.before
            && s[|s| - |w.after|..] == w.after
            && Strip(w, s) == phrase
  {
    var w := DirectionWrapper(lang, delta);
    var s := FormatRelative(lang, phrase, key, delta);
    StripApply(w, phrase);
    assert s == w.before + phrase + w.after;
    assert s[..|w.before|] == w.before;
    assert s[|s| - |w.after|..] == w.after;
  }

  /** Only the sign matters: two deltas of the same sign give the same relative phrase. */
  lemma RelativeDependsOnSign(lang: Lang, phrase: string, key: TimeframeKey, d1: int, d2: int)
    requires (d1 < 0) == (d2 < 0)
    requires !IsKoreanSpecial(lang, key, d1) && !IsKoreanSpecial(lang, key, d2)
    ensures FormatRelative(lang, phrase, key, d1) == FormatRelative(lang, phrase, key, d2)
  {
  }

  /** "now" is never wrapped, whatever the delta, in every locale. */
  lemma NowIsNeverWrapped(lang: Lang, phrase: string, delta: int)
    ensures FormatRelative(lang, phrase, Now, delta) == phrase
  {
  }

  /**
   * Korean: day offsets -2, -1 and 1..4 and year offsets -2, -1, 1, 2 are
   * single words independent of the phrase; every other offset is "{0} 후"
   * for the future and "{0} 전" for the past.
   */
  lemma KoreanRelative(phrase: string, key: TimeframeKey, delta: int)
    requires key.Key?
    ensures IsKoreanSpecial(Korean, key, delta)
            <==> (key.unit == Day && delta in {-2, -1, 1, 2, 3, 4}) || (key.unit == Year && delta in {-2, -1, 1, 2})
    ensures IsKoreanSpecial(Korean, key, delta) ==>
              forall other :: FormatRelative(Korean, other, key, delta) == FormatRelative(Korean, phrase, key, delta)
    ensures !IsKoreanSpecial(Korean, key, delta) ==>
              FormatRelative(Korean, phrase, key, delta) == phrase + (if delta < 0 then " 전" else " 후")
  {
  }

  /**
   * describe(key, delta, only_distance): the timeframe phrase, then the
   * relative template unless only the distance is asked for. English says
   * "instantly" for a bare "now".
   */
  function Describe(lang: Lang, key: TimeframeKey, delta: int, onlyDistance: bool): Result<string, TimeframeError> {
    var phrase :- Timeframe(lang, key, delta);
    if !onlyDistance then Ok(FormatRelative(lang, phrase, key, delta))
    else if lang == English && key == Now then Ok("instantly")
    else Ok(phrase)
  }

  /**
   * describe fails exactly when _format_timeframe does; with only_distance it is
   * the bare phrase (English "now" aside), otherwise that phrase made relative.
   */
  lemma DescribeComposes(lang: Lang, key: TimeframeKey, delta: int)
    ensures Describe(lang, key, delta, true).Ok? <==> Timeframe(lang, key, delta).Ok?
    ensures Describe(lang, key, delta, false).Ok? <==> Timeframe(lang, key, delta).Ok?
    ensures Timeframe(lang, key, delta).Ok? && !(lang == English && key == Now) ==>
              Describe(lang, key, delta, true).value == Timeframe(lang, key, delta).value
    ensures Timeframe(lang, key, delta).Ok? ==>
              Describe(lang, key, delta, false).value
                == FormatRelative(lang, Timeframe(lang, key, delta).value, key, delta)
  {
  }

  /** With only the distance, a unit is never wrapped: the result is the phrase itself. */
  lemma DescribeDistanceHasNoTemplate(lang: Lang, u: Unit, plural: bool, delta: int)
    requires Timeframe(lang, Key(u, plural), delta).Ok?
    ensures Describe(lang, Key(u, plural), delta, true) == Timeframe(lang, Key(u, plural), delta)
    ensures !IsKoreanSpecial(lang, Key(u, plural), delta) ==>
              Describe(lang, Key(u, plural), delta, false)
                == Ok(Apply(DirectionWrapper(lang, delta), Describe(lang, Key(u, plural), delta, true).value))
  {
  }

  /** str.join: the segments with the separator between neighbours. */
  function JoinWith(sep: string, segs: seq<string>): string
    decreases |segs|
  {
    if |segs| == 0 then ""
    else if |segs| == 1 then segs[0]
    else JoinWith(sep, segs[..|segs| - 1]) + sep + segs[|segs| - 1]
  }

  /** Joining two non-empty runs is joining each and putting one separator between them. */
  lemma {:induction false} JoinAppend(sep: string, a: seq<string>, b: seq<string>)
    requires |a| > 0 && |b| > 0
    ensures JoinWith(sep, a + b) == JoinWith(sep, a) + sep + JoinWith(sep, b)
    decreases |b|
  {
    if |b| == 1 {
      assert (a + b)[..|a + b| - 1] == a;
    } else {
      var b' := b[..|b| - 1];
      assert (a + b)[..|a + b| - 1] == a + b';
      JoinAppend(sep, a, b');
    }
  }

  /** The length of a join: every segment plus one separator per gap. */
  lemma {:induction false} JoinLength(sep: string, segs: seq<string>)
    requires |segs| > 0
    ensures |JoinWith(sep, segs)| == SumOfLengths(segs) + (|segs| - 1) * |sep|
    decreases |segs|
  {
    if |segs| > 1 {
      var init := segs[..|segs| - 1];
      JoinLength(sep, init);
      SumOfLengthsSnoc(init, segs[|segs| - 1]);
      assert init + [segs[|segs| - 1]] == segs;
      OneMoreGap(|init| - 1, |sep|);
    }
  }

  lemma OneMoreGap(gaps: int, width: int)
    ensures (gaps + 1) * width == gaps * width + width
  {
  }

  function SumOfLengths(segs: seq<string>): nat {
    if |segs| == 0 then 0 else |segs[0]| + SumOfLengths(segs[1..])
  }

  lemma {:induction false} SumOfLengthsSnoc(segs: seq<string>, s: string)
    ensures SumOfLengths(segs + [s]) == SumOfLengths(segs) + |s|
    decreases |segs|
  {
    if |segs| > 0 {
      assert (segs + [s])[1..] == segs[1..] + [s];
      SumOfLengthsSnoc(segs[1..], s);
    }
  }

  /** One (key, delta) pair of a describe_multi call. */
  datatype Span = Span(key: TimeframeKey, delta: int)

  /**
   * The phrases of the pairs, in order, or the error of the first pair that
   * _format_timeframe rejects (zero-magnitude pairs are kept, not skipped).
   */
  function Segments(lang: Lang, spans: seq<Span>): (r: Result<seq<string>, TimeframeError>)
    ensures r.Ok? ==> |r.value| == |spans|
    ensures r.Ok? ==> forall i :: 0 <= i < |spans| ==> Timeframe(lang, spans[i].key, spans[i].delta) == Ok(r.value[i])
    ensures r.Ok? <==> forall i :: 0 <= i < |spans| ==> Timeframe(lang, spans[i].key, spans[i].delta).Ok?
    ensures r.Err? ==> exists i :: 0 <= i < |spans| && (forall j :: 0 <= j < i ==> Timeframe(lang, spans[j].key, spans[j].delta).Ok?)
                                   && Timeframe(lang, spans[i].key, spans[i].delta) == Err(r.error)
    decreases |spans|
  {
    if |spans| == 0 then Ok([])
    else
      var first :- Timeframe(lang, spans[0].key, spans[0].delta);
      var rest :- Segments(lang, spans[1..]);
      assert forall i :: 1 <= i < |spans| ==> spans[i] == spans[1..][i - 1];
      Ok([first] + rest)
  }

  /** The sign the whole call is wrapped with: the first non-zero delta, or 0 when there is none. */
  function LeadingDelta(spans: seq<Span>): (d: int)
    ensures d == 0 <==> forall i :: 0 <= i < |spans| ==> spans[i].delta == 0
    ensures d != 0 ==> exists i :: 0 <= i < |spans| && spans[i].delta == d
                                   && forall j :: 0 <= j < i ==> spans[j].delta == 0
    decreases |spans|
  {
    if |spans| == 0 then 0
    else if spans[0].delta != 0 then spans[0].delta
    else
      var d := LeadingDelta(spans[1..]);
      assert forall i :: 1 <= i < |spans| ==> spans[i] == spans[1..][i - 1];
      if d != 0 then
        ghost var i :| 0 <= i < |spans[1..]| && spans[1..][i].delta == d
                       && forall j :: 0 <= j < i ==> spans[1..][j].delta == 0;
        assert spans[i + 1].delta == d;
        d
      else d
  }

  /** The Hebrew conjunction "and", written before the last item of a list. */
  const HebrewAnd: string := "ו"

  /** The maqaf that joins the conjunction to a following numeral ("ו־6"). */
  function Maqaf(segment: string): string {
    if |segment| > 0 && IsDigit(segment[0]) then "־" else ""
  }

  /**
   * Hebrew describe_multi's loop, item by item: the first item as it is, the
   * last one after " ו" (and a maqaf before a numeral), every other one after ", ".
   */
  function HebrewFold(segs: seq<string>, i: nat): string
    requires i <= |segs|
  {
    if i == 0 then ""
    else
      var acc := HebrewFold(segs, i - 1);
      var item := segs[i - 1];
      if i == 1 then item
      else if i == |segs| then acc + " " + HebrewAnd + Maqaf(item) + item
      else acc + ", " + item
  }

  function HebrewJoin(segs: seq<string>): string {
    HebrewFold(segs, |segs|)
  }

  /** Before the last item the loop has built the plain comma-separated list. */
  lemma {:induction false} HebrewFoldIsCommaJoin(segs: seq<string>, i: nat)
    requires 1 <= i < |segs|
    ensures HebrewFold(segs, i) == JoinWith(", ", segs[..i])
  {
    if i > 1 {
      HebrewFoldIsCommaJoin(segs, i - 1);
      assert segs[..i][..i - 1] == segs[..i - 1];
    }
  }

  /**
   * The Hebrew list: the items but the last joined with ", ", then " ו", a
   * maqaf when the last item starts with a digit, and the last item.
   */
  lemma HebrewJoinShape(segs: seq<string>)
    requires |segs| >= 2
    ensures HebrewJoin(segs)
            == JoinWith(", ", segs[..|segs| - 1]) + " " + HebrewAnd + Maqaf(segs[|segs| - 1]) + segs[|segs| - 1]
  {
    HebrewFoldIsCommaJoin(segs, |segs| - 1);
  }

  /** The list joiner of a locale: Hebrew's conjunction, a plain space for the others. */
  function JoinSegments(lang: Lang, segs: seq<string>): string {
    if lang == Hebrew then HebrewJoin(segs) else JoinWith(" ", segs)
  }

  /**
   * describe_multi(pairs, only_distance): every pair formatted, joined by the
   * locale's joiner, and the whole wrapped once by the sign of the first
   * non-zero delta (read as the "seconds" key) unless only the distance is asked for.
   */
  function DescribeMulti(lang: Lang, spans: seq<Span>, onlyDistance: bool): Result<string, TimeframeError> {
    var segs :- Segments(lang, spans);
    var joined := JoinSegments(lang, segs);
    if onlyDistance then Ok(joined)
    else Ok(FormatRelative(lang, joined, Key(Second, true), LeadingDelta(spans)))
  }

  /**
   * The wrap is applied exactly once, to the whole joined string: the wrapped
   * result is the distance-only result inside the template of the leading sign.
   */
  lemma MultiWrapsOnce(lang: Lang, spans: seq<Span>)
    ensures DescribeMulti(lang, spans, true).Ok? <==> DescribeMulti(lang, spans, false).Ok?
    ensures DescribeMulti(lang, spans, true).Ok? ==>
              DescribeMulti(lang, spans, false).value
                == Apply(DirectionWrapper(lang, LeadingDelta(spans)), DescribeMulti(lang, spans, true).value)
  {
  }

  /** A call fails exactly when one of its pairs does (the Icelandic zero, a missing quarter). */
  lemma MultiFailsWithItsPairs(lang: Lang, spans: seq<Span>, onlyDistance: bool)
    ensures DescribeMulti(lang, spans, onlyDistance).Err?
            <==> exists i :: 0 <= i < |spans| && Timeframe(lang, spans[i].key, spans[i].delta).Err?
  {
  }

  /** For the space-joining locales, one pair more is one space and one phrase more. */
  lemma MultiSpaceJoin(lang: Lang, spans: seq<Span>, last: Span)
    requires lang != Hebrew && |spans| > 0
    requires DescribeMulti(lang, spans + [last], true).Ok?
    ensures DescribeMulti(lang, spans, true).Ok?
    ensures DescribeMulti(lang, spans + [last], true).value
            == DescribeMulti(lang, spans, true).value + " " + Timeframe(lang, last.key, last.delta).value
  {
    var all := Segments(lang, spans + [last]).value;
    assert forall i :: 0 <= i < |spans| ==> (spans + [last])[i] == spans[i];
    var segs := Segments(lang, spans).value;
    assert all == segs + [all[|spans|]] by {
      assert forall i :: 0 <= i < |spans| ==> all[i] == segs[i];
    }
    assert (spans + [last])[|spans|] == last;
    assert all[..|all| - 1] == segs;
  }

  /**
   * describe_multi is determined by the phrases of its pairs: given them, the
   * result is their join, wrapped by the leading sign unless only the distance is asked for.
   */
  lemma MultiFromPhrases(lang: Lang, spans: seq<Span>, segs: seq<string>, onlyDistance: bool)
    requires |segs| == |spans|
    requires forall i :: 0 <= i < |spans| ==> Timeframe(lang, spans[i].key, spans[i].delta) == Ok(segs[i])
    ensures DescribeMulti(lang, spans, onlyDistance)
            == Ok(if onlyDistance then JoinSegments(lang, segs)
                  else FormatRelative(lang, JoinSegments(lang, segs), Key(Second, true), LeadingDelta(spans)))
  {
    var r := Segments(lang, spans);
    assert r.Ok?;
    assert r.value == segs;
  }

  /** A single pair agrees with describe on that pair, up to the "seconds" key of the wrap. */
  lemma MultiOfOne(lang: Lang, span: Span, onlyDistance: bool)
    requires span.key.Key? && !IsKoreanSpecial(lang, span.key, span.delta)
    ensures DescribeMulti(lang, [span], onlyDistance) == Describe(lang, span.key, span.delta, onlyDistance)
  {
    if Segments(lang, [span]).Ok? {
      assert HebrewJoin(Segments(lang, [span]).value) == Segments(lang, [span]).value[0];
    }
  }
}
