/**
 * The vocabulary every locale shares: the closed set of timeframe keys, the
 * table entries a locale stores per key, and the past/future wrappers.
 */
module Timeframes {
  import opened Decimal

  datatype Unit = Second | Minute | Hour | Day | Week | Month | Quarter | Year

  /**
   * "now", or a unit in its singular ("hour") or plural ("hours") spelling.
   * The spelling is part of the request, independent of the magnitude.
   */
  datatype TimeframeKey = Now | Key(unit: Unit, plural: bool)

  /** A word form: a fixed phrase, or a phrase that shows the magnitude ("{0} hours"). */
  datatype Form = Word(text: string) | Counted(before: string, after: string)

  /** Fills the magnitude into a form, as str.format on "{0}". */
  function Render(f: Form, n: nat): string {
    match f
    case Word(text) => text
    case Counted(before, after) => before + NatToDecimal(n) + after
  }

  /** A form whose rendering starts with the magnitude, then a non-digit. */
  predicate LeadsWithNumeral(f: Form) {
    f.Counted? && f.before == [] && (f.after == [] || !IsDigit(f.after[0]))
  }

  /** A counted form that leads with its numeral shows exactly the magnitude. */
  lemma RenderShowsMagnitude(f: Form, n: nat)
    requires LeadsWithNumeral(f)
    ensures NumeralOf(Render(f, n)) == n
  {
    assert Render(f, n) == NatToDecimal(n) + f.after;
    NumeralShown(n, f.after);
  }

  /** A directional template: "in {0}" is Wrapper("in ", ""), "{0} ago" is Wrapper("", " ago"). */
  datatype Wrapper = Wrapper(before: string, after: string)

  function Apply(w: Wrapper, phrase: string): string {
    w.before + phrase + w.after
  }

  /** The inverse of Apply on strings that carry the wrapper. */
  function Strip(w: Wrapper, s: string): (phrase: string)
    requires |w.before| + |w.after| <= |s|
  {
    s[|w.before|..|s| - |w.after|]
  }

  /** Wrapping adds the template's text on both sides and loses nothing of the phrase. */
  lemma StripApply(w: Wrapper, phrase: string)
    ensures |Apply(w, phrase)| == |w.before| + |phrase| + |w.after|
    ensures Strip(w, Apply(w, phrase)) == phrase
  {
    var s := Apply(w, phrase);
    assert s[|w.before|..|s| - |w.after|] == phrase;
  }

  /** The sign of a delta chooses the direction; magnitudes are unsigned. */
  function Abs(d: int): nat {
    if d < 0 then -d else d
  }
}
