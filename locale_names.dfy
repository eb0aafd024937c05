/**
 * Locale identifiers: the normalisation lookups apply (lower case, "_" read
 * as "-"), Python's str.islower, and the identifier pattern
 * ^[a-z]{2}(-[a-z]{2})?(?:-latn|-cyrl)?$ every built-in name must match.
 */
module LocaleNames {
  import opened Locales

  predicate IsUpperLetter(c: char) { 'A' <= c <= 'Z' }
  predicate IsLowerLetter(c: char) { 'a' <= c <= 'z' }

  function LowerChar(c: char): (d: char)
    ensures !IsUpperLetter(d)
  {
    if IsUpperLetter(c) then (c as int + 32) as char else c
  }

  /** The per-character effect of name.lower().replace("_", "-"). */
  function FoldChar(c: char): (d: char)
    ensures !IsUpperLetter(d) && d != '_'
  {
    if c == '_' then '-' else LowerChar(c)
  }

  /** name.lower().replace("_", "-"), for ASCII letters. */
  function Normalize(s: string): (r: string)
    ensures |r| == |s|
    ensures forall i :: 0 <= i < |s| ==> r[i] == FoldChar(s[i])
  {
    seq(|s|, i requires 0 <= i < |s| => FoldChar(s[i]))
  }

  /** A normalised name has no upper-case letter and no underscore. */
  predicate IsNormal(s: string) {
    forall i :: 0 <= i < |s| ==> !IsUpperLetter(s[i]) && s[i] != '_'
  }

  /** Two spellings of one identifier: equal up to letter case and "_" against "-". */
  predicate SameIdentifier(s: string, t: string) {
    |s| == |t| && forall i :: 0 <= i < |s| ==> FoldChar(s[i]) == FoldChar(t[i])
  }

  /**
   * Normalising is idempotent, fixes exactly the normal strings, and identifies
   * two names exactly when they differ only in case and separator.
   */
  lemma NormalizeProperties(s: string, t: string)
    ensures IsNormal(Normalize(s))
    ensures Normalize(Normalize(s)) == Normalize(s)
    ensures Normalize(s) == s <==> IsNormal(s)
    ensures Normalize(s) == Normalize(t) <==> SameIdentifier(s, t)
  {
    if Normalize(s) == Normalize(t) {
      assert forall i :: 0 <= i < |s| ==> FoldChar(s[i]) == Normalize(t)[i];
    }
    if IsNormal(s) {
      assert forall i :: 0 <= i < |s| ==> FoldChar(s[i]) == s[i];
    }
  }

  /** Python's str.islower on ASCII: some lower-case letter and no upper-case one. */
  predicate IsLower(s: string) {
    (exists i :: 0 <= i < |s| && IsLowerLetter(s[i])) && forall i :: 0 <= i < |s| ==> !IsUpperLetter(s[i])
  }

  /** "xx" or "xx-yy", lower-case letters only. */
  predicate NameBody(s: string) {
    && (|s| == 2 || |s| == 5)
    && IsLowerLetter(s[0]) && IsLowerLetter(s[1])
    && (|s| == 5 ==> s[2] == '-' && IsLowerLetter(s[3]) && IsLowerLetter(s[4]))
  }

  /** The pattern without its end anchor: a body, optionally followed by "-latn" or "-cyrl". */
  predicate NameCore(s: string) {
    NameBody(s) || (|s| >= 5 && NameBody(s[..|s| - 5]) && (s[|s| - 5..] == "-latn" || s[|s| - 5..] == "-cyrl"))
  }

  /** re.match with the pattern: Python's "$" also matches before one final newline. */
  predicate MatchesIdentifier(s: string) {
    NameCore(s) || (|s| > 0 && s[|s| - 1] == '\n' && NameCore(s[..|s| - 1]))
  }

  lemma BodyIsNormal(b: string)
    requires NameBody(b)
    ensures IsNormal(b)
  {
  }

  lemma CoreIsNormal(core: string)
    requires NameCore(core)
    ensures IsNormal(core)
  {
    if !NameBody(core) {
      var body := core[..|core| - 5];
      var tail := core[|core| - 5..];
      BodyIsNormal(body);
      assert IsNormal(tail);
      assert core == body + tail;
    }
  }

  /** A matching identifier is lower case and already normal: lookups find it as written. */
  lemma IdentifierIsLowerAndNormal(s: string)
    requires MatchesIdentifier(s)
    ensures IsLower(s) && IsNormal(s) && Normalize(s) == s
  {
    if NameCore(s) {
      CoreIsNormal(s);
    } else {
      var core := s[..|s| - 1];
      CoreIsNormal(core);
      assert s == core + ['\n'];
    }
    assert IsLowerLetter(s[0]);
    NormalizeProperties(s, s);
  }

  /** Every name a built-in locale declares passes the identifier check. */
  lemma BuiltinNamesMatch(lang: Lang)
    ensures forall name :: name in Names(lang) ==> MatchesIdentifier(name) && IsLower(name)
  {
    forall name | name in Names(lang)
      ensures MatchesIdentifier(name) && IsLower(name)
    {
      assert NameBody(name);
      IdentifierIsLowerAndNormal(name);
    }
  }
}
