/**
 * The locale registry: the process-wide map from normalised names to locale
 * classes that class definition inserts into and get_locale reads, plus
 * get_locale_by_class_name over the built-in classes.
 */
module Registry {
  import opened Wrappers
  import opened Locales
  import opened LocaleNames

  /** A registered locale class: a built-in one, or one defined by the caller under its class name. */
  datatype LocaleId = Builtin(lang: Lang) | Custom(className: string)

  datatype RegistryError =
    | UnknownLocale(name: string)        // ValueError from get_locale / get_locale_by_class_name
    | DuplicateLocaleName(name: string)  // LookupError at class definition

  /** get_locale(name): look the normalised name up; a miss is an error naming it. */
  function Lookup(m: map<string, LocaleId>, name: string): (r: Result<LocaleId, RegistryError>)
    ensures r.Ok? <==> Normalize(name) in m
    ensures r.Ok? ==> r.value == m[Normalize(name)]
    ensures r.Err? ==> r.error == UnknownLocale(Normalize(name))
  {
    var key := Normalize(name);
    if key in m then Ok(m[key]) else Err(UnknownLocale(key))
  }

  /** Lookups do not see case or the choice of "_" or "-". */
  lemma LookupIgnoresSpelling(m: map<string, LocaleId>, s: string, t: string)
    requires SameIdentifier(s, t)
    ensures Lookup(m, s) == Lookup(m, t)
  {
    NormalizeProperties(s, t);
  }

  /** Every normalised name of `names` is bound to `id`. */
  predicate BindsAll(m: map<string, LocaleId>, names: seq<string>, id: LocaleId) {
    forall i :: 0 <= i < |names| ==> Normalize(names[i]) in m && m[Normalize(names[i])] == id
  }

  /** The keys `names` adds once normalised. */
  function NormalizedNames(names: seq<string>): set<string> {
    set i | 0 <= i < |names| :: Normalize(names[i])
  }

  /**
   * Defining a locale class: its names are taken in order; a name whose
   * normalised form is already bound, by an earlier class or earlier in the
   * same list, rejects the whole class and leaves the map as it was.
   */
  function Admit(m: map<string, LocaleId>, names: seq<string>, id: LocaleId): (r: Result<map<string, LocaleId>, RegistryError>)
    decreases |names|
  {
    if |names| == 0 then Ok(m)
    else
      var key := Normalize(names[0]);
      if key in m then Err(DuplicateLocaleName(names[0]))
      else Admit(m[key := id], names[1..], id)
  }

  /**
   * A successful definition binds every name to the class, keeps every
   * earlier entry, and adds nothing else.
   */
  lemma {:induction false} AdmitBinds(m: map<string, LocaleId>, names: seq<string>, id: LocaleId)
    requires Admit(m, names, id).Ok?
    ensures var m' := Admit(m, names, id).value;
            && BindsAll(m', names, id)
            && (forall k :: k in m ==> k in m' && m'[k] == m[k])
            && m'.Keys == m.Keys + NormalizedNames(names)
            && m.Keys !! NormalizedNames(names)
    decreases |names|
  {
    if |names| > 0 {
      var key := Normalize(names[0]);
      AdmitBinds(m[key := id], names[1..], id);
      assert NormalizedNames(names) == {key} + NormalizedNames(names[1..]) by {
        forall x | x in NormalizedNames(names) ensures x in {key} + NormalizedNames(names[1..]) {
          var i :| 0 <= i < |names| && x == Normalize(names[i]);
          if i > 0 { assert names[i] == names[1..][i - 1]; }
        }
        forall x | x in NormalizedNames(names[1..]) ensures x in NormalizedNames(names) {
          var i :| 0 <= i < |names[1..]| && x == Normalize(names[1..][i]);
          assert names[1..][i] == names[i + 1];
        }
      }
      var m' := Admit(m, names, id).value;
      forall i | 0 <= i < |names| ensures Normalize(names[i]) in m' && m'[Normalize(names[i])] == id {
        if i > 0 { assert names[i] == names[1..][i - 1]; }
      }
    }
  }

  /**
   * A definition is rejected exactly when one of its names, normalised, is
   * already bound or repeats an earlier name of the same list.
   */
  lemma {:induction false} AdmitRejects(m: map<string, LocaleId>, names: seq<string>, id: LocaleId)
    ensures Admit(m, names, id).Err?
            <==> exists i :: 0 <= i < |names| && (Normalize(names[i]) in m || Normalize(names[i]) in NormalizedNames(names[..i]))
    ensures Admit(m, names, id).Err? ==> Admit(m, names, id).error.DuplicateLocaleName?
    decreases |names|
  {
    if |names| > 0 {
      var key := Normalize(names[0]);
      assert names[..0] == [];
      if key !in m {
        var m1 := m[key := id];
        AdmitRejects(m1, names[1..], id);
        if Admit(m, names, id).Err? {
          var j :| 0 <= j < |names[1..]| && (Normalize(names[1..][j]) in m1 || Normalize(names[1..][j]) in NormalizedNames(names[1..][..j]));
          assert names[1..][j] == names[j + 1];
          var x := Normalize(names[j + 1]);
          if x !in m {
            if x == key {
              assert names[..j + 1][0] == names[0];
            } else {
              var k :| 0 <= k < j && x == Normalize(names[1..][..j][k]);
              assert names[..j + 1][k + 1] == names[1..][..j][k];
            }
            assert x in NormalizedNames(names[..j + 1]);
          }
        } else {
          forall i | 0 <= i < |names|
            ensures !(Normalize(names[i]) in m || Normalize(names[i]) in NormalizedNames(names[..i]))
          {
            if i > 0 {
              var j := i - 1;
              assert names[i] == names[1..][j];
              assert !(Normalize(names[1..][j]) in m1 || Normalize(names[1..][j]) in NormalizedNames(names[1..][..j]));
              forall k | 0 <= k < i ensures Normalize(names[..i][k]) != Normalize(names[i]) {
                if k > 0 {
                  assert names[..i][k] == names[1..][..j][k - 1];
                  assert Normalize(names[..i][k]) in NormalizedNames(names[1..][..j]);
                }
              }
            }
          }
        }
      }
    }
  }

  /** Binding without checks: how the built-in classes fill the map at import. */
  function Bind(m: map<string, LocaleId>, names: seq<string>, id: LocaleId): (m': map<string, LocaleId>)
    ensures BindsAll(m', names, id)
    ensures forall k :: k in m && k !in NormalizedNames(names) ==> k in m' && m'[k] == m[k]
    ensures m'.Keys == m.Keys + NormalizedNames(names)
    decreases |names|
  {
    if |names| == 0 then m
    else
      var init := names[..|names| - 1];
      var m1 := Bind(m, init, id);
      NormalizedNamesSnoc(names);
      BindsAllSnoc(m1, names, id);
      m1[Normalize(names[|names| - 1]) := id]
  }

  /** The keys of a list are the keys of all but its last name, plus the last one's. */
  lemma NormalizedNamesSnoc(names: seq<string>)
    requires |names| > 0
    ensures NormalizedNames(names) == NormalizedNames(names[..|names| - 1]) + {Normalize(names[|names| - 1])}
  {
    var init := names[..|names| - 1];
    forall x | x in NormalizedNames(names) ensures x in NormalizedNames(init) + {Normalize(names[|names| - 1])} {
      var i :| 0 <= i < |names| && x == Normalize(names[i]);
      if i < |names| - 1 { assert init[i] == names[i]; }
    }
    forall x | x in NormalizedNames(init) ensures x in NormalizedNames(names) {
      var i :| 0 <= i < |init| && x == Normalize(init[i]);
      assert init[i] == names[i];
    }
  }

  /** Binding the last name after the others binds them all. */
  lemma BindsAllSnoc(m1: map<string, LocaleId>, names: seq<string>, id: LocaleId)
    requires |names| > 0 && BindsAll(m1, names[..|names| - 1], id)
    ensures BindsAll(m1[Normalize(names[|names| - 1]) := id], names, id)
  {
    var init := names[..|names| - 1];
    forall i | 0 <= i < |names|
      ensures Normalize(names[i]) in m1[Normalize(names[|names| - 1]) := id]
      ensures m1[Normalize(names[|names| - 1]) := id][Normalize(names[i])] == id
    {
      if i < |names| - 1 { assert init[i] == names[i]; }
    }
  }

  /** The map the built-in classes produce, one after another. */
  function BuildMap(langs: seq<Lang>): map<string, LocaleId> {
    if |langs| == 0 then map[]
    else Bind(BuildMap(langs[..|langs| - 1]), Names(langs[|langs| - 1]), Builtin(langs[|langs| - 1]))
  }

  function BuiltinMap(): map<string, LocaleId> {
    BuildMap(AllLangs)
  }

  /** The language code a built-in name starts with: different locales, different codes. */
  function Code(lang: Lang): (c: string)
    ensures forall name :: name in Names(lang) ==> |name| >= 2 && name[..2] == c
  {
    Names(lang)[0]
  }

  lemma CodesDiffer(a: Lang, b: Lang)
    requires a != b
    ensures Code(a) != Code(b)
  {
  }

  /** Every key a built-in locale adds starts with its language code. */
  lemma NamesCarryCode(lang: Lang)
    ensures forall x :: x in NormalizedNames(Names(lang)) ==> |x| >= 2 && x[..2] == Code(lang)
  {
    BuiltinNamesMatch(lang);
    forall x | x in NormalizedNames(Names(lang)) ensures |x| >= 2 && x[..2] == Code(lang) {
      var i :| 0 <= i < |Names(lang)| && x == Normalize(Names(lang)[i]);
      assert Names(lang)[i] in Names(lang);
      IdentifierIsLowerAndNormal(Names(lang)[i]);
    }
  }

  /** Names of two different built-in locales never collide, not even after normalising. */
  lemma BuiltinNamesDisjoint(a: Lang, b: Lang)
    requires a != b
    ensures NormalizedNames(Names(a)) !! NormalizedNames(Names(b))
  {
    CodesDiffer(a, b);
    NamesCarryCode(a);
    NamesCarryCode(b);
  }

  /** A name bound by Bind resolves to the bound class. */
  lemma BindResolves(m: map<string, LocaleId>, names: seq<string>, id: LocaleId, name: string)
    requires name in names
    ensures Lookup(Bind(m, names, id), name) == Ok(id)
  {
    var i :| 0 <= i < |names| && names[i] == name;
  }

  /** A name of a list disjoint from the bound names resolves as before. */
  lemma BindKeeps(m: map<string, LocaleId>, names: seq<string>, id: LocaleId, name: string, others: seq<string>)
    requires name in others && NormalizedNames(others) !! NormalizedNames(names)
    ensures Lookup(Bind(m, names, id), name) == Lookup(m, name)
  {
    var i :| 0 <= i < |others| && others[i] == name;
    assert Normalize(name) in NormalizedNames(others);
  }

  /** After the built-in classes of `langs` are defined, each of their names resolves to its own class. */
  lemma {:induction false} BuildMapResolves(langs: seq<Lang>, lang: Lang, name: string)
    requires lang in langs && name in Names(lang)
    ensures Lookup(BuildMap(langs), name) == Ok(Builtin(lang))
    decreases |langs|
  {
    var last := langs[|langs| - 1];
    var init := langs[..|langs| - 1];
    if lang == last {
      BindResolves(BuildMap(init), Names(last), Builtin(last), name);
    } else {
      assert lang in init by {
        var k :| 0 <= k < |langs| && langs[k] == lang;
        assert init[k] == lang;
      }
      BuildMapResolves(init, lang, name);
      BuiltinNamesDisjoint(lang, last);
      BindKeeps(BuildMap(init), Names(last), Builtin(last), name, Names(lang));
    }
  }

  /** get_locale finds every built-in name; a name nobody declared is a ValueError. */
  lemma BuiltinLookup(lang: Lang, name: string)
    requires name in Names(lang)
    ensures Lookup(BuiltinMap(), name) == Ok(Builtin(lang))
  {
    BuildMapResolves(AllLangs, lang, name);
  }

  /** get_locale_by_class_name over the built-in classes. */
  function ByClassName(name: string): (r: Result<LocaleId, RegistryError>)
    ensures r.Ok? <==> exists lang :: ClassName(lang) == name
    ensures r.Ok? ==> r.value.Builtin? && ClassName(r.value.lang) == name
    ensures r.Err? ==> r == Err(UnknownLocale(name))
  {
    AllLangsComplete();
    FindClass(AllLangs, name)
  }

  function FindClass(langs: seq<Lang>, name: string): (r: Result<LocaleId, RegistryError>)
    requires forall lang: Lang :: lang in langs
    ensures r.Ok? <==> exists lang :: ClassName(lang) == name
    ensures r.Ok? ==> r.value.Builtin? && ClassName(r.value.lang) == name
    ensures r.Err? ==> r == Err(UnknownLocale(name))
  {
    if exists i :: 0 <= i < |langs| && ClassName(langs[i]) == name then
      var i :| 0 <= i < |langs| && ClassName(langs[i]) == name;
      Ok(Builtin(langs[i]))
    else
      assert forall lang :: ClassName(lang) != name by {
        forall lang ensures ClassName(lang) != name {
          assert lang in langs;
        }
      }
      Err(UnknownLocale(name))
  }

  /** Every built-in locale is in the list the registry is built from. */
  lemma AllLangsComplete()
    ensures forall lang: Lang :: lang in AllLangs
  {
    forall lang: Lang ensures lang in AllLangs {
      match lang
      case English => assert AllLangs[0] == lang;
      case Russian => assert AllLangs[1] == lang;
      case Polish => assert AllLangs[2] == lang;
      case Bulgarian => assert AllLangs[3] == lang;
      case Macedonian => assert AllLangs[4] == lang;
      case Czech => assert AllLangs[5] == lang;
      case Slovak => assert AllLangs[6] == lang;
      case Icelandic => assert AllLangs[7] == lang;
      case Arabic => assert AllLangs[8] == lang;
      case Hebrew => assert AllLangs[9] == lang;
      case Korean => assert AllLangs[10] == lang;
      case Tagalog => assert AllLangs[11] == lang;
    }
  }

  /**
   * The registry object: its map, filled with the built-in classes when
   * created, extended by each class definition, read by get_locale.
   */
  class LocaleRegistry {
    var entries: map<string, LocaleId>

    /** Keys are stored normalised, so lookups by any spelling can find them. */
    ghost predicate Valid()
      reads this
    {
      forall k :: k in entries ==> IsNormal(k)
    }

    constructor ()
      ensures entries == BuiltinMap()
      ensures Valid()
    {
      entries := BuiltinMap();
      new;
      NormalKeys(AllLangs);
    }

    /**
     * Defining a class with `names`: every name is checked, in order, against
     * the map and the names before it; only if all pass are they all bound.
     */
    method Register(names: seq<string>, id: LocaleId) returns (r: Outcome<RegistryError>)
      requires Valid()
      modifies this
      ensures Valid()
      ensures Admit(old(entries), names, id).Ok? ==> r == Pass && entries == Admit(old(entries), names, id).value
      ensures Admit(old(entries), names, id).Err? ==> r == Fail(Admit(old(entries), names, id).error) && entries == old(entries)
    {
      var staged := entries;
      var i := 0;
      while i < |names|
        invariant 0 <= i <= |names|
        invariant forall k :: k in staged ==> IsNormal(k)
        invariant Admit(entries, names, id) == Admit(staged, names[i..], id)
        invariant entries == old(entries)
      {
        var key := Normalize(names[i]);
        assert names[i..][0] == names[i] && names[i..][1..] == names[i + 1..];
        if key in staged {
          return Fail(DuplicateLocaleName(names[i]));
        }
        NormalizeProperties(names[i], names[i]);
        staged := staged[key := id];
        i := i + 1;
      }
      entries := staged;
      return Pass;
    }

    /** get_locale(name) on the current map. */
    method Get(name: string) returns (r: Result<LocaleId, RegistryError>)
      ensures r == Lookup(entries, name)
    {
      var key := Normalize(name);
      if key in entries {
        r := Ok(entries[key]);
      } else {
        r := Err(UnknownLocale(key));
      }
    }
  }

  /** The built-in map stores its keys normalised. */
  lemma {:induction false} NormalKeys(langs: seq<Lang>)
    ensures forall k :: k in BuildMap(langs) ==> IsNormal(k)
    decreases |langs|
  {
    if |langs| > 0 {
      var last := langs[|langs| - 1];
      NormalKeys(langs[..|langs| - 1]);
      forall k | k in NormalizedNames(Names(last)) ensures IsNormal(k) {
        var i :| 0 <= i < |Names(last)| && k == Normalize(Names(last)[i]);
        NormalizeProperties(Names(last)[i], Names(last)[i]);
      }
    }
  }

  /** Every key of the built-in map is a conforming identifier. */
  lemma {:induction false} BuildMapKeysMatch(langs: seq<Lang>)
    ensures forall k :: k in BuildMap(langs) ==> MatchesIdentifier(k)
    decreases |langs|
  {
    if |langs| > 0 {
      var last := langs[|langs| - 1];
      BuildMapKeysMatch(langs[..|langs| - 1]);
      BuiltinNamesMatch(last);
      forall k | k in NormalizedNames(Names(last)) ensures MatchesIdentifier(k) {
        var i :| 0 <= i < |Names(last)| && k == Normalize(Names(last)[i]);
        assert Names(last)[i] in Names(last);
        IdentifierIsLowerAndNormal(Names(last)[i]);
      }
    }
  }

  /** Defining a class that reuses "en-us" is rejected with LookupError naming it. */
  lemma DuplicatedLocaleName(m: map<string, LocaleId>)
    requires m == BuiltinMap()
    ensures Admit(m, ["en-us"], Custom("Locale1")) == Err(DuplicateLocaleName("en-us"))
  {
    BuiltinLookup(English, "en-us");
    TakenName(m, ["en-us"], Custom("Locale1"));
  }

  /** A list whose first name is already bound is rejected on that name. */
  lemma TakenName(m: map<string, LocaleId>, names: seq<string>, id: LocaleId)
    requires |names| > 0 && Lookup(m, names[0]).Ok?
    ensures Admit(m, names, id) == Err(DuplicateLocaleName(names[0]))
  {
  }

  /**
   * Custom classes with fresh names resolve right after definition, by any
   * spelling of their names, and the built-in names keep their classes.
   */
  lemma CustomLocaleSubclass(m: map<string, LocaleId>)
    requires m == BuiltinMap()
    ensures var m1 := Admit(m, ["foo", "foo-BAR"], Custom("CustomLocale1"));
            && m1.Ok?
            && Lookup(m1.value, "foo") == Ok(Custom("CustomLocale1"))
            && Lookup(m1.value, "foo-BAR") == Ok(Custom("CustomLocale1"))
            && Lookup(m1.value, "foo_bar") == Ok(Custom("CustomLocale1"))
            && Lookup(m1.value, "en-us") == Ok(Builtin(English))
            && var m2 := Admit(m1.value, ["underscores_ok"], Custom("CustomLocale2"));
               && m2.Ok?
               && Lookup(m2.value, "underscores_ok") == Ok(Custom("CustomLocale2"))
  {
    BuildMapKeysMatch(AllLangs);
    BuiltinLookup(English, "en-us");
    FreshCustomNames(m);
  }

  lemma FreshCustomNames(m: map<string, LocaleId>)
    requires forall k :: k in m ==> MatchesIdentifier(k)
    requires Lookup(m, "en-us") == Ok(Builtin(English))
    ensures var m1 := Admit(m, ["foo", "foo-BAR"], Custom("CustomLocale1"));
            && m1.Ok?
            && Lookup(m1.value, "foo") == Ok(Custom("CustomLocale1"))
            && Lookup(m1.value, "foo-BAR") == Ok(Custom("CustomLocale1"))
            && Lookup(m1.value, "foo_bar") == Ok(Custom("CustomLocale1"))
            && Lookup(m1.value, "en-us") == Ok(Builtin(English))
            && var m2 := Admit(m1.value, ["underscores_ok"], Custom("CustomLocale2"));
               && m2.Ok?
               && Lookup(m2.value, "underscores_ok") == Ok(Custom("CustomLocale2"))
  {
    assert Normalize("foo") == "foo";
    assert Normalize("foo-BAR") == "foo-bar";
    assert Normalize("foo_bar") == "foo-bar";
    assert Normalize("underscores_ok") == "underscores-ok";
    assert Normalize("en-us") == "en-us";
    assert !MatchesIdentifier("foo") && !MatchesIdentifier("foo-bar") && !MatchesIdentifier("underscores-ok");
    var c1 := Custom("CustomLocale1");
    var m1 := m["foo" := c1]["foo-bar" := c1];
    assert ["foo", "foo-BAR"][1..] == ["foo-BAR"];
    assert Admit(m, ["foo", "foo-BAR"], c1) == Ok(m1);
    var c2 := Custom("CustomLocale2");
    assert "underscores-ok" !in m1;
    assert Admit(m1, ["underscores_ok"], c2) == Ok(m1["underscores-ok" := c2]);
  }

  /** get_locale("locale-name") fails before the name is bound, and finds it by any spelling after. */
  lemma GetLocaleSpellings(id: LocaleId)
    ensures Lookup(BuiltinMap(), "locale-name") == Err(UnknownLocale("locale-name"))
    ensures var m := BuiltinMap()["locale-name" := id];
            && Lookup(m, "locale_name") == Ok(id)
            && Lookup(m, "locale-name") == Ok(id)
            && Lookup(m, "locale-NAME") == Ok(id)
  {
    BuildMapKeysMatch(AllLangs);
    assert Normalize("locale-name") == "locale-name";
    assert Normalize("locale_name") == "locale-name";
    assert Normalize("locale-NAME") == "locale-name";
    assert !MatchesIdentifier("locale-name");
  }

  /** get_locale_by_class_name finds a built-in class and rejects "NonExistentLocale". */
  lemma ClassNameLookup(lang: Lang)
    ensures ByClassName(ClassName(lang)) == Ok(Builtin(lang))
    ensures ByClassName("NonExistentLocale") == Err(UnknownLocale("NonExistentLocale"))
  {
    assert forall a: Lang, b: Lang :: ClassName(a) == ClassName(b) ==> a == b;
    assert forall a: Lang :: ClassName(a) != "NonExistentLocale";
  }
}
