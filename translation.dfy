/**
 * `uls_get_url_map_translation`: the translated URL of a page, looked up in
 * the stored `translation_mapping` (language code to source URL to
 * translated URL), after replacing an invalid language with the current one.
 */
module UlsTranslation {
  import opened PhpValues
  import UlsOptions

  /** The language used for the lookup: the given one if valid, else the current request's language. */
  function ResolveLanguage(language: Value, validLanguage: Value -> bool, currentLanguage: Value): Value {
    if validLanguage(language) then language else currentLanguage
  }

  /** The index path `['translation_mapping'][$language][$url]` into the stored record. */
  function MappingPath(language: Value, url: Value): seq<Value> {
    [Str("translation_mapping"), language, url]
  }

  /** The mapped URL if `isset` holds along the path, and `false` otherwise. */
  function MappedUrl(stored: map<string, Value>, language: Value, url: Value): Value {
    if IsSetPath(Arr(stored), MappingPath(language, url)) then Dig(Arr(stored), MappingPath(language, url))
    else Bool(false)
  }

  /**
   * The lookup as the plugin performs it: `validLanguage` is the plugin's
   * language-code check and `currentLanguage` the language of the current
   * request; `stored` is the raw settings record.
   */
  function GetUrlMapTranslation(
    stored: map<string, Value>, url: Value, language: Value,
    validLanguage: Value -> bool, currentLanguage: Value
  ): (r: Value)
    ensures validLanguage(language) ==> r == MappedUrl(stored, language, url)
    ensures !validLanguage(language) ==> r == MappedUrl(stored, currentLanguage, url)
  {
    MappedUrl(stored, ResolveLanguage(language, validLanguage, currentLanguage), url)
  }

  /** A value read along a path whose `isset` holds is never null. */
  lemma {:induction false} DigNotNull(v: Value, path: seq<Value>)
    requires IsSetPath(v, path)
    ensures Dig(v, path) != Null
    decreases |path|
  {
    if path != [] {
      DigNotNull(v.entries[Offset(path[0]).value], path[1..]);
    }
  }

  /** `isset` along a three-step path, spelled out level by level. */
  lemma IsSetPath3(v: Value, a: Value, b: Value, c: Value)
    ensures IsSetPath(v, [a, b, c]) <==>
              v.Arr? && Offset(a).Some? && Offset(a).value in v.entries
              && var w := v.entries[Offset(a).value];
              w.Arr? && Offset(b).Some? && Offset(b).value in w.entries
              && var x := w.entries[Offset(b).value];
              x.Arr? && Offset(c).Some? && Offset(c).value in x.entries
              && x.entries[Offset(c).value] != Null
    ensures IsSetPath(v, [a, b, c]) ==>
              Dig(v, [a, b, c])
              == v.entries[Offset(a).value].entries[Offset(b).value].entries[Offset(c).value]
  {
    assert [a, b, c][1..] == [b, c];
    assert [b, c][1..] == [c];
    assert [c][1..] == [];
    if v.Arr? && Offset(a).Some? && Offset(a).value in v.entries {
      var w := v.entries[Offset(a).value];
      assert IsSetPath(v, [a, b, c]) == IsSetPath(w, [b, c]);
      if w.Arr? && Offset(b).Some? && Offset(b).value in w.entries {
        var x := w.entries[Offset(b).value];
        assert IsSetPath(w, [b, c]) == IsSetPath(x, [c]);
        if x.Arr? && Offset(c).Some? && Offset(c).value in x.entries {
          assert IsSetPath(x, [c]) == IsSetPath(x.entries[Offset(c).value], []);
          if IsSetPath(v, [a, b, c]) {
            assert Dig(v, [a, b, c]) == Dig(w, [b, c]) == Dig(x, [c]) == Dig(x.entries[Offset(c).value], []);
          }
        }
      }
    }
  }

  /**
   * For a language code and a URL, the lookup returns
   * `mapping[language][url]` when the mapping, its row for the language and
   * the entry for the URL all exist and the entry is not null, and `false`
   * in every other case.
   */
  lemma MappedUrlCases(stored: map<string, Value>, lang: string, url: string)
    ensures var r := MappedUrl(stored, Str(lang), Str(url));
            if "translation_mapping" in stored && stored["translation_mapping"].Arr?
               && lang in stored["translation_mapping"].entries
               && stored["translation_mapping"].entries[lang].Arr?
               && url in stored["translation_mapping"].entries[lang].entries
               && stored["translation_mapping"].entries[lang].entries[url] != Null
            then r == stored["translation_mapping"].entries[lang].entries[url]
            else r == Bool(false)
  {
    IsSetPath3(Arr(stored), Str("translation_mapping"), Str(lang), Str(url));
  }

  /**
   * A null language is replaced by the current language provided the
   * validity check rejects null; the check itself is a parameter here.
   */
  lemma GetUrlMapTranslationNullLanguage(
    stored: map<string, Value>, url: Value, validLanguage: Value -> bool, currentLanguage: Value)
    requires !validLanguage(Null)
    ensures GetUrlMapTranslation(stored, url, Null, validLanguage, currentLanguage)
            == MappedUrl(stored, currentLanguage, url)
  {
  }

  /**
   * The result is never null; anything but `false` comes from an entry that
   * is set, and an empty string only from an entry that holds the empty
   * string, so a missing translation is not confused with an empty one.
   */
  lemma GetUrlMapTranslationSentinel(
    stored: map<string, Value>, url: Value, language: Value,
    validLanguage: Value -> bool, currentLanguage: Value)
    ensures var lang := ResolveLanguage(language, validLanguage, currentLanguage);
            var r := GetUrlMapTranslation(stored, url, language, validLanguage, currentLanguage);
            && r != Null
            && (r != Bool(false) ==> IsSetPath(Arr(stored), MappingPath(lang, url)))
            && (r == Str("") ==> IsSetPath(Arr(stored), MappingPath(lang, url))
                                 && Dig(Arr(stored), MappingPath(lang, url)) == Str(""))
  {
    var lang := ResolveLanguage(language, validLanguage, currentLanguage);
    if IsSetPath(Arr(stored), MappingPath(lang, url)) {
      DigNotNull(Arr(stored), MappingPath(lang, url));
    }
  }

  /**
   * Reading the raw record or the record merged with the defaults gives the
   * same translation, because `translation_mapping` has no default.
   */
  lemma GetUrlMapTranslationIgnoresDefaults(
    stored: map<string, Value>, url: Value, language: Value,
    validLanguage: Value -> bool, currentLanguage: Value)
    ensures GetUrlMapTranslation(UlsOptions.GetOptions(stored), url, language, validLanguage, currentLanguage)
         == GetUrlMapTranslation(stored, url, language, validLanguage, currentLanguage)
  {
  }
}
