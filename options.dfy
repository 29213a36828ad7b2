/**
 * `uls_get_options`: the plugin's stored settings record merged over a
 * fixed table of defaults with `array_merge`, so that a stored key wins over
 * the default of the same name.
 */
module UlsOptions {
  import opened PhpValues

  /** The seven recognised settings and their default values. */
  function Defaults(): map<string, Value> {
    map[
      "default_backend_language" := Null,
      "default_frontend_language" := Null,
      "user_backend_configuration" := Bool(true),
      "user_frontend_configuration" := Bool(true),
      "backend_language_field_name" := Str("uls_backend_language"),
      "frontend_language_field_name" := Str("uls_frontend_language"),
      "url_type" := Str("prefix")
    ]
  }

  /**
   * The merged options for a stored record. Every key is a default or a
   * stored key; a stored value always wins; a default shows through exactly
   * where the record does not have that key.
   */
  function GetOptions(stored: map<string, Value>): (r: map<string, Value>)
    ensures r.Keys == Defaults().Keys + stored.Keys
    ensures forall k :: k in stored ==> r[k] == stored[k]
    ensures forall k :: k in Defaults() && k !in stored ==> r[k] == Defaults()[k]
  {
    Defaults() + stored
  }

  /** `$options['user_frontend_configuration']` is truthy: users may choose their frontend language. */
  predicate FrontendConfigurable(stored: map<string, Value>) {
    Truthy(Index(stored, Str("user_frontend_configuration")))
  }

  /** Whatever was stored, all seven recognised settings are present after the merge. */
  lemma GetOptionsHasEveryDefault(stored: map<string, Value>)
    ensures forall k :: k in Defaults() ==> k in GetOptions(stored)
    ensures "user_frontend_configuration" in GetOptions(stored)
    ensures "frontend_language_field_name" in GetOptions(stored)
  {
  }

  /**
   * A stored key that is not a default, such as `translation_mapping`, comes
   * through the merge unchanged, and its absence is not filled in.
   */
  lemma GetOptionsKeepsTranslationMapping(stored: map<string, Value>)
    ensures "translation_mapping" !in Defaults()
    ensures "translation_mapping" in GetOptions(stored) <==> "translation_mapping" in stored
    ensures "translation_mapping" in stored ==>
              GetOptions(stored)["translation_mapping"] == stored["translation_mapping"]
  {
  }

  /** Merging an already merged record with the defaults again changes nothing. */
  lemma GetOptionsIdempotent(stored: map<string, Value>)
    ensures GetOptions(GetOptions(stored)) == GetOptions(stored)
  {
  }

  /** With no stored record (an empty one) the merge is exactly the default table. */
  lemma GetOptionsOfEmpty()
    ensures GetOptions(map[]) == Defaults()
  {
  }
}
