/**
 * The data-resolution part of `uls_create_user_language_switch_form`: the two
 * guards, the fallbacks of the four display strings, the choice of the
 * preselected language and the `<option>` list built from the available
 * languages. The form's markup is not modelled; its content is a `FormData`.
 */
module UlsForm {
  import opened PhpValues
  import opened UlsUserMeta
  import UlsOptions

  /** One entry of the ordered available-languages list (`$langName => $langCode`). */
  datatype Language = Language(name: string, code: string)

  /** One `<option>` of the language selector. */
  datatype OptionEntry = OptionEntry(code: string, name: string, selected: bool)

  /** What the rendered form contains. */
  datatype FormData = FormData(
    fieldLabel: Value,
    submitLabel: Value,
    successMessage: Value,
    errorMessage: Value,
    fieldName: Value,        // the `name` of the selector
    nonceField: bool,        // an anti-forgery token field is emitted
    language: Value,         // the preselected language
    options: seq<OptionEntry>)

  /** The user-meta key the form reads; it is fixed, not the configured field name. */
  const FrontendLanguageMetaKey := "uls_frontend_language"

  const DefaultLabel := "Language"
  const DefaultSubmitLabel := "Save"
  const DefaultSuccessMessage := "Language saved"
  const DefaultErrorMessage := "Error saving language"

  /** `empty($v) ? $fallback : $v` */
  function OrDefault(v: Value, fallback: string): Value {
    if Empty(v) then Str(fallback) else v
  }

  /** The user's stored frontend language, or the stored default when that is empty. */
  function PreselectedLanguage(stored: map<string, Value>, meta: UserMetaTable, uid: int): Value {
    var language := UserMeta(meta, uid, FrontendLanguageMetaKey);
    if Empty(language) then Index(stored, Str("default_frontend_language")) else language
  }

  /** The `<option>` for one language: selected when its code loosely equals the preselected language. */
  function Entry(l: Language, language: Value): OptionEntry {
    OptionEntry(l.code, l.name, LooseEqStr(l.code, language))
  }

  /** The option list, one entry per available language, in order. */
  function OptionEntries(langs: seq<Language>, language: Value): seq<OptionEntry> {
    if langs == [] then [] else [Entry(langs[0], language)] + OptionEntries(langs[1..], language)
  }

  /**
   * The content of the form for the given host state and arguments, or None
   * (PHP null) when the user is not logged in or may not choose a frontend
   * language. `defaultLanguage` is accepted and, as in the code, not used.
   */
  function SwitchForm(
    loggedIn: bool, stored: map<string, Value>, meta: UserMetaTable, uid: int,
    hasNonceField: bool, langs: seq<Language>,
    defaultLanguage: Value, fieldLabel: Value, submitLabel: Value, successMessage: Value, errorMessage: Value
  ): Option<FormData>
  {
    if !loggedIn || !UlsOptions.FrontendConfigurable(stored) then None
    else
      var language := PreselectedLanguage(stored, meta, uid);
      Some(FormData(
        OrDefault(fieldLabel, DefaultLabel),
        OrDefault(submitLabel, DefaultSubmitLabel),
        OrDefault(successMessage, DefaultSuccessMessage),
        OrDefault(errorMessage, DefaultErrorMessage),
        Index(stored, Str("frontend_language_field_name")),
        hasNonceField,
        language,
        OptionEntries(langs, language)))
  }

  /** Proof aid only: `SwitchForm` unfolded for a logged-in user who may choose a frontend language. */
  lemma SwitchFormShown(
    stored: map<string, Value>, meta: UserMetaTable, uid: int,
    hasNonceField: bool, langs: seq<Language>,
    defaultLanguage: Value, fieldLabel: Value, submitLabel: Value, successMessage: Value, errorMessage: Value)
    requires UlsOptions.FrontendConfigurable(stored)
    ensures SwitchForm(true, stored, meta, uid, hasNonceField, langs, defaultLanguage,
                            fieldLabel, submitLabel, successMessage, errorMessage)
      == Some(FormData(OrDefault(fieldLabel, DefaultLabel), OrDefault(submitLabel, DefaultSubmitLabel),
                              OrDefault(successMessage, DefaultSuccessMessage), OrDefault(errorMessage, DefaultErrorMessage),
                              Index(stored, Str("frontend_language_field_name")), hasNonceField, PreselectedLanguage(stored, meta, uid),
                              OptionEntries(langs, PreselectedLanguage(stored, meta, uid))))
  {}

  /** The option list has one entry per language, in order, and entry i is selected iff its code matches. */
  lemma {:induction false} OptionEntriesAt(langs: seq<Language>, language: Value)
    ensures |OptionEntries(langs, language)| == |langs|
    ensures forall i :: 0 <= i < |langs| ==>
              OptionEntries(langs, language)[i].code == langs[i].code
              && OptionEntries(langs, language)[i].name == langs[i].name
              && (OptionEntries(langs, language)[i].selected <==> LooseEqStr(langs[i].code, language))
  {
    if langs != [] {
      OptionEntriesAt(langs[1..], language);
      var r := OptionEntries(langs, language);
      forall i | 0 <= i < |langs|
        ensures r[i].code == langs[i].code && r[i].name == langs[i].name
        ensures r[i].selected <==> LooseEqStr(langs[i].code, language)
      {
        if i > 0 {
          assert r[i] == OptionEntries(langs[1..], language)[i - 1];
          assert langs[i] == langs[1..][i - 1];
        }
      }
    }
  }

  /** A user who is not logged in gets no form, whatever is stored and whatever the arguments. */
  lemma SwitchFormNotLoggedIn(
    stored: map<string, Value>, meta: UserMetaTable, uid: int, hasNonceField: bool,
    langs: seq<Language>, defaultLanguage: Value, fieldLabel: Value, submitLabel: Value,
    successMessage: Value, errorMessage: Value)
    ensures SwitchForm(false, stored, meta, uid, hasNonceField, langs, defaultLanguage,
                       fieldLabel, submitLabel, successMessage, errorMessage) == None
  {
  }

  /** For a logged-in user there is a form exactly when the raw stored frontend flag is truthy. */
  lemma SwitchFormGuard(
    loggedIn: bool, stored: map<string, Value>, meta: UserMetaTable, uid: int,
    hasNonceField: bool, langs: seq<Language>, defaultLanguage: Value, fieldLabel: Value,
    submitLabel: Value, successMessage: Value, errorMessage: Value)
    ensures SwitchForm(loggedIn, stored, meta, uid, hasNonceField, langs, defaultLanguage,
                       fieldLabel, submitLabel, successMessage, errorMessage).Some?
            <==> loggedIn && ("user_frontend_configuration" in stored
                              && !Empty(stored["user_frontend_configuration"]))
  {
  }

  /** Each display string is the caller's when non-empty and the fixed default string otherwise. */
  lemma SwitchFormLabels(
    stored: map<string, Value>, meta: UserMetaTable, uid: int,
    hasNonceField: bool, langs: seq<Language>, defaultLanguage: Value, fieldLabel: Value,
    submitLabel: Value, successMessage: Value, errorMessage: Value)
    requires UlsOptions.FrontendConfigurable(stored)
    ensures var f := SwitchForm(true, stored, meta, uid, hasNonceField, langs, defaultLanguage,
                                fieldLabel, submitLabel, successMessage, errorMessage).value;
            && (f.fieldLabel == if Empty(fieldLabel) then Str("Language") else fieldLabel)
            && (f.submitLabel == if Empty(submitLabel) then Str("Save") else submitLabel)
            && (f.successMessage == if Empty(successMessage) then Str("Language saved") else successMessage)
            && (f.errorMessage == if Empty(errorMessage) then Str("Error saving language") else errorMessage)
            && !Empty(f.fieldLabel) && !Empty(f.submitLabel) && !Empty(f.successMessage) && !Empty(f.errorMessage)
  {
  }

  /**
   * The preselected language is the user's stored `uls_frontend_language`
   * when that is non-empty, and the raw stored `default_frontend_language`
   * (null when absent) otherwise; the caller's `defaultLanguage` plays no part.
   */
  lemma SwitchFormPreselects(
    stored: map<string, Value>, meta: UserMetaTable, uid: int,
    hasNonceField: bool, langs: seq<Language>, defaultLanguage: Value, fieldLabel: Value,
    submitLabel: Value, successMessage: Value, errorMessage: Value)
    requires UlsOptions.FrontendConfigurable(stored)
    ensures var language := SwitchForm(true, stored, meta, uid, hasNonceField, langs, defaultLanguage,
                                       fieldLabel, submitLabel, successMessage, errorMessage).value.language;
            var saved := if uid in meta && "uls_frontend_language" in meta[uid]
                         then meta[uid]["uls_frontend_language"] else Null;
            && (!Empty(saved) ==> language == saved)
            && (Empty(saved) && "default_frontend_language" in stored ==>
                  language == stored["default_frontend_language"])
            && (Empty(saved) && "default_frontend_language" !in stored ==> language == Null)
  {
  }

  /** The argument documented as the selector's default value does not affect the form. */
  lemma SwitchFormIgnoresDefaultLanguage(
    loggedIn: bool, stored: map<string, Value>, meta: UserMetaTable, uid: int,
    hasNonceField: bool, langs: seq<Language>, d1: Value, d2: Value, fieldLabel: Value,
    submitLabel: Value, successMessage: Value, errorMessage: Value)
    ensures SwitchForm(loggedIn, stored, meta, uid, hasNonceField, langs, d1,
                       fieldLabel, submitLabel, successMessage, errorMessage)
         == SwitchForm(loggedIn, stored, meta, uid, hasNonceField, langs, d2,
                       fieldLabel, submitLabel, successMessage, errorMessage)
  {
  }

  /**
   * The form's options: one per available language, in the same order, with
   * its code and name, selected iff its code loosely equals (PHP `==`) the
   * preselected language.
   */
  lemma SwitchFormOptions(
    stored: map<string, Value>, meta: UserMetaTable, uid: int,
    hasNonceField: bool, langs: seq<Language>, defaultLanguage: Value, fieldLabel: Value,
    submitLabel: Value, successMessage: Value, errorMessage: Value)
    requires UlsOptions.FrontendConfigurable(stored)
    ensures var f := SwitchForm(true, stored, meta, uid, hasNonceField, langs, defaultLanguage,
                                fieldLabel, submitLabel, successMessage, errorMessage).value;
            && |f.options| == |langs|
            && forall i :: 0 <= i < |langs| ==>
                 f.options[i].code == langs[i].code && f.options[i].name == langs[i].name
                 && (f.options[i].selected <==> LooseEqStr(langs[i].code, f.language))
  {
    OptionEntriesAt(langs, PreselectedLanguage(stored, meta, uid));
  }

  /**
   * The form function itself: the guards, the reassigned display strings and
   * language, and the loop over the available languages.
   */
  method CreateUserLanguageSwitchForm(
    loggedIn: bool, stored: map<string, Value>, meta: UserMetaTable, uid: int,
    hasNonceField: bool, langs: seq<Language>,
    defaultLanguage: Value, fieldLabel: Value, submitLabel: Value, successMessage: Value, errorMessage: Value
  ) returns (r: Option<FormData>)
    ensures r == SwitchForm(loggedIn, stored, meta, uid, hasNonceField, langs, defaultLanguage,
                            fieldLabel, submitLabel, successMessage, errorMessage)
  {
    if !loggedIn {
      return None;
    }
    var configuration := Index(stored, Str("user_frontend_configuration"));
    if Empty(configuration) {
      return None;
    }

    var fieldLabel' := if Empty(fieldLabel) then Str(DefaultLabel) else fieldLabel;
    var submitLabel' := if Empty(submitLabel) then Str(DefaultSubmitLabel) else submitLabel;
    var successMessage' := if Empty(successMessage) then Str(DefaultSuccessMessage) else successMessage;
    var errorMessage' := if Empty(errorMessage) then Str(DefaultErrorMessage) else errorMessage;

    var language := UserMeta(meta, uid, FrontendLanguageMetaKey);
    if Empty(language) {
      language := Index(stored, Str("default_frontend_language"));
    }

    var options: seq<OptionEntry> := [];
    var i := 0;
    while i < |langs|
      invariant 0 <= i <= |langs|
      invariant |options| == i
      invariant forall j :: 0 <= j < i ==> options[j] == Entry(langs[j], language)
    {
      if LooseEqStr(langs[i].code, language) {
        options := options + [OptionEntry(langs[i].code, langs[i].name, true)];
      } else {
        options := options + [OptionEntry(langs[i].code, langs[i].name, false)];
      }
      i := i + 1;
    }

    OptionEntriesAt(langs, language);
    assert options == OptionEntries(langs, language) by {
      forall j | 0 <= j < |langs| ensures options[j] == OptionEntries(langs, language)[j] { }
    }
    assert language == PreselectedLanguage(stored, meta, uid);
    r := Some(FormData(fieldLabel', submitLabel', successMessage', errorMessage',
                       Index(stored, Str("frontend_language_field_name")), hasNonceField, language, options));
    SwitchFormShown(stored, meta, uid, hasNonceField, langs, defaultLanguage,
                    fieldLabel, submitLabel, successMessage, errorMessage);
  }
}
