/**
 * How the functions of the plugin interact: a saved language is preselected
 * by the next form only when the configured field name is the one the form
 * reads, and the form and the handler read the raw settings record, not the
 * record merged with the defaults.
 */
module UlsRoundTrip {
  import opened PhpValues
  import UlsOptions
  import UlsForm
  import UlsSave
  import UlsUserMeta

  /**
   * With the default field name, an accepted submission of a valid,
   * non-empty language makes the next form for that user preselect it, and
   * the option for each available language is selected iff its code loosely
   * equals (PHP `==`) it.
   */
  lemma SavedLanguageIsPreselected(
    meta: UlsUserMeta.UserMetaTable, post: map<string, Value>, hasVerifyNonce: bool, verifyNonce: Value -> bool,
    validLanguage: Value -> bool, stored: map<string, Value>, uid: int,
    hasNonceField: bool, langs: seq<UlsForm.Language>, defaultLanguage: Value, fieldLabel: Value,
    submitLabel: Value, successMessage: Value, errorMessage: Value)
    requires !UlsSave.Rejected(post, hasVerifyNonce, verifyNonce)
    requires UlsSave.WriteGuard(stored, post, validLanguage)
    requires UlsSave.FieldName(stored) == Str("uls_frontend_language")
    ensures var saved := UlsSave.SaveUserLanguageSpec(meta, post, hasVerifyNonce, verifyNonce, validLanguage, stored, uid);
            var form := UlsForm.SwitchForm(true, stored, saved.meta, uid, hasNonceField, langs, defaultLanguage,
                                           fieldLabel, submitLabel, successMessage, errorMessage);
            && saved.success
            && form.Some?
            && form.value.language == UlsSave.Posted(stored, post)
            && |form.value.options| == |langs|
            && forall i :: 0 <= i < |langs| ==>
                 (form.value.options[i].selected <==> LooseEqStr(langs[i].code, UlsSave.Posted(stored, post)))
  {
    var saved := UlsSave.SaveUserLanguageSpec(meta, post, hasVerifyNonce, verifyNonce, validLanguage, stored, uid);
    var v := UlsSave.Posted(stored, post);
    assert UlsSave.FieldKey(stored) == UlsForm.FrontendLanguageMetaKey;
    assert UlsUserMeta.MetaAt(saved.meta, uid, UlsForm.FrontendLanguageMetaKey) == Some(v);
    assert UlsUserMeta.UserMeta(saved.meta, uid, UlsForm.FrontendLanguageMetaKey) == v;
    assert UlsForm.PreselectedLanguage(stored, saved.meta, uid) == v;
    UlsForm.SwitchFormShown(stored, saved.meta, uid, hasNonceField, langs, defaultLanguage,
                            fieldLabel, submitLabel, successMessage, errorMessage);
    UlsForm.OptionEntriesAt(langs, v);
  }

  /**
   * With any other field name the saved value lands under that name, and a
   * user with no `uls_frontend_language` entry still sees the stored default.
   */
  lemma SavedUnderOtherNameIsNotPreselected(validLanguage: Value -> bool)
    requires validLanguage(Str("fr"))
    ensures var stored := map["user_frontend_configuration" := Bool(true),
                               "frontend_language_field_name" := Str("my_language"),
                               "default_frontend_language" := Str("en")];
            var post := map["my_language" := Str("fr")];
            var saved := UlsSave.SaveUserLanguageSpec(map[], post, false, _ => true, validLanguage, stored, 7);
            var form := UlsForm.SwitchForm(true, stored, saved.meta, 7, false, [], Null, Null, Null, Null, Null);
            && saved.success
            && UlsUserMeta.MetaAt(saved.meta, 7, "my_language") == Some(Str("fr"))
            && form.Some? && form.value.language == Str("en")
  {
    var stored := map["user_frontend_configuration" := Bool(true),
                      "frontend_language_field_name" := Str("my_language"),
                      "default_frontend_language" := Str("en")];
    var post := map["my_language" := Str("fr")];
    assert UlsSave.Posted(stored, post) == Str("fr");
    assert UlsSave.FieldKey(stored) == "my_language";
  }

  /**
   * The form reads the raw record: with nothing stored it offers no form,
   * although the merged defaults switch frontend configuration on.
   */
  lemma FormIgnoresDefaults(
    meta: UlsUserMeta.UserMetaTable, uid: int, hasNonceField: bool, langs: seq<UlsForm.Language>,
    defaultLanguage: Value, fieldLabel: Value, submitLabel: Value, successMessage: Value, errorMessage: Value)
    ensures UlsOptions.GetOptions(map[])["user_frontend_configuration"] == Bool(true)
    ensures UlsForm.SwitchForm(true, map[], meta, uid, hasNonceField, langs, defaultLanguage,
                               fieldLabel, submitLabel, successMessage, errorMessage) == None
    ensures UlsForm.SwitchForm(true, UlsOptions.GetOptions(map[]), meta, uid, hasNonceField, langs,
                               defaultLanguage, fieldLabel, submitLabel, successMessage, errorMessage).Some?
  {
  }

  /**
   * The handler reads the raw record too: with nothing stored an accepted
   * request writes nothing, although under the merged defaults it would.
   */
  lemma SaveIgnoresDefaults(
    meta: UlsUserMeta.UserMetaTable, post: map<string, Value>, hasVerifyNonce: bool, verifyNonce: Value -> bool,
    validLanguage: Value -> bool, uid: int)
    requires !UlsSave.Rejected(post, hasVerifyNonce, verifyNonce)
    ensures UlsSave.SaveUserLanguageSpec(meta, post, hasVerifyNonce, verifyNonce, validLanguage, map[], uid)
            == UlsSave.SaveOutcome(meta, true)
    ensures "uls_frontend_language" in post && !Empty(post["uls_frontend_language"])
            && validLanguage(post["uls_frontend_language"]) ==>
              UlsUserMeta.MetaAt(UlsSave.SaveUserLanguageSpec(meta, post, hasVerifyNonce, verifyNonce, validLanguage,
                                                          UlsOptions.GetOptions(map[]), uid).meta,
                             uid, "uls_frontend_language")
              == Some(post["uls_frontend_language"])
  {
  }
}
