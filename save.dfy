/**
 * `uls_save_user_language`: the asynchronous submission handler. It rejects
 * an empty POST body or a failed anti-forgery check, and otherwise writes the
 * posted language to the current user's metadata when the frontend flag is
 * on and the value is non-empty and valid, reporting success either way.
 */
module UlsSave {
  import opened PhpValues
  import opened UlsUserMeta
  import UlsOptions

  /** The POST field that carries the anti-forgery token. */
  const NonceField := "uls_wpnonce"

  /** The new metadata table and the `success` field of the JSON response. */
  datatype SaveOutcome = SaveOutcome(meta: UserMetaTable, success: bool)

  /** The request is refused: empty body, or the host can verify nonces and the posted one fails. */
  predicate Rejected(post: map<string, Value>, hasVerifyNonce: bool, verifyNonce: Value -> bool) {
    post == map[] || (hasVerifyNonce && !verifyNonce(Index(post, Str(NonceField))))
  }

  /** `$options['frontend_language_field_name']` from the raw stored record. */
  function FieldName(stored: map<string, Value>): Value {
    Index(stored, Str("frontend_language_field_name"))
  }

  /** `$_POST[$options['frontend_language_field_name']]`. */
  function Posted(stored: map<string, Value>, post: map<string, Value>): Value {
    Index(post, FieldName(stored))
  }

  /** The key the value is written under (the field name as an array key). */
  function FieldKey(stored: map<string, Value>): string {
    match Offset(FieldName(stored))
    case Some(k) => k
    case None => ""
  }

  /** The condition of the one write. */
  predicate WriteGuard(stored: map<string, Value>, post: map<string, Value>, validLanguage: Value -> bool) {
    UlsOptions.FrontendConfigurable(stored)
    && !Empty(Posted(stored, post))
    && validLanguage(Posted(stored, post))
  }

  /** The handler's effect on the metadata table and its response. */
  function SaveUserLanguageSpec(
    meta: UserMetaTable, post: map<string, Value>, hasVerifyNonce: bool, verifyNonce: Value -> bool,
    validLanguage: Value -> bool, stored: map<string, Value>, uid: int
  ): SaveOutcome
  {
    if Rejected(post, hasVerifyNonce, verifyNonce) then SaveOutcome(meta, false)
    else if WriteGuard(stored, post, validLanguage) then
      SaveOutcome(UpdateUserMeta(meta, uid, FieldKey(stored), Posted(stored, post)), true)
    else SaveOutcome(meta, true)
  }

  /** The handler fails exactly on an empty body or a failed nonce check, and then writes nothing. */
  lemma SaveFailsOnlyWhenRejected(
    meta: UserMetaTable, post: map<string, Value>, hasVerifyNonce: bool, verifyNonce: Value -> bool,
    validLanguage: Value -> bool, stored: map<string, Value>, uid: int)
    ensures var o := SaveUserLanguageSpec(meta, post, hasVerifyNonce, verifyNonce, validLanguage, stored, uid);
            && (!o.success <==> post == map[] || (hasVerifyNonce && !verifyNonce(Index(post, Str("uls_wpnonce")))))
            && (!o.success ==> o.meta == meta)
  {
  }

  /**
   * An accepted request writes the posted value under the configured field
   * name for the current user exactly when the guard holds, and touches no
   * other user or key; when the guard fails the table is unchanged.
   */
  lemma SaveWritesExactlyWhenGuarded(
    meta: UserMetaTable, post: map<string, Value>, hasVerifyNonce: bool, verifyNonce: Value -> bool,
    validLanguage: Value -> bool, stored: map<string, Value>, uid: int)
    requires !Rejected(post, hasVerifyNonce, verifyNonce)
    ensures var o := SaveUserLanguageSpec(meta, post, hasVerifyNonce, verifyNonce, validLanguage, stored, uid);
            var v := Posted(stored, post);
            && o.success
            && (MetaAt(o.meta, uid, FieldKey(stored)) == Some(v)
                <==> WriteGuard(stored, post, validLanguage) || MetaAt(meta, uid, FieldKey(stored)) == Some(v))
            && (forall u, k :: (u != uid || k != FieldKey(stored)) ==> MetaAt(o.meta, u, k) == MetaAt(meta, u, k))
            && (!WriteGuard(stored, post, validLanguage) ==> o.meta == meta)
  {
  }

  /**
   * The guard in raw terms: the stored frontend flag is truthy, the posted
   * value under the stored field name is present and non-empty, and it is a
   * valid language. A field name that is an array never lets a write through.
   */
  lemma WriteGuardMeaning(stored: map<string, Value>, post: map<string, Value>, validLanguage: Value -> bool)
    ensures WriteGuard(stored, post, validLanguage) <==>
              "user_frontend_configuration" in stored && !Empty(stored["user_frontend_configuration"])
              && Offset(FieldName(stored)).Some? && Offset(FieldName(stored)).value in post
              && !Empty(post[Offset(FieldName(stored)).value])
              && validLanguage(post[Offset(FieldName(stored)).value])
    ensures FieldName(stored).Arr? ==> !WriteGuard(stored, post, validLanguage)
  {
  }

  /** A valid, non-empty submission under the default field name stores the value. */
  lemma SaveStoresValidLanguage(
    meta: UserMetaTable, post: map<string, Value>, hasVerifyNonce: bool, verifyNonce: Value -> bool,
    validLanguage: Value -> bool, stored: map<string, Value>, uid: int, code: string)
    requires !Rejected(post, hasVerifyNonce, verifyNonce)
    requires "user_frontend_configuration" in stored && stored["user_frontend_configuration"] == Bool(true)
    requires "frontend_language_field_name" in stored
    requires stored["frontend_language_field_name"] == Str("uls_frontend_language")
    requires "uls_frontend_language" in post && post["uls_frontend_language"] == Str(code)
    requires code != "" && code != "0" && validLanguage(Str(code))
    ensures var o := SaveUserLanguageSpec(meta, post, hasVerifyNonce, verifyNonce, validLanguage, stored, uid);
            o.success && MetaAt(o.meta, uid, "uls_frontend_language") == Some(Str(code))
  {
  }

  /** Saving the same request twice leaves the same table as saving it once. */
  lemma SaveIdempotent(
    meta: UserMetaTable, post: map<string, Value>, hasVerifyNonce: bool, verifyNonce: Value -> bool,
    validLanguage: Value -> bool, stored: map<string, Value>, uid: int)
    ensures var once := SaveUserLanguageSpec(meta, post, hasVerifyNonce, verifyNonce, validLanguage, stored, uid);
            SaveUserLanguageSpec(once.meta, post, hasVerifyNonce, verifyNonce, validLanguage, stored, uid) == once
  {
    var once := SaveUserLanguageSpec(meta, post, hasVerifyNonce, verifyNonce, validLanguage, stored, uid);
    if !Rejected(post, hasVerifyNonce, verifyNonce) && WriteGuard(stored, post, validLanguage) {
      var key, v := FieldKey(stored), Posted(stored, post);
      var inner := if uid in meta then meta[uid] else map[];
      assert once.meta[uid] == inner[key := v];
      assert once.meta[uid][key := v] == inner[key := v];
      assert once.meta[uid := once.meta[uid][key := v]] == once.meta;
    }
  }

  /** The host's per-user metadata storage, updated in place by the handler. */
  class UserMetaStore {
    var meta: UserMetaTable

    constructor (initial: UserMetaTable)
      ensures meta == initial
    {
      meta := initial;
    }

    /**
     * Handle one submission for the user `uid`: `post` is the request body,
     * `hasVerifyNonce` whether the host defines `wp_verify_nonce` and
     * `verifyNonce` its verdict on a token, `validLanguage` the plugin's
     * language-code check and `stored` the raw settings record.
     */
    method SaveUserLanguage(
      post: map<string, Value>, hasVerifyNonce: bool, verifyNonce: Value -> bool,
      validLanguage: Value -> bool, stored: map<string, Value>, uid: int
    ) returns (success: bool)
      modifies this
      ensures var o := SaveUserLanguageSpec(old(meta), post, hasVerifyNonce, verifyNonce, validLanguage, stored, uid);
              meta == o.meta && success == o.success
    {
      if post == map[] || (hasVerifyNonce && !verifyNonce(Index(post, Str(NonceField)))) {
        return false;
      }
      var fieldName := Index(stored, Str("frontend_language_field_name"));
      var value := Index(post, fieldName);
      if Truthy(Index(stored, Str("user_frontend_configuration"))) && !Empty(value) && validLanguage(value) {
        var key := match Offset(fieldName) case Some(k) => k case None => "";
        var row := if uid in meta then meta[uid] else map[];
        meta := meta[uid := row[key := value]];
      }
      return true;
    }
  }
}
