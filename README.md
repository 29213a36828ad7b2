# User Language Switch: the plugin's decision logic in Dafny

This project models the logic of the User Language Switch WordPress plugin's
general functions. Logged-in users pick a preferred frontend language, which is
stored as user metadata. A translated URL is found through the mapping table
configured by the administrator. Four pieces of logic are modelled:

- **Options merge** (`uls_get_options`, module `UlsOptions`). The stored
  `uls_settings` record is merged over a table of seven defaults. This is map
  union, and the stored value wins on a shared key.
- **Language switch form** (`uls_create_user_language_switch_form`, module
  `UlsForm`). The model covers the two guards, the fallbacks of the four
  display strings, the choice of the preselected language, and the loop that
  turns the ordered list of available languages into `<option>` entries. The
  result is a `FormData` record holding `(code, name, selected)` entries in
  place of HTML. It is `None` where the PHP function returns `null`. A method
  with the loop, `CreateUserLanguageSwitchForm`, is proved equal to the
  specification function `SwitchForm`.
- **Submission handler** (`uls_save_user_language`, module `UlsSave`). This is
  a class `UserMetaStore` whose field `meta` maps user id to meta key to value.
  Its method `SaveUserLanguage` updates that field and returns the `success`
  flag of the JSON response. The method is proved equal to the pure
  transition `SaveUserLanguageSpec`.
- **URL map lookup** (`uls_get_url_map_translation`, module `UlsTranslation`).
  This is a nested lookup `translation_mapping[language][url]` with PHP's
  `isset` semantics, returning `false` on a miss. `GetUrlMapTranslation`
  first resolves the language with `ResolveLanguage`: an invalid language is
  replaced by the current one. It then reads the entry with `MappedUrl`.

Module `PhpValues` holds the PHP values involved: null, booleans, strings, and
arrays with string keys. It also defines `empty()`, boolean conversion, `==`
of a string against a value, array-key conversion (null is `""`, true is
`"1"`, an array is an illegal offset that reads as null, as in PHP 7), and
`isset` along a path. Module `UlsUserMeta` holds the per-user metadata table
with its reads (`get_user_meta`) and its write (`update_user_meta`), shared by
the form and the handler. The frontend flag test `FrontendConfigurable`,
which both apply to the raw record, is defined once in `UlsOptions`. Module
`UlsRoundTrip` relates the operations to each other.

The host platform becomes parameters:

- `is_user_logged_in` is a boolean.
- `get_current_user_id` is a user id.
- The stored `uls_settings` record is a map.
- User metadata is a map from user id to a map of meta keys.
- `function_exists('wp_nonce_field')` and `function_exists('wp_verify_nonce')` are booleans.
- `wp_verify_nonce` and `uls_valid_language` are functions `Value -> bool`.
- `uls_get_available_languages` is an ordered list of `(name, code)` pairs.
- `uls_get_user_language` is a value.

Three facts about the code shape the model:

- The form, the handler and the lookup all read the raw `get_option('uls_settings')`.
  None of them calls `uls_get_options` (uls-functions.php:47, 130, 154), so the
  defaults are not applied. An empty stored record yields no form and no write, although
  the merged defaults enable both (`UlsRoundTrip.FormIgnoresDefaults`,
  `UlsRoundTrip.SaveIgnoresDefaults`).
- The form's `$default_language` argument is documented as the selector's
  default value in the function's own comment (uls-functions.php:33). The body
  (uls-functions.php:42-115) never uses it (`UlsForm.SwitchFormIgnoresDefaultLanguage`).
- The form reads the meta key `uls_frontend_language`, which is hard-coded.
  The handler writes under the configured `frontend_language_field_name`. A
  saved language shows up in the next form only when the two names agree
  (`UlsRoundTrip.SavedLanguageIsPreselected`,
  `UlsRoundTrip.SavedUnderOtherNameIsNotPreselected`).

## Model

| member | source | states |
|---|---|---|
| `UlsOptions.GetOptions` | uls-functions.php:11-28 | The merged options have exactly the default keys plus the stored keys. A stored value always wins. A default shows through exactly where the stored record lacks the key. |
| `UlsOptions.GetOptionsHasEveryDefault` | uls-functions.php:16-27 | All seven recognised settings are present after the merge, whatever was stored. |
| `UlsOptions.GetOptionsKeepsTranslationMapping` | uls-functions.php:16-27 | `translation_mapping` is not a default. It is in the merge iff it was stored, with the stored value. |
| `UlsOptions.GetOptionsIdempotent` | uls-functions.php:27 | Merging an already merged record with the defaults again changes nothing. |
| `UlsOptions.GetOptionsOfEmpty` | uls-functions.php:13-27 | An empty stored record merges to exactly the default table. |
| `UlsForm.CreateUserLanguageSwitchForm` | uls-functions.php:41-116 | The method with the guards, the reassignments and the loop over the available languages returns exactly the form data `SwitchForm` specifies. |
| `UlsForm.OptionEntriesAt` | uls-functions.php:79-85 | The option list has one entry per available language, in order, with that language's code and name. Entry i is selected iff its code loosely equals the preselected language. |
| `UlsForm.SwitchFormNotLoggedIn` | uls-functions.php:43-44 | A user who is not logged in gets no form, whatever the stored record, metadata and arguments. |
| `UlsForm.SwitchFormGuard` | uls-functions.php:43-50 | There is a form iff the user is logged in and the raw stored `user_frontend_configuration` is present and not empty. |
| `UlsForm.SwitchFormLabels` | uls-functions.php:53-56 | Each of label, submit label, success message and error message is the caller's value when non-empty, else its fixed default string. None of them is empty. |
| `UlsForm.SwitchFormPreselects` | uls-functions.php:59-62 | The preselected language is the user's stored `uls_frontend_language` when non-empty. Otherwise it is the raw stored `default_frontend_language`, or null when that is absent. |
| `UlsForm.SwitchFormIgnoresDefaultLanguage` | uls-functions.php:33-41 | Two calls that differ only in the `$default_language` argument give the same form. |
| `UlsForm.SwitchFormOptions` | uls-functions.php:79-85 | The form's options correspond one-to-one and in order to the available languages. An option is selected iff its code loosely equals (PHP `==`) the form's preselected language. |
| `UlsUserMeta.UpdateUserMeta` | uls-functions.php:134 | The write sets the user's value under the key and leaves every other (user, key) pair as it was. |
| `UlsSave.SaveFailsOnlyWhenRejected` | uls-functions.php:124-127 | The response is `success = false` iff the body is empty, or the host verifies nonces and the posted `uls_wpnonce` fails. A failed request leaves all metadata unchanged. |
| `UlsSave.SaveWritesExactlyWhenGuarded` | uls-functions.php:130-137 | An accepted request always reports success. The current user's value under the field name becomes the posted value only through the guard. No other user or key changes. A failed guard changes nothing. |
| `UlsSave.WriteGuardMeaning` | uls-functions.php:133 | The raw guard holds iff the stored frontend flag is truthy and the POST value under the stored field name exists, is non-empty and is a valid language. An array-valued field name never passes (PHP 7 offset rules). |
| `UlsSave.SaveStoresValidLanguage` | uls-functions.php:133-136 | Under the default field name, a valid non-empty code posted with the flag on is stored for the current user, and the response is a success. |
| `UlsSave.SaveIdempotent` | uls-functions.php:133-134 | Handling the same request twice gives the same metadata and response as handling it once. |
| `UlsSave.UserMetaStore.SaveUserLanguage` | uls-functions.php:122-138 | The handler method updates the store's metadata and returns the success flag exactly as `SaveUserLanguageSpec` specifies. |
| `UlsTranslation.DigNotNull` | uls-functions.php:155-156 | A value read along a path whose `isset` holds is never null. |
| `UlsTranslation.IsSetPath3` | uls-functions.php:155 | `isset($v[$a][$b][$c])` holds iff each level is an array with the key present and the last value is not null. The read then yields that value. |
| `UlsTranslation.MappedUrlCases` | uls-functions.php:154-158 | For a language code and a URL, the lookup returns `mapping[language][url]` when every level exists and the entry is not null. In every other case it returns `false`. |
| `UlsTranslation.GetUrlMapTranslation` | uls-functions.php:148-159 | A language the validity check accepts is looked up as given. A language it rejects is replaced by the current language before the lookup. |
| `UlsTranslation.GetUrlMapTranslationNullLanguage` | uls-functions.php:144-151 | A null language is replaced by the current language, provided the validity check rejects null. |
| `UlsTranslation.GetUrlMapTranslationSentinel` | uls-functions.php:155-158 | The result is never null. Any result other than `false` comes from a set entry. An empty string comes only from an entry that holds the empty string. |
| `UlsTranslation.GetUrlMapTranslationIgnoresDefaults` | uls-functions.php:154-158 | Looking up in the raw record or in the merged record gives the same result. |
| `UlsRoundTrip.SavedLanguageIsPreselected` | uls-functions.php:59-134 | With the default field name, an accepted and guarded submission makes the next form for that user preselect the posted value. Each option is then selected iff its code loosely equals (PHP `==`) that value. |
| `UlsRoundTrip.SavedUnderOtherNameIsNotPreselected` | uls-functions.php:59-134 | With the field name `my_language`, a saved `fr` is stored under `my_language`. The next form still preselects the stored default `en`. |
| `UlsRoundTrip.FormIgnoresDefaults` | uls-functions.php:47-50 | With an empty stored record the form is `None`. The merged defaults would have given a form. |
| `UlsRoundTrip.SaveIgnoresDefaults` | uls-functions.php:130-134 | With an empty stored record an accepted request writes nothing. Under the merged defaults a valid `uls_frontend_language` value would be stored. |

## Left out

- Markup is not modelled: the HTML form, the inline jQuery `ajaxForm` script, `wp_enqueue_script`, output buffering, `echo`, `exit` and `json_encode`. The form is modelled as its data and the handler's response as its `success` flag.
- WordPress APIs are not modelled; they are parameters or maps: `get_option`, `get_user_meta`, `update_user_meta`, `is_user_logged_in`, `get_current_user_id`, `wp_nonce_field`, `wp_verify_nonce` and `admin_url`.
- `__()` is taken to return its argument untranslated, because translation catalogues belong to the host.
- `uls_valid_language`, `uls_get_available_languages` and `uls_get_user_language` are not part of this model. They are arbitrary parameters.
- `UlsUserMeta.UpdateUserMeta`: does not model WordPress's own refusal to write under an empty meta key, or its other internal behaviour. The write is a plain map update.
- A missing stored record (`get_option` returning `false`) is not modelled. The record is always a map. The code does not handle that case, and `array_merge` on `false` is a PHP error.
- PHP semantics are simplified: the value model has no integers or floats, and array keys are strings.
- Loose `==` between two strings compares them exactly. PHP's comparison of two numeric strings (`"1e1" == "10"`) is not modelled.
- PhpValues.Index, PhpValues.Offset: follow PHP 7's rules for an array used as an array key: it reads as null, and `empty`/`isset` treat it as unset. From PHP 8.0 such a key throws a TypeError. In the handler (uls-functions.php:133) that ends the request with no JSON response; in the lookup (uls-functions.php:155) it ends the call. The model instead reports success with no write, or returns `false`. The PHP 8 TypeError is not modelled.
- UlsTranslation.GetUrlMapTranslationNullLanguage: assumes that `uls_valid_language(null)` is false. That function is not part of this model, so the replacement of a null language that its comment promises (uls-functions.php:144) is proved only under this assumption. If the check accepted null, null would be looked up as given.
- String offsets in `isset` are not modelled: a string found where the lookup expects an array counts as not set.
- PHP turns a decimal-string key such as `"5"` into the integer key 5, and `array_merge` renumbers integer keys, so a stored `"5"` comes out as key 0. The model keeps every key as a string, and `GetOptions` keeps `"5"`. `Offset` follows the same string convention: true becomes the key `"1"`, not the integer 1.
- Concurrent requests and last-write-wins across requests belong to the host platform and are not modelled.
