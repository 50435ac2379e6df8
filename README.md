# Translation gateway: request handlers and result cache

This project models the request handlers of a small Flask translation
gateway (`main.py`). The main handler is `POST /translate`, which works in
four steps:

1. It validates the `text`, `target_lang` and `translator` fields of the JSON body.
2. It builds a string cache key `translator:source:target:text`.
3. It looks the key up in a process-wide dictionary whose entries stay valid for one hour.
4. On a miss or a stale entry, it calls the selected translation provider and stores the result with the time of the request.

The sibling handlers `GET /getLang`, `POST /translate_url` and
`POST /detect_language` are modelled for their validation and their error
messages.

Structure:

- `py_values.dfy` (module `PyValues`) covers the Python value semantics the handlers rely on:
  - `dict.get` with a default. The default is used only for an absent key; a JSON `null` stays `None`.
  - Truthiness: `not v` holds for `None` and for `""`.
  - f-string rendering: `None` renders as `"None"`.
- `translation_api.dfy` (module `TranslationApi`) holds:
  - the translator registry;
  - the validation shared by `/translate` and `/translate_url`;
  - the cache key and the freshness test;
  - `TranslateStep`, a function that describes one `/translate` request;
  - the class `TranslationService`, whose `cache: map<string, Entry>` field is overwritten in place by its `Translate` method. The method is proved to follow `TranslateStep`;
  - the other three handlers, as functions.
- `translate_properties.dfy` (module `TranslateProperties`) holds lemmas about `TranslateStep` and the cache key. They cover validation order, hits, stale entries, provider success and failure, two requests in a row, and key collisions.

Time is an integer count of microseconds, the resolution of Python's
`datetime`. `OneHour` is 3 600 000 000. The time of the request is one
parameter, used both for the freshness test and as the stored timestamp, as
`current_time` is in the source. The translation providers, the URL fetcher
and the language detector are function parameters. Each returns `Ok(value)`
or `Failed(message)`, where `message` stands for `str(e)` of the exception
raised.

`Translate` returns the provider call it made, if any, as an
`Option<ProviderCall>`. That way "no provider call" can be stated. A
`ProviderCall` also records whether the provider class was built with
`target=` only (source `"auto"`) or with `source=` and `target=`.

On these points the model follows the code as written:

- Order of the checks. The code reports a missing `text` or `target_lang`
  before it checks the translator. So a request that lacks both gets
  "Missing text or target language".
- Shape of the cache key. The key is a plain string join, not a tuple, so
  it is not injective. A `:` inside the source or the target can make two
  different requests share a key (`ColonCollisionServesOtherTranslation`).
- A JSON `null` source language. It is not replaced by the `"auto"`
  default. It renders as `"None"` in the key, and the provider is built
  with `source=None` (`NullSourceSharesKey`).
- No eviction. Entries are never removed, only overwritten by a later
  successful call for the same key, so the cache grows without bound
  (`StaleEntryIsMiss`, `ProviderSuccessStored`).
- Validation messages. `/translate_url` uses its own message,
  "Missing URL or target language", and `/detect_language` uses
  "Missing text".

## Model

| member | source | states |
|---|---|---|
| `PyValues.Get` | main.py:58-61 | `data.get(key, default)` gives the default only for an absent key; a field present with JSON null gives `None`, not the default (consequences in `DefaultsApplied` and `NullSourceSharesKey`) |
| `PyValues.Falsy` | main.py:63 | `not v` is false exactly for a non-empty string, so a validated text or target is a non-empty string |
| `PyValues.Render` | main.py:69 | inside the f-string a string renders as itself and `None` as "None" |
| `TranslationApi.CacheKey` | main.py:69 | the key starts with the translator's name and ':', ends with ':' and the text, and is three characters longer than the rendered fields together; when it identifies the request is stated by `CacheKeyInjective` |
| `TranslationApi.IsFresh` | main.py:74 | an entry stamped at or after `now` is fresh, one from less than an hour before is fresh, one an hour old or older is stale |
| `TranslationApi.CheckTranslate` | main.py:57-67 | with source defaulting to "auto" and translator to "google": "Missing text or target language" exactly when text or target is missing or empty; "Unsupported translator" exactly when both are present and the translator is not in the registry; a request is accepted exactly when text and target are non-empty strings and the translator is in the registry, and then its fields are carried over unchanged |
| `TranslationApi.CheckUrl` | main.py:91-101 | the same for /translate_url with the url field and the message "Missing URL or target language", including acceptance exactly when url and target are non-empty strings and the translator is in the registry |
| `TranslationApi.Supported` | main.py:26-30 | a translator name is accepted exactly when it is one of google, microsoft, pons, and it selects the registry entry of that name |
| `TranslationApi.CheckFields` | main.py:63-67 | a missing or empty text (or URL) or target is rejected with the handler's own message whatever the translator; otherwise an unsupported translator is rejected with "Unsupported translator"; otherwise the request is accepted and its fields are carried over unchanged |
| `TranslationApi.ProviderCallFor` | main.py:78-81 | the provider is built with the target only when the source is "auto", and with source and target otherwise; the translator, target and text are passed through |
| `TranslationApi.Lookup` | main.py:72-75 | a lookup hits exactly when the key is present and `now - stamp` is under one hour (a signed difference), and then returns the stored text |
| `TranslationApi.TranslateStep` | main.py:56-86 | without a provider call the cache is unchanged; the cache changes exactly when the response is an "api" translation, and then only at the request's key, which now holds that text stamped with `now` |
| `TranslationApi.TranslationService.constructor` | main.py:33 | the cache starts empty |
| `TranslationApi.TranslationService.Translate` | main.py:69-86 | the response, the provider call and the new cache are those of `TranslateStep` on the old cache; no provider call means an unchanged cache |
| `TranslationApi.GetLang` | main.py:46-52 | the translator defaults to google; an unsupported name gives "Unsupported translator"; a supported one gives that translator's language list, and an exception while obtaining it is not caught (a 500) |
| `TranslationApi.TranslateUrl` | main.py:90-111 | a rejected request gives its validation message without fetching or translating; a translation is returned only when the fetch succeeded and the provider, built as for /translate, returned it; after validation, a failed fetch gives "URL translation failed: " plus the fetch's message, and a failed provider gives the prefix plus the provider's message; no cache is read or written |
| `TranslationApi.DetectLanguage` | main.py:115-126 | "Missing text" exactly when the text is missing or empty; a detected language is the detector's answer; a detector failure gives "Language detection failed: " followed by its message |
| `TranslateProperties.MissingFieldsRejected` | main.py:63-64 | missing or empty text or target: 400 "Missing text or target language", no provider call, cache unchanged, for any translator value |
| `TranslateProperties.UnsupportedTranslatorRejected` | main.py:66-67 | with text and target present, a translator outside the registry: 400 "Unsupported translator", no provider call, cache unchanged |
| `TranslateProperties.DefaultsApplied` | main.py:58-61 | absent source and translator fields select google and "auto", giving the key "google:auto:target:text" and a provider built with the target only |
| `TranslateProperties.ErrorKindsDistinguishable` | main.py:63-86 | a 400 from /translate carries the "Translation failed: " prefix exactly when a provider call was made |
| `TranslateProperties.FreshEntryServed` | main.py:72-75 | a present entry younger than one hour is returned with source "cache", with no provider call and an unchanged cache |
| `TranslateProperties.FutureEntryServed` | main.py:74 | an entry stamped later than `now` (the clock stepped back) is still served from the cache |
| `TranslateProperties.StaleEntryIsMiss` | main.py:72-83 | a stale entry gives the same response and provider call as a missing one; it stays in the cache unless a successful call overwrites it |
| `TranslateProperties.ProviderSuccessStored` | main.py:77-84 | on a miss with a successful provider, the response is the translation with source "api", the key holds (translation, now), and every other key is unchanged |
| `TranslateProperties.ProviderFailureKeepsCache` | main.py:85-86 | on a miss with a failing provider, the response is 400 "Translation failed: " plus the message and the cache is unchanged |
| `TranslateProperties.RepeatWithinHourHitsCache` | main.py:70-84 | after a successful call, the identical request less than one hour later is answered from the cache with the same text and no provider call |
| `TranslateProperties.RepeatAfterHourCallsProvider` | main.py:72-84 | one hour or more after a successful call, the identical request calls the provider again the same way and returns its new answer with source "api" |
| `TranslateProperties.CacheKeyInjective` | main.py:69 | when the rendered source and the target contain no ':', two requests share a key exactly when translator, rendered source, target and text agree |
| `TranslateProperties.ColonCollisionServesOtherTranslation` | main.py:69 | text "x:y" with target "fr" and text "y" with target "fr:x" are different requests with the same key, and the second is served the first one's translation |
| `TranslateProperties.NullSourceSharesKey` | main.py:59 | a null source and the literal source "None" share a cache key but build different providers |

## Left out

- Rate limiting: the global 200/day and 50/hour limits and the per-route limits. The counting is done by the `flask_limiter` library, whose algorithm is not part of this model.
- Memoization of the language lists (`lru_cache` on `get_supported_languages`). A language list, or the exception raised while obtaining it, is a given function of the translator (`GetLang`'s `languagesOf` parameter). So the model does not capture that a raised exception is not memoized and the next request retries.
- `get_text_from_url`. The HTTP fetch and the HTML text extraction are the `fetch` parameter of `TranslateUrl`.
- The `deep_translator` provider classes and `langdetect.detect`. Network and heuristic code is represented by its outcome only.
- Flask routing, `request.json`, `jsonify`, status codes and `load_dotenv`. `BadRequest`, `LangError`, `UrlError` and `DetectError` stand for the 400 responses, and `ServerError` for the 500 that an uncaught exception produces.
- JSON values that are not strings or null (numbers, booleans, lists, objects). In the source most of them take the paths the model has for strings:
  - a falsy one (`0`, `false`, `[]`, `{}`) as text or target gives "Missing text or target language";
  - a hashable non-string translator gives "Unsupported translator";
  - a non-empty non-string text passes validation and is rendered with `str()` into the key, so text `5` can be served the cached translation of the string "5"; otherwise its provider exception gives "Translation failed: …".
  Only an unhashable translator (a list or object) and a JSON body that is not an object raise exceptions this code does not catch (500).
- A request without a JSON body. Reading `request.json` at main.py:57 then fails inside Flask, and the response depends on the Flask version: a 400 or 415 raised by Flask itself, or `None` followed by an uncaught error at `data.get` (a 500).
- A provider that returns something other than a string.
- Concurrent requests sharing the cache. The model has one sequential caller.
- `datetime.now()`. It becomes the integer parameter `now`, and no floating-point durations are used.
