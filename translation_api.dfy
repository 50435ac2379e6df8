/**
  The request handlers of the translation gateway: field validation, the
  choice of translator, the translation result cache with its one-hour
  time-to-live, and the error messages each handler returns.

  Time is an integer count of microseconds (the resolution of Python's
  `datetime`); the translation providers, the URL fetcher and the language
  detector are parameters whose outcome is either a value or a failure
  message.
 */
module TranslationApi {
  import opened PyValues

  datatype Option<T> = None | Some(value: T)

  // ---------------------------------------------------------------------
  // Translators

  /** The keys of the registry of supported translators. */
  datatype Translator = Google | Microsoft | Pons

  const SupportedNames: set<string> := {"google", "microsoft", "pons"}

  function Name(t: Translator): string {
    match t
    case Google => "google"
    case Microsoft => "microsoft"
    case Pons => "pons"
  }

  /** `translator in SUPPORTED_TRANSLATORS`, and which registry entry it selects. */
  function Supported(v: PyVal): (r: Option<Translator>)
    ensures r.Some? <==> v.PyStr? && v.s in SupportedNames
    ensures r.Some? ==> v == PyStr(Name(r.value))
  {
    if v == PyStr("google") then Some(Google)
    else if v == PyStr("microsoft") then Some(Microsoft)
    else if v == PyStr("pons") then Some(Pons)
    else None
  }

  // ---------------------------------------------------------------------
  // Messages

  const MissingTextOrTarget := "Missing text or target language"
  const MissingUrlOrTarget := "Missing URL or target language"
  const MissingText := "Missing text"
  const UnsupportedTranslator := "Unsupported translator"
  const TranslationFailed := "Translation failed: "
  const UrlTranslationFailed := "URL translation failed: "
  const DetectionFailed := "Language detection failed: "

  // ---------------------------------------------------------------------
  // Collaborators

  /** What an external call produced: a value, or the text of the exception it raised. */
  datatype Outcome = Ok(value: string) | Failed(message: string)

  /**
    One provider call: the translator class, how it was constructed and the
    text passed to `translate`. The class is built with `target=` only when
    the request's source is "auto" (then `source` here is `None`), and with
    `source=` and `target=` otherwise (then `source` is `Some` of the
    request's value, which may be a JSON null).
   */
  datatype ProviderCall = ProviderCall(translator: Translator, source: Option<PyVal>, target: string, text: string)

  // ---------------------------------------------------------------------
  // Validation shared by /translate and /translate_url

  /** A validated request: translator, source language (default "auto"), target language and the text or URL. */
  datatype Job = Job(translator: Translator, source: PyVal, target: string, subject: string)

  datatype Checked = Rejected(error: string) | Accepted(job: Job)

  /**
    The two validation steps of /translate and /translate_url: a missing or
    empty text (or URL) or target language is reported first, with the
    handler's own message, whatever the translator; only then is the
    translator checked against the registry.
   */
  function CheckFields(subject: PyVal, source: PyVal, target: PyVal, translator: PyVal, missing: string): (r: Checked)
    ensures Falsy(subject) || Falsy(target) ==> r == Rejected(missing)
    ensures (!Falsy(subject) && !Falsy(target) && !(translator.PyStr? && translator.s in SupportedNames))
            ==> r == Rejected(UnsupportedTranslator)
    ensures r.Accepted? <==> !Falsy(subject) && !Falsy(target) && translator.PyStr? && translator.s in SupportedNames
    ensures r.Accepted? ==>
              && PyStr(r.job.subject) == subject && PyStr(r.job.target) == target
              && r.job.source == source && PyStr(Name(r.job.translator)) == translator
  {
    if Falsy(subject) || Falsy(target) then Rejected(missing)
    else match Supported(translator)
      case None => Rejected(UnsupportedTranslator)
      case Some(t) => Accepted(Job(t, source, target.s, subject.s))
  }

  /** How a validated request is handed to the provider: `source` is passed unless it is "auto". */
  function ProviderCallFor(job: Job, text: string): (c: ProviderCall)
    ensures c.source.None? <==> job.source == PyStr("auto")
    ensures c.source.Some? ==> c.source.value == job.source
    ensures c.translator == job.translator && c.target == job.target && c.text == text
  {
    if job.source == PyStr("auto") then ProviderCall(job.translator, None, job.target, text)
    else ProviderCall(job.translator, Some(job.source), job.target, text)
  }

  // ---------------------------------------------------------------------
  // POST /translate: request fields, cache key and freshness

  datatype TranslateRequest = TranslateRequest(text: Field, sourceLang: Field, targetLang: Field, translator: Field)

  function TextOf(req: TranslateRequest): PyVal { Get(req.text, PyNone) }
  function SourceOf(req: TranslateRequest): PyVal { Get(req.sourceLang, PyStr("auto")) }
  function TargetOf(req: TranslateRequest): PyVal { Get(req.targetLang, PyNone) }
  function TranslatorOf(req: TranslateRequest): PyVal { Get(req.translator, PyStr("google")) }

  /** Field defaults of /translate (source "auto", translator "google") followed by its validation. */
  function CheckTranslate(req: TranslateRequest): (r: Checked)
    ensures r == Rejected(MissingTextOrTarget) <==> Falsy(TextOf(req)) || Falsy(TargetOf(req))
    ensures r == Rejected(UnsupportedTranslator)
            <==> !Falsy(TextOf(req)) && !Falsy(TargetOf(req)) && Supported(TranslatorOf(req)).None?
    ensures r.Accepted? <==> !Falsy(TextOf(req)) && !Falsy(TargetOf(req)) && Supported(TranslatorOf(req)).Some?
    ensures r.Accepted? ==>
              && PyStr(r.job.subject) == Get(req.text, PyNone) && PyStr(r.job.target) == Get(req.targetLang, PyNone)
              && r.job.source == Get(req.sourceLang, PyStr("auto"))
              && PyStr(Name(r.job.translator)) == Get(req.translator, PyStr("google"))
  {
    CheckFields(TextOf(req), SourceOf(req), TargetOf(req), TranslatorOf(req), MissingTextOrTarget)
  }

  /**
    The cache key: the four fields joined by ':' exactly as the f-string
    renders them. It starts with the translator's name and a ':', ends with
    a ':' and the text, and is three characters longer than the rendered
    fields together; TranslateProperties.CacheKeyInjective says when it
    identifies the request.
   */
  function CacheKey(job: Job): (k: string)
    ensures |k| == |Name(job.translator)| + |Render(job.source)| + |job.target| + |job.subject| + 3
    ensures k[..|Name(job.translator)| + 1] == Name(job.translator) + ":"
    ensures k[|k| - |job.subject| - 1..] == ":" + job.subject
  {
    Name(job.translator) + ":" + Render(job.source) + ":" + job.target + ":" + job.subject
  }

  /** A cached translation and the time it was stored. */
  datatype Entry = Entry(text: string, stamp: int)

  /** `timedelta(hours=1)` in microseconds. */
  const OneHour: int := 3_600_000_000

  /** `current_time - timestamp < timedelta(hours=1)`: a signed difference, so an entry stamped later than now is fresh. */
  function IsFresh(now: int, stamp: int): (young: bool)
    ensures stamp >= now ==> young
    ensures 0 <= now - stamp < OneHour ==> young
    ensures now - stamp >= OneHour ==> !young
  {
    now - stamp < OneHour
  }

  /** The cache read: a hit only for a present entry younger than one hour; a stale entry reads as a miss. */
  function Lookup(cache: map<string, Entry>, key: string, now: int): (r: Option<string>)
    ensures r.Some? <==> key in cache && IsFresh(now, cache[key].stamp)
    ensures r.Some? ==> r.value == cache[key].text
  {
    if key in cache && IsFresh(now, cache[key].stamp) then Some(cache[key].text) else None
  }

  // ---------------------------------------------------------------------
  // POST /translate: one request, as a function of the cache before it

  datatype TranslateResponse = Translated(translatedText: string, source: string) | BadRequest(error: string)

  /** The response, the provider call made (if any) and the cache afterwards. */
  datatype Step = Step(response: TranslateResponse, call: Option<ProviderCall>, cache: map<string, Entry>)

  /**
    One /translate request against `cache` at time `now`. Rejected requests
    and fresh hits make no provider call and leave the cache alone; a
    successful provider call is the only way the cache changes, and then it
    changes exactly at the request's key.
   */
  function TranslateStep(cache: map<string, Entry>, req: TranslateRequest, now: int, provider: ProviderCall -> Outcome): (s: Step)
    ensures s.call.None? ==> s.cache == cache
    ensures s.cache != cache <==> s.response.Translated? && s.response.source == "api"
    ensures s.cache != cache ==>
              && s.call.Some? && CheckTranslate(req).Accepted?
              && s.cache == cache[CacheKey(CheckTranslate(req).job) := Entry(s.response.translatedText, now)]
  {
    match CheckTranslate(req)
    case Rejected(e) => Step(BadRequest(e), None, cache)
    case Accepted(job) =>
      var key := CacheKey(job);
      match Lookup(cache, key, now)
      case Some(t) => Step(Translated(t, "cache"), None, cache)
      case None =>
        var call := ProviderCallFor(job, job.subject);
        match provider(call)
        case Ok(t) =>
          assert key !in cache || cache[key] != Entry(t, now);
          Step(Translated(t, "api"), Some(call), cache[key := Entry(t, now)])
        case Failed(m) => Step(BadRequest(TranslationFailed + m), Some(call), cache)
  }

  /**
    The process-wide translation cache and the /translate handler that
    reads and overwrites its entries in place.
   */
  class TranslationService {
    var cache: map<string, Entry>

    constructor ()
      ensures cache == map[]
    {
      cache := map[];
    }

    method Translate(req: TranslateRequest, now: int, provider: ProviderCall -> Outcome)
        returns (response: TranslateResponse, call: Option<ProviderCall>)
      modifies this
      ensures Step(response, call, cache) == TranslateStep(old(cache), req, now, provider)
      ensures call.None? ==> cache == old(cache)
    {
      call := None;
      var checked := CheckTranslate(req);
      if checked.Rejected? {
        response := BadRequest(checked.error);
        return;
      }
      var job := checked.job;
      var key := CacheKey(job);
      if key in cache {
        var entry := cache[key];
        if IsFresh(now, entry.stamp) {
          response := Translated(entry.text, "cache");
          return;
        }
      }
      var c := ProviderCallFor(job, job.subject);
      call := Some(c);
      var outcome := provider(c);
      match outcome
      case Ok(t) =>
        cache := cache[key := Entry(t, now)];
        response := Translated(t, "api");
      case Failed(m) =>
        response := BadRequest(TranslationFailed + m);
    }
  }

  // ---------------------------------------------------------------------
  // GET /getLang, POST /translate_url, POST /detect_language

  /** What building a translator and asking for its language list produced: the list, or the exception raised. */
  datatype LangList = Listed(languages: map<string, string>) | Raised(message: string)

  /** `ServerError` is an exception that the handler does not catch, so Flask answers it with a 500. */
  datatype LangResponse = Languages(languages: map<string, string>) | LangError(error: string) | ServerError(message: string)

  /**
    GET /getLang: the query parameter defaults to "google"; an unsupported
    name is a 400. For a supported one, the language list of that
    translator (a given function of the translator) is returned, and an
    exception while obtaining it is not caught.
   */
  function GetLang(arg: Option<string>, languagesOf: Translator -> LangList): (r: LangResponse)
    ensures var name := if arg.Some? then arg.value else "google";
            && (r.LangError? <==> name !in SupportedNames)
            && (r.LangError? ==> r.error == UnsupportedTranslator)
            && (!r.LangError? ==> Name(Supported(PyStr(name)).value) == name)
            && (r.Languages? ==> languagesOf(Supported(PyStr(name)).value) == Listed(r.languages))
            && (r.ServerError? ==> languagesOf(Supported(PyStr(name)).value) == Raised(r.message))
  {
    var name := if arg.Some? then arg.value else "google";
    match Supported(PyStr(name))
    case None => LangError(UnsupportedTranslator)
    case Some(t) =>
      match languagesOf(t)
      case Listed(languages) => Languages(languages)
      case Raised(m) => ServerError(m)
  }

  datatype UrlRequest = UrlRequest(url: Field, sourceLang: Field, targetLang: Field, translator: Field)

  datatype UrlResponse = UrlTranslated(translatedText: string) | UrlError(error: string)

  /** Field defaults of /translate_url (source "auto", translator "google") followed by its validation. */
  function CheckUrl(req: UrlRequest): (r: Checked)
    ensures r == Rejected(MissingUrlOrTarget) <==> Falsy(Get(req.url, PyNone)) || Falsy(Get(req.targetLang, PyNone))
    ensures r == Rejected(UnsupportedTranslator)
            <==> && !Falsy(Get(req.url, PyNone)) && !Falsy(Get(req.targetLang, PyNone))
                 && Supported(Get(req.translator, PyStr("google"))).None?
    ensures r.Accepted?
            <==> && !Falsy(Get(req.url, PyNone)) && !Falsy(Get(req.targetLang, PyNone))
                 && Supported(Get(req.translator, PyStr("google"))).Some?
    ensures r.Accepted? ==>
              && PyStr(r.job.subject) == Get(req.url, PyNone) && PyStr(r.job.target) == Get(req.targetLang, PyNone)
              && r.job.source == Get(req.sourceLang, PyStr("auto"))
              && PyStr(Name(r.job.translator)) == Get(req.translator, PyStr("google"))
  {
    CheckFields(Get(req.url, PyNone), Get(req.sourceLang, PyStr("auto")), Get(req.targetLang, PyNone),
                Get(req.translator, PyStr("google")), MissingUrlOrTarget)
  }

  /**
    POST /translate_url: validate, fetch the page text, translate it with the
    same provider construction as /translate. Nothing is cached. A failure of
    the fetch or of the provider is a 400 with the URL prefix.
   */
  function TranslateUrl(req: UrlRequest, fetch: string -> Outcome, provider: ProviderCall -> Outcome): (r: UrlResponse)
    ensures CheckUrl(req).Rejected? ==> r == UrlError(CheckUrl(req).error)
    ensures r.UrlTranslated? ==>
              && CheckUrl(req).Accepted? && fetch(CheckUrl(req).job.subject).Ok?
              && provider(ProviderCallFor(CheckUrl(req).job, fetch(CheckUrl(req).job.subject).value)) == Ok(r.translatedText)
    ensures CheckUrl(req).Accepted? && r.UrlError? ==>
              && UrlTranslationFailed <= r.error
              && (fetch(CheckUrl(req).job.subject).Ok? ==>
                    provider(ProviderCallFor(CheckUrl(req).job, fetch(CheckUrl(req).job.subject).value)).Failed?)
    ensures CheckUrl(req).Accepted? && fetch(CheckUrl(req).job.subject).Failed? ==>
              r == UrlError(UrlTranslationFailed + fetch(CheckUrl(req).job.subject).message)
    ensures && CheckUrl(req).Accepted? && fetch(CheckUrl(req).job.subject).Ok?
            && provider(ProviderCallFor(CheckUrl(req).job, fetch(CheckUrl(req).job.subject).value)).Failed? ==>
              r == UrlError(UrlTranslationFailed
                            + provider(ProviderCallFor(CheckUrl(req).job, fetch(CheckUrl(req).job.subject).value)).message)
  {
    match CheckUrl(req)
    case Rejected(e) => UrlError(e)
    case Accepted(job) =>
      match fetch(job.subject)
      case Failed(m) => UrlError(UrlTranslationFailed + m)
      case Ok(text) =>
        match provider(ProviderCallFor(job, text))
        case Ok(t) => UrlTranslated(t)
        case Failed(m) => UrlError(UrlTranslationFailed + m)
  }

  datatype DetectResponse = Detected(language: string) | DetectError(error: string)

  /** POST /detect_language: a missing or empty text is a 400; a detector failure is a 400 with the detection prefix. */
  function DetectLanguage(text: Field, detect: string -> Outcome): (r: DetectResponse)
    ensures r == DetectError(MissingText) <==> Falsy(Get(text, PyNone))
    ensures r.Detected? ==> detect(Get(text, PyNone).s) == Ok(r.language)
    ensures r.DetectError? && !Falsy(Get(text, PyNone)) ==>
              && detect(Get(text, PyNone).s).Failed?
              && r.error == DetectionFailed + detect(Get(text, PyNone).s).message
  {
    var v := Get(text, PyNone);
    if Falsy(v) then DetectError(MissingText)
    else match detect(v.s)
      case Ok(lang) => Detected(lang)
      case Failed(m) => DetectError(DetectionFailed + m)
  }
}
