/**
  Properties of the /translate handler and of its cache key, stated over
  TranslateStep (which the TranslationService.Translate method is proved
  to follow).
 */
module TranslateProperties {
  import opened PyValues
  import opened TranslationApi

  // ---------------------------------------------------------------------
  // Validation

  /** Missing or empty text or target: a 400, no provider call, cache untouched, whatever the translator. */
  lemma MissingFieldsRejected(cache: map<string, Entry>, req: TranslateRequest, now: int, provider: ProviderCall -> Outcome)
    requires Falsy(TextOf(req)) || Falsy(TargetOf(req))
    ensures TranslateStep(cache, req, now, provider) == Step(BadRequest(MissingTextOrTarget), None, cache)
  {
  }

  /** A translator outside the registry: a 400, no provider call, cache untouched. */
  lemma UnsupportedTranslatorRejected(cache: map<string, Entry>, req: TranslateRequest, now: int, provider: ProviderCall -> Outcome)
    requires !Falsy(TextOf(req)) && !Falsy(TargetOf(req))
    requires Supported(TranslatorOf(req)).None?
    ensures TranslateStep(cache, req, now, provider) == Step(BadRequest(UnsupportedTranslator), None, cache)
  {
  }

  /** Absent translator and source fields select Google and the "auto" source, so the provider gets only the target. */
  lemma DefaultsApplied(text: string, target: string)
    requires text != [] && target != []
    ensures var req := TranslateRequest(Present(PyStr(text)), Absent, Present(PyStr(target)), Absent);
            && CheckTranslate(req) == Accepted(Job(Google, PyStr("auto"), target, text))
            && CacheKey(CheckTranslate(req).job) == "google:auto:" + target + ":" + text
            && ProviderCallFor(CheckTranslate(req).job, text) == ProviderCall(Google, None, target, text)
  {
  }

  /**
    A client can tell the two kinds of 400 apart: an error carries the
    "Translation failed: " prefix exactly when a provider call was made.
   */
  lemma ErrorKindsDistinguishable(cache: map<string, Entry>, req: TranslateRequest, now: int, provider: ProviderCall -> Outcome)
    ensures var s := TranslateStep(cache, req, now, provider);
            s.response.BadRequest? ==> (s.call.Some? <==> TranslationFailed <= s.response.error)
  {
    var s := TranslateStep(cache, req, now, provider);
    if s.response.BadRequest? && s.call.None? {
      assert s.response.error in {MissingTextOrTarget, UnsupportedTranslator};
      assert s.response.error[0] != TranslationFailed[0];
    }
  }

  // ---------------------------------------------------------------------
  // Cache reads

  /** A present entry younger than one hour is returned as it is, with source "cache", and nothing else happens. */
  lemma FreshEntryServed(cache: map<string, Entry>, req: TranslateRequest, now: int, provider: ProviderCall -> Outcome)
    requires CheckTranslate(req).Accepted?
    requires CacheKey(CheckTranslate(req).job) in cache
    requires IsFresh(now, cache[CacheKey(CheckTranslate(req).job)].stamp)
    ensures TranslateStep(cache, req, now, provider)
            == Step(Translated(cache[CacheKey(CheckTranslate(req).job)].text, "cache"), None, cache)
  {
  }

  /** An entry stamped after `now` (the clock stepped back) is still served: the age test is a signed difference. */
  lemma FutureEntryServed(cache: map<string, Entry>, req: TranslateRequest, now: int, provider: ProviderCall -> Outcome)
    requires CheckTranslate(req).Accepted?
    requires CacheKey(CheckTranslate(req).job) in cache
    requires cache[CacheKey(CheckTranslate(req).job)].stamp > now
    ensures TranslateStep(cache, req, now, provider).response.Translated?
    ensures TranslateStep(cache, req, now, provider).response.source == "cache"
  {
  }

  /**
    A stale entry behaves exactly like a missing one: the same response and
    the same provider call as with the entry removed; the stale entry stays
    in the cache unless a successful call overwrites it.
   */
  lemma StaleEntryIsMiss(cache: map<string, Entry>, req: TranslateRequest, now: int, provider: ProviderCall -> Outcome)
    requires CheckTranslate(req).Accepted?
    requires CacheKey(CheckTranslate(req).job) in cache
    requires !IsFresh(now, cache[CacheKey(CheckTranslate(req).job)].stamp)
    ensures var key := CacheKey(CheckTranslate(req).job);
            var stale := TranslateStep(cache, req, now, provider);
            var missing := TranslateStep(cache - {key}, req, now, provider);
            && stale.response == missing.response
            && stale.call == missing.call
            && stale.call.Some?
            && (stale.response.Translated? ==> stale.cache == missing.cache)
            && (stale.response.BadRequest? ==> stale.cache == cache && stale.cache[key] == cache[key])
  {
  }

  // ---------------------------------------------------------------------
  // Provider calls

  /** On a miss the provider is called; success stores (text, now) under the key and changes no other key. */
  lemma ProviderSuccessStored(cache: map<string, Entry>, req: TranslateRequest, now: int, provider: ProviderCall -> Outcome)
    requires CheckTranslate(req).Accepted?
    requires Lookup(cache, CacheKey(CheckTranslate(req).job), now).None?
    requires provider(ProviderCallFor(CheckTranslate(req).job, CheckTranslate(req).job.subject)).Ok?
    ensures var job := CheckTranslate(req).job;
            var call := ProviderCallFor(job, job.subject);
            var s := TranslateStep(cache, req, now, provider);
            && s.response == Translated(provider(call).value, "api")
            && s.call == Some(call)
            && CacheKey(job) in s.cache && s.cache[CacheKey(job)] == Entry(provider(call).value, now)
            && (forall k :: k != CacheKey(job) ==> (k in s.cache <==> k in cache))
            && (forall k :: k != CacheKey(job) && k in cache ==> s.cache[k] == cache[k])
  {
  }

  /** A provider failure leaves the cache as it was and reports the message after "Translation failed: ". */
  lemma ProviderFailureKeepsCache(cache: map<string, Entry>, req: TranslateRequest, now: int, provider: ProviderCall -> Outcome)
    requires CheckTranslate(req).Accepted?
    requires Lookup(cache, CacheKey(CheckTranslate(req).job), now).None?
    requires provider(ProviderCallFor(CheckTranslate(req).job, CheckTranslate(req).job.subject)).Failed?
    ensures var job := CheckTranslate(req).job;
            var call := ProviderCallFor(job, job.subject);
            TranslateStep(cache, req, now, provider)
            == Step(BadRequest(TranslationFailed + provider(call).message), Some(call), cache)
  {
  }

  // ---------------------------------------------------------------------
  // Two requests in a row

  /**
    After a successful provider call, the identical request less than one
    hour later is answered from the cache with the same text, whatever the
    provider would now say, and without calling it.
   */
  lemma RepeatWithinHourHitsCache(cache: map<string, Entry>, req: TranslateRequest, now: int, later: int,
                                  provider: ProviderCall -> Outcome, provider': ProviderCall -> Outcome)
    requires TranslateStep(cache, req, now, provider).response.Translated?
    requires TranslateStep(cache, req, now, provider).response.source == "api"
    requires later - now < OneHour
    ensures var first := TranslateStep(cache, req, now, provider);
            TranslateStep(first.cache, req, later, provider')
            == Step(Translated(first.response.translatedText, "cache"), None, first.cache)
  {
  }

  /** Once the stored entry is an hour old, the identical request goes to the provider again. */
  lemma RepeatAfterHourCallsProvider(cache: map<string, Entry>, req: TranslateRequest, now: int, later: int,
                                     provider: ProviderCall -> Outcome, provider': ProviderCall -> Outcome)
    requires TranslateStep(cache, req, now, provider).response.Translated?
    requires TranslateStep(cache, req, now, provider).response.source == "api"
    requires later - now >= OneHour
    ensures var first := TranslateStep(cache, req, now, provider);
            var second := TranslateStep(first.cache, req, later, provider');
            && second.call == first.call
            && (provider'(first.call.value).Ok? ==> second.response == Translated(provider'(first.call.value).value, "api"))
  {
  }

  // ---------------------------------------------------------------------
  // The cache key

  predicate ColonFree(s: string) {
    ':' !in s
  }

  /** The position of the first ':' in `w`, or `|w|` when there is none. */
  function FirstColon(w: string): (i: nat)
    ensures i <= |w|
  {
    if w == [] then 0
    else if w[0] == ':' then 0
    else 1 + FirstColon(w[1..])
  }

  lemma {:induction false} FirstColonAfter(a: string, r: string)
    requires ColonFree(a)
    ensures FirstColon(a + ":" + r) == |a|
  {
    if a != [] {
      assert (a + ":" + r)[1..] == a[1..] + ":" + r;
      FirstColonAfter(a[1..], r);
    }
  }

  /** Splitting at the first ':' recovers the field before it and the rest after it. */
  lemma SplitAtFirstColon(a: string, r: string, a': string, r': string)
    requires ColonFree(a) && ColonFree(a')
    requires a + ":" + r == a' + ":" + r'
    ensures a == a' && r == r'
  {
    var w := a + ":" + r;
    FirstColonAfter(a, r);
    FirstColonAfter(a', r');
    assert a == w[..|a|] == a';
    assert r == w[|a| + 1..] == r';
  }

  lemma NamesAreColonFree(t: Translator)
    ensures ColonFree(Name(t))
  {
  }

  /** The key regrouped from the right, so that it splits at its first ':'. */
  lemma KeyFromTheRight(j: Job)
    ensures CacheKey(j) == Name(j.translator) + ":" + (Render(j.source) + ":" + (j.target + ":" + j.subject))
  {
  }

  /**
    When the rendered source and the target contain no ':', two jobs share
    a cache key exactly when they agree on translator, rendered source,
    target and text (the text, last, may contain ':').
   */
  lemma CacheKeyInjective(j1: Job, j2: Job)
    requires ColonFree(Render(j1.source)) && ColonFree(j1.target)
    requires ColonFree(Render(j2.source)) && ColonFree(j2.target)
    ensures CacheKey(j1) == CacheKey(j2)
            <==> j1.translator == j2.translator && Render(j1.source) == Render(j2.source)
                 && j1.target == j2.target && j1.subject == j2.subject
  {
    if CacheKey(j1) == CacheKey(j2) {
      NamesAreColonFree(j1.translator);
      NamesAreColonFree(j2.translator);
      var n1, n2 := Name(j1.translator), Name(j2.translator);
      var s1, s2 := Render(j1.source), Render(j2.source);
      KeyFromTheRight(j1);
      KeyFromTheRight(j2);
      SplitAtFirstColon(n1, s1 + ":" + (j1.target + ":" + j1.subject), n2, s2 + ":" + (j2.target + ":" + j2.subject));
      SplitAtFirstColon(s1, j1.target + ":" + j1.subject, s2, j2.target + ":" + j2.subject);
      SplitAtFirstColon(j1.target, j1.subject, j2.target, j2.subject);
      match j1.translator
      case Google => assert n1 == "google";
      case Microsoft => assert n1 == "microsoft";
      case Pons => assert n1 == "pons";
    }
  }

  /**
    Without that condition the key is not injective: a ':' moved from the
    text into the target gives a different request with the same key, and
    that request, sent after the first into a fresh cache, is served the
    first one's translation.
   */
  lemma ColonCollisionServesOtherTranslation(now: int, provider: ProviderCall -> Outcome)
    requires provider(ProviderCall(Google, None, "fr", "x:y")).Ok?
    ensures var r1 := TranslateRequest(Present(PyStr("x:y")), Absent, Present(PyStr("fr")), Absent);
            var r2 := TranslateRequest(Present(PyStr("y")), Absent, Present(PyStr("fr:x")), Absent);
            var first := TranslateStep(map[], r1, now, provider);
            && CheckTranslate(r1).job != CheckTranslate(r2).job
            && TranslateStep(first.cache, r2, now, provider)
               == Step(Translated(provider(ProviderCall(Google, None, "fr", "x:y")).value, "cache"), None, first.cache)
  {
    var r1 := TranslateRequest(Present(PyStr("x:y")), Absent, Present(PyStr("fr")), Absent);
    var r2 := TranslateRequest(Present(PyStr("y")), Absent, Present(PyStr("fr:x")), Absent);
    DefaultsApplied("x:y", "fr");
    DefaultsApplied("y", "fr:x");
    assert "google:auto:" + "fr" + ":" + "x:y" == "google:auto:" + "fr:x" + ":" + "y";
    var key := CacheKey(CheckTranslate(r1).job);
    assert key == CacheKey(CheckTranslate(r2).job);
    var t := provider(ProviderCall(Google, None, "fr", "x:y")).value;
    var first := TranslateStep(map[], r1, now, provider);
    assert first.cache == map[key := Entry(t, now)];
    assert Lookup(first.cache, key, now) == Some(t);
  }

  /**
    A JSON null source renders as "None", so it shares its cache key with
    the literal source "None" although the two build different providers.
   */
  lemma NullSourceSharesKey(t: Translator, target: string, text: string)
    ensures CacheKey(Job(t, PyNone, target, text)) == CacheKey(Job(t, PyStr("None"), target, text))
    ensures ProviderCallFor(Job(t, PyNone, target, text), text).source == Some(PyNone)
    ensures ProviderCallFor(Job(t, PyStr("None"), target, text), text).source == Some(PyStr("None"))
  {
  }
}
