/**
 * flask_webcache/handlers.py: extension registration and the two request hooks.
 * `before_request` may answer from the cache; `after_request` dates, modifies and tags
 * every response, answers conditional requests, and stores or invalidates.
 */
module Handlers {
  import opened Wrappers
  import opened Http
  import opened Backend
  import opened Storage
  import opened Validation
  import opened Modifiers

  /** A Flask application's `extensions` attribute: absent, or registries by extension name. */
  class App<T> {
    var extensions: Option<map<string, map<string, T>>>

    constructor ()
      ensures extensions == None
    {
      extensions := None;
    }
  }

  /**
   * `register_extension`: creates `extensions` when the application has none, then files
   * `obj` under `name` in the "webcache" registry, keeping everything else registered.
   */
  method RegisterExtension<T>(app: App<T>, name: string, obj: T)
    modifies app
    ensures app.extensions.Some?
    ensures var before := old(app.extensions).GetOr(map[]);
            var registry := if "webcache" in before then before["webcache"] else map[];
            app.extensions.value == before["webcache" := registry[name := obj]]
  {
    var extensions := if app.extensions.None? then map[] else app.extensions.value;
    var registry := if "webcache" in extensions then extensions["webcache"] else map[];
    app.extensions := Some(extensions["webcache" := registry[name := obj]]);
  }

  // ---------------------------------------------------------------- the pipeline as values

  /** The queued modifiers applied in the order they were queued. */
  function ApplyModifiers(mods: seq<Modifier>, r: ResponseValue, now: int): (modified: ResponseValue)
    ensures modified == r.(cacheControl := modified.cacheControl, expires := modified.expires)
    ensures (forall i | 0 <= i < |mods| :: !mods[i].CacheFor?) ==> modified.expires == r.expires
    ensures mods != [] && mods[|mods| - 1].CacheFor? ==>
              MaxAge(modified.cacheControl) == Some(TruncatedSeconds(mods[|mods| - 1].micros))
    decreases |mods|
  {
    if mods == [] then r
    else Modified(mods[|mods| - 1], ApplyModifiers(mods[..|mods| - 1], r, now), now)
  }

  /** A response after the date fields, the queued modifiers and the ETag step of `after_request`. */
  function Prepared(env: Env, mods: seq<Modifier>, r: ResponseValue, now: int): (prepared: ResponseValue)
    ensures prepared.date.Some? && prepared.lastModified.Some?
    ensures prepared.body == r.body && prepared.status == r.status && prepared.streamed == r.streamed
    ensures prepared.vary == r.vary && prepared.xCache == r.xCache
    ensures r.etag.Some? ==> prepared.etag == r.etag
    ensures r.etag.None? && !r.streamed && r.status == Ok ==> prepared.etag == Some(env.md5(r.body))
    ensures r.etag.None? && (r.streamed || r.status != Ok) ==> prepared.etag.None?
    ensures r.date.Some? ==> prepared.date == r.date
    ensures r.date.None? ==> prepared.date == Some(now)
    ensures r.lastModified.Some? ==> prepared.lastModified == r.lastModified
    ensures r.lastModified.None? ==> prepared.lastModified == Some(now)
    ensures var m := ApplyModifiers(mods, WithDates(r, now), now);
            prepared.cacheControl == m.cacheControl && prepared.expires == m.expires
  {
    var modified := ApplyModifiers(mods, WithDates(r, now), now);
    if CanSetEtag(modified) then WithEtag(modified, env.md5) else modified
  }

  /**
   * `cache_control(public=0)` on a response without Cache-Control leaves the header
   * absent, so a plain GET without query arguments stays storable.
   */
  lemma PublicZeroKeepsStorable(req: Request, r: ResponseValue, now: int)
    requires Admissible(req, r) && r.cacheControl == map[] && r.expires.None? && !HasArgs(req)
    ensures var modified := Modified(CacheControl([("public", Integer(0))]), r, now);
            modified.cacheControl == map[] && ShouldCacheResponse(req, modified, now)
  {
    var settings := [("public", Integer(0))];
    assert settings[..0] == [];
    assert AssignedAll(r.cacheControl, settings) == Assigned(r.cacheControl, "public", Integer(0));
  }

  /** A response that has been through `after_request` once goes through the steps unchanged. */
  lemma PreparedIsStable(env: Env, r: ResponseValue, now: int)
    requires r.date.Some? && r.lastModified.Some? && r.etag.Some?
    ensures Prepared(env, [], r, now) == r
  {
  }

  /**
   * What `before_request` returns and leaves in `g`: a stored representation, served in
   * place of the view, or nothing (the view runs) when the request is not to be fetched,
   * is exempt or misses; a malformed stored value surfaces as an error. The flag the
   * response hook reads is always false afterwards.
   */
  function BeforeRequestOutcome(env: Env, shouldFetch: Request -> bool, entries: map<string, Entry>,
                                req: Request, g: GValue): (out: (Result<Option<ResponseValue>, Fault>, GValue))
    ensures !out.1.webcacheCachedResponse
    ensures out.1.ignoreIfNoneMatch == g.ignoreIfNoneMatch
    ensures !shouldFetch(req) || Exempt(env.config, req.path) ==>
              out == (Success(None), g.(webcacheCachedResponse := false))
    ensures out.0.Success? && out.0.value.Some? ==>
              && shouldFetch(req) && !Exempt(env.config, req.path)
              && FetchOutcome(env, entries, req, g.(webcacheCachedResponse := false)).0 == Success(out.0.value.value)
    ensures shouldFetch(req) && !Exempt(env.config, req.path) ==>
              var fetched := FetchOutcome(env, entries, req, g.(webcacheCachedResponse := false));
              && out.1 == fetched.1
              && (fetched.0.Success? ==> out.0 == Success(Some(fetched.0.value)))
              && (fetched.0.Failure? && fetched.0.error.CacheMiss? ==> out.0 == Success(None))
              && (fetched.0.Failure? && !fetched.0.error.CacheMiss? ==> out.0 == Failure(fetched.0.error))
    ensures MetadataLookup(entries, req).Failure? && MetadataLookup(entries, req).error.CacheMiss? ==>
              out.0 == Success(None)
  {
    var g1 := g.(webcacheCachedResponse := false);
    if !shouldFetch(req) || Exempt(env.config, req.path) then (Success(None), g1)
    else
      var (fetched, g2) := FetchOutcome(env, entries, req, g1);
      if fetched.Success? then (Success(Some(fetched.value)), g2)
      else if fetched.error.CacheMiss? then (Success(None), g2)
      else (Failure(fetched.error), g2)
  }

  /**
   * `before_request` with the fetch recording its hit in the flag the response hook reads
   * (`webcache_cached_response`), as that hook evidently expects.
   */
  function BeforeRequestOutcomeFixed(env: Env, shouldFetch: Request -> bool, entries: map<string, Entry>,
                                     req: Request, g: GValue): (out: (Result<Option<ResponseValue>, Fault>, GValue))
    ensures out.0 == BeforeRequestOutcome(env, shouldFetch, entries, req, g).0
    ensures out.1.webcacheCachedResponse <==> out.0.Success? && out.0.value.Some?
    ensures out.1 == BeforeRequestOutcome(env, shouldFetch, entries, req, g).1.(webcacheCachedResponse := out.1.webcacheCachedResponse)
  {
    var (served, g1) := BeforeRequestOutcome(env, shouldFetch, entries, req, g);
    (served, g1.(webcacheCachedResponse := served.Success? && served.value.Some?))
  }

  /** The response hook stores the prepared response. */
  predicate Stores(env: Env, req: Request, g: GValue, prepared: ResponseValue, now: int) {
    && !IfNoneMatch(req, prepared)
    && !g.webcacheCachedResponse
    && ShouldCacheResponse(req, prepared, now)
    && !Exempt(env.config, req.path)
  }

  /**
   * What `after_request` returns and leaves in the backend at instant `now`, with `salt`
   * the salt a new metadata record would get.
   */
  function AfterRequestOutcome(env: Env, req: Request, g: GValue, mods: seq<Modifier>, r: ResponseValue,
                               entries: map<string, Entry>, now: int, salt: string)
    : (out: (ResponseValue, map<string, Entry>))
    ensures out.0.date.Some? && out.0.lastModified.Some?
    ensures IfNoneMatch(req, Prepared(env, mods, r, now)) ==>
              out == (NotModified(req, g, Prepared(env, mods, r, now)), entries)
    ensures g.webcacheCachedResponse ==> out.1 == entries
    ensures var p := Prepared(env, mods, r, now);
            !IfNoneMatch(req, p) && g.webcacheCachedResponse ==> out == (p, entries)
    ensures Exempt(env.config, req.path) ==> out.1 == entries || out.1 == entries - {MetadataCacheKey(req)}
    ensures forall k :: k in out.1 && k !in entries ==> Stores(env, req, g, Prepared(env, mods, r, now), now)
    ensures MetadataCacheKey(req) in entries && MetadataCacheKey(req) !in out.1 ==>
              && !Stores(env, req, g, Prepared(env, mods, r, now), now)
              && !IsSafeMethod(req.httpMethod) && ShouldInvalidateResource(req, Prepared(env, mods, r, now))
    ensures var p := Prepared(env, mods, r, now);
            !IfNoneMatch(req, p) && !g.webcacheCachedResponse && !Stores(env, req, g, p, now) ==>
              out == (p, if ShouldInvalidateResource(req, p) then entries - {MetadataCacheKey(req)} else entries)
    ensures Stores(env, req, g, Prepared(env, mods, r, now), now) ==>
              var p := Prepared(env, mods, r, now);
              var key := ResponseCacheKey(env, req, MetadataFor(g, p, salt));
              && out.0 == p.(xCache := Some("miss"))
              && key in out.1 && out.1[key].value == Representation(p.(xCache := Some("hit")))
    ensures var p := Prepared(env, mods, r, now);
            Stores(env, req, g, p, now) ==>
              var stored := StoredExchange(env, req, g, p, entries, now, salt);
              out == (stored.0.(xCache := Some("miss")), stored.1)
  {
    var p := Prepared(env, mods, r, now);
    if IfNoneMatch(req, p) then (NotModified(req, g, p), entries)
    else if g.webcacheCachedResponse then (p, entries)
    else if ShouldCacheResponse(req, p, now) && !Exempt(env.config, req.path) then
      var (hit, stored) := StoredExchange(env, req, g, p, entries, now, salt);
      (hit.(xCache := Some("miss")), stored)
    else if ShouldInvalidateResource(req, p) then (p, entries - {MetadataCacheKey(req)})
    else (p, entries)
  }

  // ---------------------------------------------------------------- the hooks

  method BeforeRequest(env: Env, shouldFetch: Request -> bool, cache: Cache, req: Request, g: G, rc: RequestCtx)
    returns (outcome: Result<Option<ResponseValue>, Fault>)
    modifies g, rc
    ensures rc.webCache == []
    ensures (outcome, g.Value()) == BeforeRequestOutcome(env, shouldFetch, cache.entries, req, old(g.Value()))
  {
    SetupForThisRequest(rc);
    g.webcacheCachedResponse := false;
    outcome := Success(None);
    if shouldFetch(req) {
      var exempt := IsExempt(env.config, req);
      if !exempt {
        var fetched := FetchResponse(env, cache, req, g);
        if fetched.Success? {
          outcome := Success(Some(fetched.value));
        } else if !fetched.error.CacheMiss? {
          outcome := Failure(fetched.error);
        }
      }
    }
  }

  method AfterRequest(env: Env, cache: Cache, req: Request, g: G, rc: RequestCtx, response: Response,
                      now: int, salt: string) returns (result: Response)
    modifies cache, response
    ensures result == response
    ensures (response.Value(), cache.entries)
            == AfterRequestOutcome(env, req, g.Value(), rc.webCache, old(response.Value()), old(cache.entries), now, salt)
  {
    result := response;
    AddDateFields(response, now);
    ghost var dated := response.Value();
    var mods := rc.webCache;
    var i := 0;
    while i < |mods|
      invariant 0 <= i <= |mods|
      invariant response.Value() == ApplyModifiers(mods[..i], dated, now)
      modifies response
    {
      ModifyResponse(mods[i], response, now);
      assert mods[..i + 1][..i] == mods[..i];
      i := i + 1;
    }
    assert mods[..|mods|] == mods;
    var canSet := CanSetEtag(response.Value());
    if canSet {
      SetEtag(response, env.md5);
    }
    if IfNoneMatch(req, response.Value()) {
      ReturnNotModifiedResponse(req, g, response);
      return;
    }
    if g.webcacheCachedResponse {
      return;
    }
    var store := ShouldCacheResponse(req, response.Value(), now);
    if store {
      var exempt := IsExempt(env.config, req);
      store := !exempt;
    }
    if store {
      CacheResponse(env, cache, req, g, response, now, salt);
      MarkCacheMiss(response);
    } else if ShouldInvalidateResource(req, response.Value()) {
      InvalidateResource(cache, req);
    }
  }

  // ---------------------------------------------------------------- two requests in a row

  /** The conditions under which a first GET is stored, independently of the clock. */
  predicate CacheableExchange(env: Env, shouldFetch: Request -> bool, req: Request, r: ResponseValue, salt: string) {
    && shouldFetch(req) && !Exempt(env.config, req.path)
    && !req.ifNoneMatch.star && req.ifNoneMatch.strong == {}
    && (r.cacheControl != map[] || r.expires.None?) && ShouldCacheResponse(req, r, 0)
    && ':' !in salt
    && (forall i :: 0 <= i < |r.vary| ==> HeaderName(r.vary[i]))
  }

  /**
   * The first request of a cacheable exchange misses, runs the view, and stores the
   * prepared response, which is reported as a miss; a fetch then finds the copy marked
   * as a hit.
   */
  lemma FirstRequestStores(env: Env, shouldFetch: Request -> bool, req: Request, r: ResponseValue,
                           now: int, salt: string)
    requires CacheableExchange(env, shouldFetch, req, r, salt)
    ensures var (first, g1) := BeforeRequestOutcome(env, shouldFetch, map[], req, FreshG);
            var (sent, entries) := AfterRequestOutcome(env, req, g1, [], r, map[], now, salt);
            var p := Prepared(env, [], r, now);
            && first == Success(None)
            && g1.cacheMetadata.None? && !g1.webcacheCachedResponse
            && sent == p.(xCache := Some("miss"))
            && BeforeRequestOutcome(env, shouldFetch, entries, req, FreshG).0 == Success(Some(p.(xCache := Some("hit"))))
  {
    var (first, g1) := BeforeRequestOutcome(env, shouldFetch, map[], req, FreshG);
    assert MetadataLookup(map[], req) == Failure(CacheMiss("no resource metadata"));
    assert g1 == FreshG;
    var p := Prepared(env, [], r, now);
    assert !IfNoneMatch(req, p);
    assert MaxAge(p.cacheControl) == MaxAge(r.cacheControl);
    assert ShouldCacheResponse(req, p, now);
    StoreThenFetch(env, req, g1, p, now, salt, req, FreshG.(webcacheCachedResponse := false));
  }

  /**
   * As written, the second identical request is answered from the cache but then passes
   * through the response hook as a fresh response: the copy is stored again and the
   * client is told X-Cache: miss.
   */
  lemma SecondRequestReportedAsMiss(env: Env, shouldFetch: Request -> bool, req: Request, r: ResponseValue,
                                    now: int, later: int, salt: string)
    requires CacheableExchange(env, shouldFetch, req, r, salt)
    ensures var (_, g1) := BeforeRequestOutcome(env, shouldFetch, map[], req, FreshG);
            var (_, entries) := AfterRequestOutcome(env, req, g1, [], r, map[], now, salt);
            var (second, g2) := BeforeRequestOutcome(env, shouldFetch, entries, req, FreshG);
            && second.Success? && second.value.Some?
            && second.value.value.xCache == Some("hit")
            && !g2.webcacheCachedResponse
            && var (resent, _) := AfterRequestOutcome(env, req, g2, [], second.value.value, entries, later, salt);
               resent.xCache == Some("miss")
  {
    FirstRequestStores(env, shouldFetch, req, r, now, salt);
    var (_, g1) := BeforeRequestOutcome(env, shouldFetch, map[], req, FreshG);
    var (_, entries) := AfterRequestOutcome(env, req, g1, [], r, map[], now, salt);
    var (second, g2) := BeforeRequestOutcome(env, shouldFetch, entries, req, FreshG);
    var served := second.value.value;
    var p := Prepared(env, [], r, now);
    assert served == p.(xCache := Some("hit"));
    PreparedIsStable(env, served, later);
    assert !IfNoneMatch(req, served);
    assert MaxAge(served.cacheControl) == MaxAge(r.cacheControl);
    assert ShouldCacheResponse(req, served, later);
  }

  /**
   * With the flag set on a hit, the second identical request is served from the cache,
   * reported as a hit, and leaves the backend unchanged.
   */
  lemma SecondRequestReportedAsHitWhenFixed(env: Env, shouldFetch: Request -> bool, req: Request, r: ResponseValue,
                                            now: int, later: int, salt: string)
    requires CacheableExchange(env, shouldFetch, req, r, salt)
    ensures var (_, g1) := BeforeRequestOutcomeFixed(env, shouldFetch, map[], req, FreshG);
            var (_, entries) := AfterRequestOutcome(env, req, g1, [], r, map[], now, salt);
            var (second, g2) := BeforeRequestOutcomeFixed(env, shouldFetch, entries, req, FreshG);
            && second.Success? && second.value.Some?
            && g2.webcacheCachedResponse
            && AfterRequestOutcome(env, req, g2, [], second.value.value, entries, later, salt)
               == (second.value.value, entries)
            && second.value.value.xCache == Some("hit")
  {
    FirstRequestStores(env, shouldFetch, req, r, now, salt);
    var (_, g1) := BeforeRequestOutcomeFixed(env, shouldFetch, map[], req, FreshG);
    var (_, entries) := AfterRequestOutcome(env, req, g1, [], r, map[], now, salt);
    var (second, g2) := BeforeRequestOutcomeFixed(env, shouldFetch, entries, req, FreshG);
    var served := second.value.value;
    PreparedIsStable(env, served, later);
    assert !IfNoneMatch(req, served);
  }
}
