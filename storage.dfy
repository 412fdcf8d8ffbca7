/**
 * flask_webcache/storage.py: cache keys, per-resource metadata, the storability,
 * expiry and invalidation rules, and the store / fetch / invalidate operations over
 * the cache backend. Flask's `request` is an explicit `Request`, `g` an explicit `G`,
 * and the backend a `Cache` object.
 */
module Storage {
  import opened Wrappers
  import opened Http
  import opened Backend

  // ---------------------------------------------------------------- configuration

  /** Exempt path prefixes (never stored) and the installation-wide master salt. */
  datatype Config = Config(resourceExemptions: seq<string>, masterSalt: string)

  /**
   * `Config(**kwargs)`: the two known keywords, each with its default; the names of any
   * other keywords are `unexpected`, and one of them is reported in a TypeError.
   */
  function NewConfig(resourceExemptions: Option<seq<string>>, masterSalt: Option<string>,
                     unexpected: seq<string>): (r: Result<Config, string>)
    ensures r.Success? <==> unexpected == []
    ensures r.Success? ==> r.value.resourceExemptions == resourceExemptions.GetOr([])
    ensures r.Success? ==> r.value.masterSalt == masterSalt.GetOr("")
    ensures r.Failure? ==> r.error in unexpected
  {
    if unexpected != [] then Failure(unexpected[|unexpected| - 1])
    else Success(Config(resourceExemptions.GetOr([]), masterSalt.GetOr("")))
  }

  /**
   * What a `Base` works with besides the cache object: its configuration, and MD5's hex
   * digest, taken as an uninterpreted function of the text it is computed over.
   */
  datatype Env = Env(config: Config, md5: string -> string)

  // ---------------------------------------------------------------- metadata

  /** The per-resource record: the response's vary header names and a random salt. */
  datatype Metadata = Metadata(vary: seq<string>, salt: string)

  /** `Metadata.__getstate__`: the salt, a colon, then the vary set as a header value. */
  function GetState(m: Metadata): (s: string)
    ensures ':' !in m.salt ==> IndexOf(s, ':') == Some(|m.salt|)
    ensures |s| == |m.salt| + 1 + |ToHeader(m.vary)|
    ensures s[..|m.salt|] == m.salt && s[|m.salt| + 1..] == ToHeader(m.vary)
  {
    var s := m.salt + [':'] + ToHeader(m.vary);
    if ':' in m.salt then s
    else
      IndexOfAfter(m.salt, ':', ToHeader(m.vary));
      s
  }

  /**
   * `Metadata.__setstate__`: the salt is the text before the first colon, the vary set
   * is parsed from the rest; a text without a colon cannot be unpacked (a ValueError).
   */
  function SetState(s: string): (m: Option<Metadata>)
    ensures m.Some? <==> ':' in s
    ensures m.Some? ==> ':' !in m.value.salt && StartsWith(s, m.value.salt + ":")
    ensures m.Some? ==> m.value.vary == ParseSetHeader(s[|m.value.salt| + 1..])
  {
    match IndexOf(s, ':')
    case None => None
    case Some(i) =>
      assert s[..i + 1] == s[..i] + ":";
      Some(Metadata(ParseSetHeader(s[i + 1..]), s[..i]))
  }

  /** Unpickling pickled metadata gives back the same salt and vary set. */
  lemma MetadataRoundTrip(m: Metadata)
    requires ':' !in m.salt
    requires forall i :: 0 <= i < |m.vary| ==> HeaderName(m.vary[i])
    ensures SetState(GetState(m)) == Some(m)
  {
    var s := GetState(m);
    assert s == m.salt + [':'] + ToHeader(m.vary);
    IndexOfAfter(m.salt, ':', ToHeader(m.vary));
    assert s[|m.salt| + 1..] == ToHeader(m.vary);
    assert s[..|m.salt|] == m.salt;
    HeaderSetRoundTrip(m.vary);
  }

  // ---------------------------------------------------------------- request globals

  datatype GValue = GValue(
    cacheMetadata: Option<Metadata>,
    cachedResponse: bool,
    webcacheCachedResponse: bool,
    ignoreIfNoneMatch: bool)

  /** A request's `g` before anything has been set on it. */
  const FreshG := GValue(None, false, false, false)

  /**
   * The attributes of Flask's per-request `g` that the layer uses: `cache_metadata`
   * (absent until a fetch sets it), `cached_response` (set by a fetch),
   * `webcache_cached_response` (read by the response handler) and
   * `webcache_ignore_if_none_match` (set, if at all, by the application).
   */
  class G {
    var cacheMetadata: Option<Metadata>
    var cachedResponse: bool
    var webcacheCachedResponse: bool
    var ignoreIfNoneMatch: bool

    constructor (v: GValue)
      ensures Value() == v
    {
      cacheMetadata, cachedResponse := v.cacheMetadata, v.cachedResponse;
      webcacheCachedResponse, ignoreIfNoneMatch := v.webcacheCachedResponse, v.ignoreIfNoneMatch;
    }

    function Value(): GValue
      reads this
    {
      GValue(cacheMetadata, cachedResponse, webcacheCachedResponse, ignoreIfNoneMatch)
    }
  }

  // ---------------------------------------------------------------- keys

  /** The resource coordinate: the path, with "?" and the query string when there is one. */
  function RequestPathAndQuery(req: Request): (coordinate: string)
    ensures req.queryString == "" ==> coordinate == req.path
    ensures req.queryString != "" ==> coordinate == req.path + "?" + req.queryString
  {
    if req.queryString != "" then
      JoinPair(req.path, req.queryString, "?");
      Join([req.path, req.queryString], "?")
    else req.path
  }

  /** `make_key`: the bits joined by the separator ":". */
  function MakeKey(bits: seq<string>): (key: string)
    ensures |bits| == 1 ==> key == bits[0]
    ensures |bits| == 2 ==> key == bits[0] + ":" + bits[1]
    ensures |bits| == 3 ==> key == bits[0] + ":" + bits[1] + ":" + bits[2]
  {
    if |bits| == 2 then
      assert bits == [bits[0], bits[1]];
      JoinPair(bits[0], bits[1], ":");
      Join(bits, ":")
    else if |bits| == 3 then
      assert bits[1..] == [bits[1], bits[2]];
      JoinPair(bits[1], bits[2], ":");
      Join(bits, ":")
    else Join(bits, ":")
  }

  function MetadataCacheKey(req: Request): (key: string)
    ensures key == "metadata:" + RequestPathAndQuery(req)
  {
    var bits := ["metadata", RequestPathAndQuery(req)];
    JoinPair("metadata", RequestPathAndQuery(req), ":");
    MakeKey(bits)
  }

  /** Each vary header's name followed by the request's value for it ("" when absent). */
  function VaryText(vary: seq<string>, req: Request): string {
    if vary == [] then "" else vary[0] + HeaderValue(req, vary[0]) + VaryText(vary[1..], req)
  }

  /** The text the representation digest is computed over: vary text, salt, master salt. */
  function DigestInput(env: Env, req: Request, m: Metadata): string {
    VaryText(m.vary, req) + m.salt + env.config.masterSalt
  }

  function ResponseCacheKey(env: Env, req: Request, m: Metadata): (key: string)
    ensures key == "representation:" + env.md5(DigestInput(env, req, m)) + ":" + RequestPathAndQuery(req)
  {
    var bits := ["representation", env.md5(DigestInput(env, req, m)), RequestPathAndQuery(req)];
    assert bits[1..] == [bits[1], bits[2]];
    JoinPair(bits[1], bits[2], ":");
    MakeKey(bits)
  }

  /** When paths hold no '?', the coordinate tells path and query string apart. */
  lemma CoordinateIdentifiesTarget(r1: Request, r2: Request)
    requires '?' !in r1.path && '?' !in r2.path
    requires RequestPathAndQuery(r1) == RequestPathAndQuery(r2)
    ensures r1.path == r2.path && r1.queryString == r2.queryString
  {
    var c := RequestPathAndQuery(r1);
    if r1.queryString != "" {
      assert c == r1.path + ['?'] + r1.queryString;
      IndexOfAfter(r1.path, '?', r1.queryString);
      assert c[..|r1.path|] == r1.path && c[|r1.path| + 1..] == r1.queryString;
    }
    if r2.queryString != "" {
      assert c == r2.path + ['?'] + r2.queryString;
      IndexOfAfter(r2.path, '?', r2.queryString);
      assert c[..|r2.path|] == r2.path && c[|r2.path| + 1..] == r2.queryString;
    }
  }

  /**
   * Without the '?'-free premise the coordinate is ambiguous: the decoded path "/a?b"
   * (requested as `/a%3Fb`) and the path "/a" with query "b" share one coordinate.
   */
  lemma CoordinateCollision(r1: Request, r2: Request)
    requires r1.path == "/a?b" && r1.queryString == ""
    requires r2.path == "/a" && r2.queryString == "b"
    ensures RequestPathAndQuery(r1) == RequestPathAndQuery(r2) && r1.path != r2.path
  {
  }

  /** Equal metadata keys mean the same coordinate. */
  lemma MetadataKeyIdentifiesCoordinate(r1: Request, r2: Request)
    requires MetadataCacheKey(r1) == MetadataCacheKey(r2)
    ensures RequestPathAndQuery(r1) == RequestPathAndQuery(r2)
  {
    var p := "metadata:";
    assert (p + RequestPathAndQuery(r1))[|p|..] == RequestPathAndQuery(r1);
    assert (p + RequestPathAndQuery(r2))[|p|..] == RequestPathAndQuery(r2);
  }

  /** A metadata key and a representation key never collide. */
  lemma MetadataKeyIsNotRepresentationKey(env: Env, r1: Request, r2: Request, m: Metadata)
    ensures MetadataCacheKey(r1) != ResponseCacheKey(env, r2, m)
  {
    assert MetadataCacheKey(r1)[0] == 'm';
    assert ResponseCacheKey(env, r2, m)[0] == 'r';
  }

  lemma {:induction false} VaryTextAgrees(vary: seq<string>, r1: Request, r2: Request)
    requires forall h :: h in vary ==> HeaderValue(r1, h) == HeaderValue(r2, h)
    ensures VaryText(vary, r1) == VaryText(vary, r2)
  {
    if vary != [] {
      VaryTextAgrees(vary[1..], r1, r2);
    }
  }

  /**
   * Two requests for the same coordinate that agree on every vary header get the same
   * representation key, whatever their other headers.
   */
  lemma ResponseKeyIgnoresOtherHeaders(env: Env, m: Metadata, r1: Request, r2: Request)
    requires RequestPathAndQuery(r1) == RequestPathAndQuery(r2)
    requires forall h :: h in m.vary ==> HeaderValue(r1, h) == HeaderValue(r2, h)
    ensures ResponseCacheKey(env, r1, m) == ResponseCacheKey(env, r2, m)
  {
    VaryTextAgrees(m.vary, r1, r2);
  }

  // ---------------------------------------------------------------- exemptions and lookups

  /** Some configured prefix starts the path. */
  predicate Exempt(config: Config, path: string) {
    exists i | 0 <= i < |config.resourceExemptions| :: StartsWith(path, config.resourceExemptions[i])
  }

  /** `is_exempt`: tries the prefixes in turn and stops at the first that matches. */
  method IsExempt(config: Config, req: Request) returns (exempt: bool)
    ensures exempt <==> Exempt(config, req.path)
  {
    var prefixes := config.resourceExemptions;
    var i := 0;
    while i < |prefixes|
      invariant 0 <= i <= |prefixes|
      invariant forall j | 0 <= j < i :: !StartsWith(req.path, prefixes[j])
    {
      if StartsWith(req.path, prefixes[i]) {
        return true;
      }
      i := i + 1;
    }
    return false;
  }

  /**
   * Why a lookup produced nothing: `CacheMiss`, which callers treat as "fall through",
   * or a stored value of the wrong shape, which surfaces as an error.
   */
  datatype Fault = CacheMiss(message: string) | Corrupt

  /** `get_or_miss`: the stored value, or a CacheMiss carrying `message`. */
  method GetOrMiss(cache: Cache, key: string, message: string) returns (r: Result<Value, Fault>)
    ensures key in cache.entries ==> r == Success(cache.entries[key].value)
    ensures key !in cache.entries ==> r == Failure(CacheMiss(message))
  {
    var v := cache.Get(key);
    r := if v.None? then Failure(CacheMiss(message)) else Success(v.value);
  }

  /** What `fetch_metadata` finds for the request's coordinate. */
  function MetadataLookup(entries: map<string, Entry>, req: Request): (r: Result<Metadata, Fault>)
    ensures MetadataCacheKey(req) !in entries <==> r == Failure(CacheMiss("no resource metadata"))
    ensures r.Success? ==> entries[MetadataCacheKey(req)].value.MetadataState?
    ensures r.Success? ==> SetState(entries[MetadataCacheKey(req)].value.state) == Some(r.value)
    ensures var key := MetadataCacheKey(req);
            key in entries && entries[key].value.MetadataState? && SetState(entries[key].value.state).Some? ==>
              r == Success(SetState(entries[key].value.state).value)
    ensures var key := MetadataCacheKey(req);
            key in entries && (entries[key].value.Representation? || SetState(entries[key].value.state).None?) ==>
              r == Failure(Corrupt)
  {
    match Lookup(entries, MetadataCacheKey(req))
    case None => Failure(CacheMiss("no resource metadata"))
    case Some(v) =>
      if v.Representation? then Failure(Corrupt)
      else match SetState(v.state)
        case None => Failure(Corrupt)
        case Some(m) => Success(m)
  }

  /**
   * What `fetch_response` returns and leaves in `g`: the metadata is recorded in `g` as
   * soon as it is found, and `cached_response` is set only when a representation is.
   */
  function FetchOutcome(env: Env, entries: map<string, Entry>, req: Request, g: GValue)
    : (out: (Result<ResponseValue, Fault>, GValue))
    ensures out.1.webcacheCachedResponse == g.webcacheCachedResponse
    ensures out.1.ignoreIfNoneMatch == g.ignoreIfNoneMatch
    ensures MetadataLookup(entries, req).Failure? ==> out == (Failure(MetadataLookup(entries, req).error), g)
    ensures out.0.Success? ==>
              && MetadataLookup(entries, req).Success?
              && out.1.cacheMetadata == Some(MetadataLookup(entries, req).value)
              && out.1.cachedResponse
              && Lookup(entries, ResponseCacheKey(env, req, MetadataLookup(entries, req).value))
                 == Some(Representation(out.0.value))
    ensures MetadataLookup(entries, req).Success? ==>
              var m := MetadataLookup(entries, req).value;
              var key := ResponseCacheKey(env, req, m);
              && out.1.cacheMetadata == Some(m)
              && (key !in entries ==> out == (Failure(CacheMiss("no matching representation")), g.(cacheMetadata := Some(m))))
              && (key in entries && entries[key].value.Representation? ==>
                    out == (Success(entries[key].value.response), g.(cacheMetadata := Some(m), cachedResponse := true)))
  {
    match MetadataLookup(entries, req)
    case Failure(e) => (Failure(e), g)
    case Success(m) =>
      var g1 := g.(cacheMetadata := Some(m));
      match Lookup(entries, ResponseCacheKey(env, req, m))
      case None => (Failure(CacheMiss("no matching representation")), g1)
      case Some(v) =>
        if v.Representation? then (Success(v.response), g1.(cachedResponse := true))
        else (Failure(Corrupt), g1)
  }

  method FetchMetadata(cache: Cache, req: Request) returns (r: Result<Metadata, Fault>)
    ensures r == MetadataLookup(cache.entries, req)
  {
    var key := MetadataCacheKey(req);
    var v := GetOrMiss(cache, key, "no resource metadata");
    if v.Failure? {
      r := Failure(v.error);
    } else if v.value.Representation? {
      r := Failure(Corrupt);
    } else {
      var m := SetState(v.value.state);
      r := if m.None? then Failure(Corrupt) else Success(m.value);
    }
  }

  method FetchResponse(env: Env, cache: Cache, req: Request, g: G) returns (r: Result<ResponseValue, Fault>)
    modifies g
    ensures (r, g.Value()) == FetchOutcome(env, cache.entries, req, old(g.Value()))
  {
    var metadata := FetchMetadata(cache, req);
    if metadata.Failure? {
      return Failure(metadata.error);
    }
    g.cacheMetadata := Some(metadata.value);
    var key := ResponseCacheKey(env, req, metadata.value);
    var v := GetOrMiss(cache, key, "no matching representation");
    if v.Failure? {
      r := Failure(v.error);
    } else if v.value.Representation? {
      g.cachedResponse := true;
      r := Success(v.value.response);
    } else {
      r := Failure(Corrupt);
    }
  }

  // ---------------------------------------------------------------- storability

  const DefaultExpirationSeconds := 300

  /** The conditions checked before any header: a buffered 200 answer to a GET, without `Vary: *`. */
  predicate Admissible(req: Request, r: ResponseValue) {
    !r.streamed && req.httpMethod == "GET" && r.status == 200 && "*" !in r.vary
  }

  /**
   * `should_cache_response` at instant `now`. With a Cache-Control header the response
   * must not be private or no-cache, the request must not say no-store, and max-age must
   * be present and non-zero; without one, a present Expires must lie in the future;
   * without either, the request must have no query arguments.
   */
  function ShouldCacheResponse(req: Request, r: ResponseValue, now: int): (storable: bool)
    ensures storable ==> !r.streamed && req.httpMethod == "GET" && r.status == 200 && "*" !in r.vary
    ensures Admissible(req, r) && r.cacheControl != map[] ==>
              (storable <==> && "private" !in r.cacheControl
                             && "no-cache" !in r.cacheControl
                             && "no-store" !in req.cacheControl
                             && MaxAge(r.cacheControl).Some? && MaxAge(r.cacheControl).value != 0)
    ensures Admissible(req, r) && r.cacheControl == map[] && r.expires.Some? ==>
              (storable <==> r.expires.value > now)
    ensures Admissible(req, r) && r.cacheControl == map[] && r.expires.None? ==>
              (storable <==> !HasArgs(req))
  {
    if r.streamed || req.httpMethod != "GET" || r.status != 200 || "*" in r.vary then false
    else if r.cacheControl != map[] then
      && "private" !in r.cacheControl
      && "no-cache" !in r.cacheControl
      && "no-store" !in req.cacheControl
      && MaxAge(r.cacheControl).Some? && MaxAge(r.cacheControl).value != 0
    else if r.expires.Some? then r.expires.value > now
    else !HasArgs(req)
  }

  /**
   * The timeout both entries are written with: max-age when present, else the seconds
   * until Expires, else the default.
   */
  function ResponseExpirySeconds(r: ResponseValue, now: int): (seconds: int)
    ensures MaxAge(r.cacheControl).Some? ==> seconds == MaxAge(r.cacheControl).value
    ensures MaxAge(r.cacheControl).None? && r.expires.Some? ==> now + seconds == r.expires.value
    ensures MaxAge(r.cacheControl).None? && r.expires.None? ==> seconds == DefaultExpirationSeconds
  {
    if MaxAge(r.cacheControl).Some? then MaxAge(r.cacheControl).value
    else if r.expires.Some? then r.expires.value - now
    else DefaultExpirationSeconds
  }

  /**
   * A bare "max-age" directive reads as -1, which is true in Python: such a response is
   * storable, and it is stored with timeout -1.
   */
  lemma BareMaxAgeIsStorable(req: Request, r: ResponseValue, now: int)
    requires Admissible(req, r) && r.cacheControl == map["max-age" := Bare]
    requires "no-store" !in req.cacheControl
    ensures ShouldCacheResponse(req, r, now)
    ensures ResponseExpirySeconds(r, now) == -1
  {
    assert "max-age" in r.cacheControl;
  }

  /** A storable response gets a non-zero timeout, and a positive one when it has no Cache-Control. */
  lemma StoredTimeoutIsUsable(req: Request, r: ResponseValue, now: int)
    requires ShouldCacheResponse(req, r, now)
    ensures ResponseExpirySeconds(r, now) != 0
    ensures r.cacheControl == map[] ==> ResponseExpirySeconds(r, now) > 0
  {
  }

  /** A timeout as storage.py:101 produces it: a number, or the `total_seconds` method itself. */
  datatype Timeout = Seconds(n: int) | TotalSecondsMethod

  /** `response_expiry_seconds` as written: the Expires branch forgets to call `total_seconds`. */
  function ResponseExpiryAsWritten(r: ResponseValue, now: int): (t: Timeout)
    ensures t.TotalSecondsMethod? <==> MaxAge(r.cacheControl).None? && r.expires.Some?
    ensures t.Seconds? ==> t.n == ResponseExpirySeconds(r, now)
  {
    if MaxAge(r.cacheControl).Some? then Seconds(MaxAge(r.cacheControl).value)
    else if r.expires.Some? then TotalSecondsMethod
    else Seconds(DefaultExpirationSeconds)
  }

  /**
   * A storable response with only an Expires header gets no numeric timeout as written,
   * so the backend's `set` cannot compute an expiry time for it.
   */
  lemma ExpiresOnlyResponseHasNoTimeout(now: int)
    ensures var req := Request("GET", "/foo", "", map[], {}, ETags(false, {}));
            var r := ResponseValue(200, "foo", false, map[], [], Some(now + 60), None, None, None, None);
            ShouldCacheResponse(req, r, now) && ResponseExpiryAsWritten(r, now) == TotalSecondsMethod
            && ResponseExpirySeconds(r, now) == 60
  {
  }

  // ---------------------------------------------------------------- storing

  /**
   * The metadata `get_or_create_metadata` settles on: the record this request already
   * fetched, otherwise a new one from the response's vary set and a fresh salt.
   */
  function MetadataFor(g: GValue, r: ResponseValue, salt: string): (m: Metadata)
    ensures g.cacheMetadata.Some? ==> m == g.cacheMetadata.value
    ensures g.cacheMetadata.None? ==> m.vary == r.vary && m.salt == salt
  {
    if g.cacheMetadata.Some? then g.cacheMetadata.value else Metadata(r.vary, salt)
  }

  /**
   * What `cache_response` returns and leaves in the backend: the response marked as a
   * hit, stored under its representation key, and the metadata stored when it is new,
   * both with the same timeout; no other key changes.
   */
  function StoredExchange(env: Env, req: Request, g: GValue, r: ResponseValue,
                          entries: map<string, Entry>, now: int, salt: string)
    : (out: (ResponseValue, map<string, Entry>))
    ensures out.0 == r.(xCache := Some("hit"))
    ensures var key := ResponseCacheKey(env, req, MetadataFor(g, r, salt));
            key in out.1 && out.1[key] == Entry(Representation(out.0), ResponseExpirySeconds(r, now))
    ensures g.cacheMetadata.None? ==>
              && MetadataCacheKey(req) in out.1
              && out.1[MetadataCacheKey(req)]
                 == Entry(MetadataState(GetState(MetadataFor(g, r, salt))), ResponseExpirySeconds(r, now))
    ensures out.1.Keys == entries.Keys + {ResponseCacheKey(env, req, MetadataFor(g, r, salt))}
                          + (if g.cacheMetadata.None? then {MetadataCacheKey(req)} else {})
    ensures forall k :: k in entries && k != MetadataCacheKey(req) && k != ResponseCacheKey(env, req, MetadataFor(g, r, salt))
              ==> out.1[k] == entries[k]
    ensures g.cacheMetadata.Some? && MetadataCacheKey(req) in entries ==>
              out.1[MetadataCacheKey(req)] == entries[MetadataCacheKey(req)]
  {
    var expiry := ResponseExpirySeconds(r, now);
    var m := MetadataFor(g, r, salt);
    var withMetadata :=
      if g.cacheMetadata.Some? then entries
      else entries[MetadataCacheKey(req) := Entry(MetadataState(GetState(m)), expiry)];
    var hit := r.(xCache := Some("hit"));
    MetadataKeyIsNotRepresentationKey(env, req, req, m);
    (hit, withMetadata[ResponseCacheKey(env, req, m) := Entry(Representation(hit), expiry)])
  }

  method StoreMetadata(cache: Cache, req: Request, m: Metadata, expirySeconds: int) returns (stored: Metadata)
    modifies cache
    ensures stored == m
    ensures cache.entries == old(cache.entries)[MetadataCacheKey(req) := Entry(MetadataState(GetState(m)), expirySeconds)]
  {
    cache.Set(MetadataCacheKey(req), MetadataState(GetState(m)), expirySeconds);
    stored := m;
  }

  method GetOrCreateMetadata(cache: Cache, req: Request, g: G, response: Response,
                             expirySeconds: int, salt: string) returns (m: Metadata)
    modifies cache
    ensures m == MetadataFor(g.Value(), response.Value(), salt)
    ensures g.cacheMetadata.Some? ==> cache.entries == old(cache.entries)
    ensures g.cacheMetadata.None? ==>
              cache.entries == old(cache.entries)[MetadataCacheKey(req) := Entry(MetadataState(GetState(m)), expirySeconds)]
  {
    if g.cacheMetadata.Some? {
      m := g.cacheMetadata.value;
    } else {
      m := Metadata(response.vary, salt);
      var _ := StoreMetadata(cache, req, m, expirySeconds);
    }
  }

  method StoreResponse(env: Env, cache: Cache, req: Request, m: Metadata, response: Response, expirySeconds: int)
    modifies cache
    ensures cache.entries == old(cache.entries)[ResponseCacheKey(env, req, m) := Entry(Representation(response.Value()), expirySeconds)]
  {
    cache.Set(ResponseCacheKey(env, req, m), Representation(response.Value()), expirySeconds);
  }

  method MarkCacheHit(response: Response)
    modifies response
    ensures response.Value() == old(response.Value()).(xCache := Some("hit"))
  {
    response.xCache := Some("hit");
  }

  method MarkCacheMiss(response: Response)
    modifies response
    ensures response.Value() == old(response.Value()).(xCache := Some("miss"))
  {
    response.xCache := Some("miss");
  }

  method CacheResponse(env: Env, cache: Cache, req: Request, g: G, response: Response, now: int, salt: string)
    modifies cache, response
    ensures (response.Value(), cache.entries)
            == StoredExchange(env, req, g.Value(), old(response.Value()), old(cache.entries), now, salt)
  {
    var expirySeconds := ResponseExpirySeconds(response.Value(), now);
    var m := GetOrCreateMetadata(cache, req, g, response, expirySeconds, salt);
    MarkCacheHit(response);
    StoreResponse(env, cache, req, m, response, expirySeconds);
  }

  // ---------------------------------------------------------------- invalidation

  /**
   * `should_invalidate_resource`: a response whose status starts with 2 or 3, to a
   * method other than GET and HEAD.
   */
  function ShouldInvalidateResource(req: Request, r: ResponseValue): (invalidate: bool)
    ensures invalidate <==> (LeadingDigit(r.status) == 2 || LeadingDigit(r.status) == 3) && !IsSafeMethod(req.httpMethod)
    ensures 100 <= r.status < 1000 ==> (invalidate <==> 200 <= r.status < 400 && !IsSafeMethod(req.httpMethod))
  {
    var d := LeadingDigit(r.status);
    if d != 2 && d != 3 then false
    else if req.httpMethod == "GET" || req.httpMethod == "HEAD" then false
    else true
  }

  method InvalidateResource(cache: Cache, req: Request)
    modifies cache
    ensures cache.entries == old(cache.entries) - {MetadataCacheKey(req)}
  {
    var _ := cache.Delete(MetadataCacheKey(req));
  }

  // ---------------------------------------------------------------- store, fetch, invalidate

  /**
   * Storing into an empty cache writes exactly the metadata and the representation, with
   * one timeout, and a later fetch for any request with the same coordinate and the same
   * vary header values finds the stored copy.
   */
  lemma StoreThenFetch(env: Env, req: Request, g: GValue, r: ResponseValue, now: int, salt: string,
                       later: Request, laterG: GValue)
    requires g.cacheMetadata.None?
    requires ':' !in salt
    requires forall i :: 0 <= i < |r.vary| ==> HeaderName(r.vary[i])
    requires RequestPathAndQuery(later) == RequestPathAndQuery(req)
    requires forall h :: h in r.vary ==> HeaderValue(later, h) == HeaderValue(req, h)
    ensures var (stored, entries) := StoredExchange(env, req, g, r, map[], now, salt);
            var mk := MetadataCacheKey(req);
            var rk := ResponseCacheKey(env, req, Metadata(r.vary, salt));
            && entries.Keys == {mk, rk}
            && |entries| == 2
            && entries[mk].timeout == entries[rk].timeout
            && FetchOutcome(env, entries, later, laterG).0 == Success(stored)
            && stored.body == r.body
  {
    var m := Metadata(r.vary, salt);
    var (stored, entries) := StoredExchange(env, req, g, r, map[], now, salt);
    var mk := MetadataCacheKey(req);
    var rk := ResponseCacheKey(env, req, m);
    MetadataKeyIsNotRepresentationKey(env, req, req, m);
    assert entries.Keys == {mk, rk};
    assert |entries.Keys| == 2;
    MetadataRoundTrip(m);
    assert MetadataCacheKey(later) == mk;
    assert MetadataLookup(entries, later) == Success(m);
    ResponseKeyIgnoresOtherHeaders(env, m, later, req);
  }

  /**
   * After invalidation a fetch misses for want of metadata, although the representation
   * written before is still in the backend.
   */
  lemma StoreInvalidateFetch(env: Env, req: Request, g: GValue, r: ResponseValue, now: int, salt: string,
                             later: Request, laterG: GValue)
    requires g.cacheMetadata.None?
    requires RequestPathAndQuery(later) == RequestPathAndQuery(req)
    ensures var entries := StoredExchange(env, req, g, r, map[], now, salt).1 - {MetadataCacheKey(req)};
            && ResponseCacheKey(env, req, Metadata(r.vary, salt)) in entries
            && FetchOutcome(env, entries, later, laterG).0 == Failure(CacheMiss("no resource metadata"))
  {
  }
}
