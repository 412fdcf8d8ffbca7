# flask-webcache, modelled in Dafny

flask-webcache is a Flask extension that acts as an HTTP cache inside the application.
A request hook answers a GET from a key-value cache backend when it holds a stored
representation. A response hook does five things to every response:
- stamps Date and Last-Modified;
- applies the modifiers a view queued (`cache_for`, `cache_control`);
- adds an ETag;
- answers matching If-None-Match requests with 304;
- stores the response when the HTTP caching rules allow it, or drops the resource's metadata when an unsafe method succeeded.

The model has one module per source file, plus three supporting modules:
- `Wrappers`: Option and Result.
- `Http`: the parts of Flask/werkzeug requests and responses the layer touches, and the header-set text format.
- `Backend`: the werkzeug cache interface.

The model takes the same form as the source:
- Objects changed in place are classes whose methods are tied, by their postconditions, to pure functions on values: the response, the backend `Cache`, Flask's `g`, the request context's modifier list, and the application's extensions.
- The rules themselves are pure functions.
- The properties the code promises are proved as postconditions and lemmas over those functions.

Two things are parameters rather than computed:
- The MD5 digest is the parameter `md5: string -> string`. Whatever the digest function, a key depends only on the text it is computed over.
- The current time is one integer `now` per hook call, counted in seconds. Random salts are passed in as `salt`.

The backend keeps metadata in its pickled text form. Fetching therefore goes through `Metadata.__setstate__`, and the round trip of that format is part of the store-then-fetch proof.

## Model

| member | source | states |
|---|---|---|
| Storage.NewConfig | flask_webcache/storage.py:13-19 | succeeds iff no unknown keyword is given; defaults are no exemptions and an empty master salt; a failure names one of the unknown keywords |
| Storage.GetState | flask_webcache/storage.py:25-26 | the text is the salt, a colon, then the vary list as a header value; for a colon-free salt that colon is the first one |
| Storage.SetState | flask_webcache/storage.py:27-29 | decoding succeeds iff the text holds a colon; the salt is then the colon-free text before the first colon, and the vary list is parsed from the text after it |
| Storage.MetadataRoundTrip | flask_webcache/storage.py:25-29 | decoding the encoded metadata gives back the same salt and vary list, when the salt has no colon and the vary names are valid header names |
| Http.HeaderSetRoundTrip | flask_webcache/storage.py:26-29 | a vary list written with `to_header` is read back unchanged by `parse_set_header` |
| Storage.RequestPathAndQuery | flask_webcache/storage.py:37-40 | the coordinate is the path alone for an empty query string, else path, "?" and query |
| Storage.MakeKey | flask_webcache/storage.py:41-42 | two or three bits are joined with ":" between them |
| Storage.MetadataCacheKey | flask_webcache/storage.py:41-44 | the metadata key is "metadata:" followed by the coordinate |
| Storage.ResponseCacheKey | flask_webcache/storage.py:45-52 | the representation key is "representation:", the digest of the vary text, salt and master salt, ":", then the coordinate |
| Storage.CoordinateIdentifiesTarget | flask_webcache/storage.py:37-40 | for paths without '?', equal coordinates mean equal path and equal query string; a decoded path holding '?' (from `%3F`) can collide, as `CoordinateCollision` shows |
| Storage.CoordinateCollision | flask_webcache/storage.py:37-40 | a decoded path "/a?b" with no query and the path "/a" with query "b" get the same coordinate |
| Storage.MetadataKeyIdentifiesCoordinate | flask_webcache/storage.py:43-44 | equal metadata keys mean equal coordinates |
| Storage.MetadataKeyIsNotRepresentationKey | flask_webcache/storage.py:41-52 | no metadata key equals a representation key |
| Storage.ResponseKeyIgnoresOtherHeaders | flask_webcache/storage.py:45-52 | requests with the same coordinate that agree on the vary headers get the same representation key, whatever their other headers |
| Storage.IsExempt | flask_webcache/storage.py:58-62 | the early-return loop answers true iff some configured prefix starts the request path |
| Storage.GetOrMiss | flask_webcache/storage.py:53-57 | a present key gives its stored value; an absent key gives a CacheMiss with the given message |
| Storage.MetadataLookup | flask_webcache/storage.py:53-67 | misses iff the metadata key is absent; stored metadata text that decodes is returned decoded, and a success is always such a decoding; a stored value that is not decodable metadata is reported as corrupt |
| Storage.FetchOutcome | flask_webcache/storage.py:68-74 | a metadata failure is passed on with `g` untouched; found metadata is recorded in `g`; then an absent representation key gives CacheMiss("no matching representation"), and a stored representation is returned with `cached_response` set; a success always comes from that key |
| Storage.FetchMetadata | flask_webcache/storage.py:65-67 | the method's result is `MetadataLookup` of the backend |
| Storage.FetchResponse | flask_webcache/storage.py:68-74 | the method's result and new `g` are `FetchOutcome` of the backend and the old `g` |
| Storage.ShouldCacheResponse | flask_webcache/storage.py:78-96 | never for a streamed, non-GET, non-200 or `Vary: *` response; with Cache-Control: not private, not no-cache, request not no-store, and max-age present and non-zero; otherwise Expires in the future when present; otherwise no query arguments |
| Storage.ResponseExpirySeconds | flask_webcache/storage.py:97-102 | max-age when present; otherwise the seconds from now until Expires; otherwise 300 |
| Storage.BareMaxAgeIsStorable | flask_webcache/storage.py:85-99 | a bare `max-age` reads as -1, so the response is storable and its timeout is -1 |
| Storage.StoredTimeoutIsUsable | flask_webcache/storage.py:78-102 | a storable response gets a non-zero timeout, and a positive one when it has no Cache-Control |
| Storage.ResponseExpiryAsWritten | flask_webcache/storage.py:97-102 | as written, the Expires-only case yields the `total_seconds` method instead of a number; every other case agrees with `ResponseExpirySeconds` |
| Storage.ExpiresOnlyResponseHasNoTimeout | flask_webcache/storage.py:92-101 | a storable 200 response with only an Expires header 60 s ahead gets no numeric timeout as written, where 60 was meant |
| Storage.MetadataFor | flask_webcache/storage.py:103-110 | metadata already fetched in this request is reused; otherwise new metadata holds the response's vary list and the fresh salt |
| Storage.GetOrCreateMetadata | flask_webcache/storage.py:103-110 | returns `MetadataFor`; stores the metadata only when it is new |
| Storage.StoreMetadata | flask_webcache/storage.py:111-114 | writes the encoded metadata under the metadata key with the given timeout and returns it |
| Storage.StoreResponse | flask_webcache/storage.py:115-118 | writes the response under its representation key with the given timeout |
| Storage.StoredExchange | flask_webcache/storage.py:119-123 | the response is marked hit and stored under its representation key; new metadata is stored with the same timeout; no other key changes |
| Storage.CacheResponse | flask_webcache/storage.py:119-123 | the method's new response and backend are `StoredExchange` of the old ones |
| Storage.MarkCacheHit | flask_webcache/storage.py:124-126 | sets X-Cache to "hit" and changes nothing else |
| Storage.MarkCacheMiss | flask_webcache/storage.py:127-129 | sets X-Cache to "miss" and changes nothing else |
| Storage.ShouldInvalidateResource | flask_webcache/storage.py:130-135 | true iff the status starts with 2 or 3 and the method is neither GET nor HEAD |
| Storage.InvalidateResource | flask_webcache/storage.py:136-137 | deletes only the metadata key |
| Storage.StoreThenFetch | flask_webcache/storage.py:103-123 | storing into an empty cache writes exactly two keys with one timeout; a fetch for the same coordinate and vary header values returns the stored copy |
| Storage.StoreInvalidateFetch | flask_webcache/storage.py:119-137 | after invalidation a fetch misses for want of metadata, although the representation is still stored |
| Backend.Cache.Get | flask_webcache/storage.py:54 | the stored value, or None for an absent key |
| Backend.Cache.Set | flask_webcache/storage.py:113 | overwrites one key with the value and timeout |
| Backend.Cache.Add | flask_webcache/utils.py:22 | stores only when the key is absent and says whether it did |
| Backend.Cache.Delete | flask_webcache/storage.py:137 | removes one key |
| Validation.CanSetEtag | flask_webcache/validation.py:10-15 | true iff the response is not streamed, has no ETag and has status 200 |
| Validation.WithEtag | flask_webcache/validation.py:16-17 | the ETag becomes the digest of the body, and nothing else changes |
| Validation.SetEtag | flask_webcache/validation.py:16-17 | the new response is `WithEtag` of the old one |
| Validation.EqualBodiesEqualEtags | flask_webcache/validation.py:16-17 | any two responses with equal bodies are given equal ETags |
| Validation.IfNoneMatch | flask_webcache/validation.py:19-23 | false unless the status is 2xx or 304; otherwise true iff If-None-Match is `*` or lists the response's ETag |
| Validation.NotModified | flask_webcache/validation.py:24-37 | GET and HEAD get an empty 304; other methods keep the body and get 501, or no change at all when the ignore flag is set |
| Validation.ReturnNotModifiedResponse | flask_webcache/validation.py:24-37 | the new response is `NotModified` of the old one |
| Validation.WithDates | flask_webcache/validation.py:38-43 | Date and Last-Modified are both present afterwards; present fields are kept; missing ones get the same single instant; nothing else changes |
| Validation.AddDateFields | flask_webcache/validation.py:38-43 | the new response is `WithDates` of the old one |
| Validation.WithDatesIdempotent | flask_webcache/validation.py:38-43 | stamping the dates a second time changes nothing |
| Http.MaxAge | flask_webcache/storage.py:90-98 | absent iff no max-age directive; a bare directive reads as -1, one with delta-seconds as its argument |
| Utils.EffectiveMaxAge | flask_webcache/utils.py:7-12 | s-maxage whenever present; otherwise max-age; absent iff both are absent |
| Utils.NoneOrTruthy | flask_webcache/utils.py:14-17 | true for an absent value, else true iff the value is non-zero |
| Utils.GetOrAdd | flask_webcache/utils.py:19-24 | a value already stored wins and is returned unchanged; otherwise the new value is stored with the timeout and returned; no other key changes; the loop runs once |
| Modifiers.SetupForThisRequest | flask_webcache/modifiers.py:10-11 | the modifier list becomes empty |
| Modifiers.AfterThisRequest | flask_webcache/modifiers.py:20-21 | the modifier is appended to the list |
| Modifiers.Decorated | flask_webcache/modifiers.py:14-19 | the modifier is queued, and the view's result is returned unchanged |
| Modifiers.TruncatedSeconds | flask_webcache/modifiers.py:32 | the whole seconds of a duration, truncated toward zero |
| Modifiers.ExpiresAfter | flask_webcache/modifiers.py:33 | the Expires instant is now plus the duration rounded down to whole seconds: never after now plus the duration, and less than one second before it |
| Modifiers.DirectiveNameInjective | flask_webcache/modifiers.py:39 | different attribute names stand for different directives |
| Modifiers.SettingValue | flask_webcache/modifiers.py:45 | removal, a bare flag for true, delta-seconds for an integer; on the boolean-typed directives (no-store, public, must-revalidate, proxy-revalidate) an integer gives a bare flag when non-zero and removal when zero |
| Modifiers.Assigned | flask_webcache/modifiers.py:45 | the named directive takes the setting's value; every other directive is untouched |
| Modifiers.NewCacheControl | flask_webcache/modifiers.py:37-42 | accepted iff every keyword names a Cache-Control attribute; a rejection names an unknown keyword that was given |
| Modifiers.Modified | flask_webcache/modifiers.py:22-45 | only Cache-Control and Expires change; `cache_for` sets max-age to the truncated seconds and Expires to `ExpiresAfter`, and leaves other directives alone; `cache_control` applies its settings |
| Modifiers.ModifyResponse | flask_webcache/modifiers.py:30-45 | the new response is `Modified` of the old one; the `cache_control` loop applies the settings in order |
| Modifiers.LaterCacheForWins | flask_webcache/modifiers.py:30-33 | after two `cache_for` modifiers, max-age and Expires are those of the second, as if it were applied alone |
| Modifiers.AssignedAllSetsGiven | flask_webcache/modifiers.py:43-45 | with distinct keywords, each given directive ends with its given value |
| Modifiers.AssignedAllKeepsOthers | flask_webcache/modifiers.py:43-45 | directives no keyword names keep their values |
| Modifiers.CacheControlSetsExactlyGiven | flask_webcache/modifiers.py:43-45 | `cache_control` sets exactly the given directives and leaves the others as they were |
| Handlers.RegisterExtension | flask_webcache/handlers.py:6-9 | creates the extensions and "webcache" dictionaries when missing; files the object under its name; keeps every other entry |
| Handlers.ApplyModifiers | flask_webcache/handlers.py:38-39 | modifiers apply in queue order; only Cache-Control and Expires change; without `cache_for` Expires is kept; a final `cache_for` decides max-age |
| Handlers.Prepared | flask_webcache/handlers.py:37-41 | after dates, modifiers and the ETag step: existing dates kept and missing ones set to now; Cache-Control and Expires are those the queued modifiers give in order; body, status and vary kept; an existing ETag kept; an eligible response tagged with its body's digest |
| Handlers.PublicZeroKeepsStorable | flask_webcache/storage.py:85-96 | `cache_control(public=0)` on a response without Cache-Control leaves the header absent, so a plain GET without query arguments stays storable |
| Handlers.PreparedIsStable | flask_webcache/handlers.py:37-41 | with no modifiers queued, a response that already has dates and an ETag passes those steps unchanged |
| Handlers.BeforeRequestOutcome | flask_webcache/handlers.py:19-26 | no fetch when the request is not to be fetched or is exempt; otherwise a found representation is served, a CacheMiss on either key falls through, and any other fault surfaces; as written the flag the response hook reads stays false |
| Handlers.BeforeRequestOutcomeFixed | flask_webcache/handlers.py:19-26 | the same answer, with the flag set exactly when a stored response is served |
| Handlers.BeforeRequest | flask_webcache/handlers.py:19-26 | empties the modifier list; the result and new `g` are `BeforeRequestOutcome`, the hook as written |
| Handlers.AfterRequestOutcome | flask_webcache/handlers.py:36-51 | dates always present; a matching If-None-Match gives the not-modified answer with no backend change; a set flag sends the prepared response with no backend change; new keys appear only when the response is stored; an exempt path is never stored; when the response is neither matched nor flagged nor stored, it is sent as prepared and the metadata is removed exactly when the status is 2xx/3xx and the method unsafe; a stored response is sent as `StoredExchange` leaves it but marked "miss", and the backend is exactly what `StoredExchange` writes (metadata when new, one timeout, other keys kept) |
| Handlers.AfterRequest | flask_webcache/handlers.py:36-51 | the method's new response and backend are `AfterRequestOutcome`; the loop applies the queued modifiers in order |
| Handlers.FirstRequestStores | flask_webcache/handlers.py:19-51 | the first request of a cacheable exchange falls through, its response is sent as a miss, and a later fetch finds the copy marked hit |
| Handlers.SecondRequestReportedAsMiss | flask_webcache/handlers.py:19-51 | as written, a second identical request is served from the cache and then re-stored and sent as a miss |
| Handlers.SecondRequestReportedAsHitWhenFixed | flask_webcache/handlers.py:19-51 | with the flag set on a hit, the second request is sent as the stored hit and the backend is unchanged |

## Left out

- flask_webcache/recache.py is not part of this model. It works with threads, a job queue and subprocesses.
- `make_salt` (flask_webcache/utils.py:4-5) draws random bits. The salt is a parameter, assumed free of ':', as `hex` output is.
- Storage.ResponseCacheKey: MD5 is an uninterpreted function. So the model does not show that different vary header values or a new master salt give a different key; it only shows that the key depends on nothing else.
- Validation.WithEtag: the digest is the same uninterpreted function. Only "equal bodies give equal tags" is proved.
- The clock: the source mixes `datetime.now()` with `datetime.utcnow()`. The model uses one instant `now` per hook call, in whole seconds.
- Modifiers.ExpiresAfter: drops the sub-second part of Expires, as the HTTP date format does.
- `should_fetch_response`, called at flask_webcache/handlers.py:23, is not defined in storage.py. It is the parameter `shouldFetch`.
- Storage.NewConfig: Python reports whichever unknown keyword `popitem` yields. The model reports the last one given.
- Modifiers.Assigned: `False` on a directive werkzeug does not type as boolean is modelled as removal. werkzeug would write `directive=False`.
- Modifiers.DirectiveName: knows only the nine Cache-Control attributes. Method names of werkzeug's class pass `hasattr` in the source; the model rejects them.
- Http.HeaderValue: werkzeug looks request headers up without regard to case. The model looks names up exactly, so vary names and request header names are taken to be written in one canonical case.
- Http.ParseSetHeader: werkzeug's quoting rules for header sets are not modelled. Names are split at commas and stripped of blanks.
- Response freezing and pickling (flask_webcache/storage.py:117) are not modelled. A stored response is a value snapshot.
- The backend never evicts expired entries in the model. Timeouts are only recorded.
- Handlers.App: the extensions dictionary holds only registries of the one object type being registered.
- `init_app`, the handler constructors and `easy_setup` are not modelled. They only register hooks.
- The request hook's path through an earlier hook that already answered is not modelled. Flask would then skip `before_request` and the response hook would find no flag on `g`.
- The test suite expects behaviour with no implementation in these files: freshness checks, pre-emptive recache and extra `Config` options. It also expects two things the code does not do: 204 responses storable, and `must-revalidate` alone storable. The model follows the code. It treats 204 as not storable, and `must-revalidate` without a non-zero max-age as not storable.
- `werkzeug_cache_get_or_add` is modelled (Utils.GetOrAdd) but, as in the source, unused. Metadata is written with a plain `set`.

## Findings

| source | as written | input that shows it | evidently intended | confidence | as-written member | corrected member |
|---|---|---|---|---|---|---|
| flask_webcache/storage.py:101 | `(response.expires - datetime.now()).total_seconds` is not called, so the timeout is a bound method | a GET answered 200 with body "foo", no Cache-Control, and Expires 60 s ahead: storable, and its timeout is not a number | the number of seconds until Expires (60) | not executed | Storage.ResponseExpiryAsWritten (shown by Storage.ExpiresOnlyResponseHasNoTimeout) | Storage.ResponseExpirySeconds (Storage.StoredTimeoutIsUsable) |
| flask_webcache/storage.py:73 | a hit is recorded in `g.cached_response`, but flask_webcache/handlers.py:44 reads `g.webcache_cached_response`, which stays False | two identical GETs of a storable resource: the second is served from the cache, stored again, and sent with X-Cache "miss" | a served hit bypasses storing and is sent with X-Cache "hit" | not executed | Handlers.BeforeRequestOutcome (shown by Handlers.SecondRequestReportedAsMiss) | Handlers.BeforeRequestOutcomeFixed (Handlers.SecondRequestReportedAsHitWhenFixed) |
