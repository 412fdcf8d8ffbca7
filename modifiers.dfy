/**
 * flask_webcache/modifiers.py: view decorators that queue response modifiers on the
 * request context (`cache_for`, `cache_control`), and the modifiers themselves.
 */
module Modifiers {
  import opened Wrappers
  import opened Http

  /**
   * The value given for one `cache_control` keyword: None removes the directive, a
   * boolean switches a flag directive on or off, an integer sets delta-seconds.
   */
  datatype Setting = Remove | Boolean(on: bool) | Integer(n: int)

  /**
   * A queued modifier. `Base` changes nothing; `CacheFor` carries its duration in
   * microseconds (the resolution of Python's `timedelta`); `CacheControl` carries its
   * keyword arguments in the order they are applied.
   */
  datatype Modifier =
    | Base
    | CacheFor(micros: int)
    | CacheControl(settings: seq<(string, Setting)>)

  /** The request context's `web_cache` list of queued modifiers. */
  class RequestCtx {
    var webCache: seq<Modifier>

    constructor ()
      ensures webCache == []
    {
      webCache := [];
    }
  }

  /** `setup_for_this_request`: the request starts with no modifiers queued. */
  method SetupForThisRequest(rc: RequestCtx)
    modifies rc
    ensures rc.webCache == []
  {
    rc.webCache := [];
  }

  /** `after_this_request`: queues the modifier behind those already queued. */
  method AfterThisRequest(m: Modifier, rc: RequestCtx)
    modifies rc
    ensures rc.webCache == old(rc.webCache) + [m]
  {
    rc.webCache := rc.webCache + [m];
  }

  /**
   * The view a modifier decorates: queueing happens before the view runs, and the
   * view's result is passed through.
   */
  method Decorated<A, B>(m: Modifier, rc: RequestCtx, view: A -> B, args: A) returns (result: B)
    modifies rc
    ensures rc.webCache == old(rc.webCache) + [m]
    ensures result == view(args)
  {
    AfterThisRequest(m, rc);
    result := view(args);
  }

  // ---------------------------------------------------------------- cache_for

  /** `int(timedelta.total_seconds())`: the whole seconds of a duration, truncated toward zero. */
  function TruncatedSeconds(micros: int): (s: int)
    ensures 0 <= micros ==> 0 <= s && s * 1000000 <= micros < (s + 1) * 1000000
    ensures micros < 0 ==> s <= 0 && (s - 1) * 1000000 < micros <= s * 1000000
  {
    if micros >= 0 then micros / 1000000 else -((-micros) / 1000000)
  }

  /**
   * The Expires instant `cache_for` writes, in whole seconds: `now` plus the duration,
   * with the sub-second part dropped as the HTTP date format drops it.
   */
  function ExpiresAfter(now: int, micros: int): (instant: int)
    ensures (instant - now) * 1000000 <= micros < (instant - now + 1) * 1000000
  {
    now + micros / 1000000
  }

  // ---------------------------------------------------------------- cache_control

  /** The Cache-Control directive a `ResponseCacheControl` attribute stands for, if any. */
  function DirectiveName(attribute: string): (d: Option<string>)
    ensures d.Some? ==> d.value in {"no-cache", "no-store", "max-age", "no-transform", "public",
                                    "private", "must-revalidate", "proxy-revalidate", "s-maxage"}
  {
    if attribute == "no_cache" then Some("no-cache")
    else if attribute == "no_store" then Some("no-store")
    else if attribute == "max_age" then Some("max-age")
    else if attribute == "no_transform" then Some("no-transform")
    else if attribute == "public" then Some("public")
    else if attribute == "private" then Some("private")
    else if attribute == "must_revalidate" then Some("must-revalidate")
    else if attribute == "proxy_revalidate" then Some("proxy-revalidate")
    else if attribute == "s_maxage" then Some("s-maxage")
    else None
  }

  /** Different attributes stand for different directives. */
  lemma DirectiveNameInjective(a: string, b: string)
    requires DirectiveName(a).Some? && DirectiveName(a) == DirectiveName(b)
    ensures a == b
  {
  }

  /**
   * The directives werkzeug types as boolean: setting one writes it bare when the value
   * is truthy and removes it otherwise.
   */
  predicate BoolTyped(directive: string) {
    directive in {"no-store", "public", "must-revalidate", "proxy-revalidate"}
  }

  /**
   * What one assignment leaves under its directive: nothing, a bare flag, or
   * delta-seconds. An integer on a boolean-typed directive counts by its truthiness.
   */
  function SettingValue(directive: string, s: Setting): (v: Option<Directive>)
    ensures s.Remove? ==> v.None?
    ensures s.Boolean? ==> (v.Some? <==> s.on) && (v.Some? ==> v.value == Bare)
    ensures s.Integer? && BoolTyped(directive) ==> (v.Some? <==> s.n != 0) && (v.Some? ==> v.value == Bare)
    ensures s.Integer? && !BoolTyped(directive) ==> v == Some(Delta(s.n))
  {
    match s
    case Remove => None
    case Boolean(on) => if on then Some(Bare) else None
    case Integer(n) =>
      if !BoolTyped(directive) then Some(Delta(n))
      else if n != 0 then Some(Bare)
      else None
  }

  function GetDirective(cc: CacheControl, d: string): Option<Directive> {
    if d in cc then Some(cc[d]) else None
  }

  /**
   * `setattr(response.cache_control, attribute, value)`: the attribute's directive takes
   * the setting's value; every other directive is left alone.
   */
  function Assigned(cc: CacheControl, attribute: string, s: Setting): (updated: CacheControl)
    ensures DirectiveName(attribute).Some? ==>
              GetDirective(updated, DirectiveName(attribute).value) == SettingValue(DirectiveName(attribute).value, s)
    ensures forall d :: Some(d) != DirectiveName(attribute) ==> GetDirective(updated, d) == GetDirective(cc, d)
  {
    match DirectiveName(attribute)
    case None => cc
    case Some(d) =>
      match SettingValue(d, s)
      case None => cc - {d}
      case Some(v) => cc[d := v]
  }

  /** The settings applied one after another, the last one last. */
  function AssignedAll(cc: CacheControl, settings: seq<(string, Setting)>): CacheControl
    decreases |settings|
  {
    if settings == [] then cc
    else
      var last := settings[|settings| - 1];
      Assigned(AssignedAll(cc, settings[..|settings| - 1]), last.0, last.1)
  }

  predicate DistinctAttributes(settings: seq<(string, Setting)>) {
    forall i, j | 0 <= i < j < |settings| :: settings[i].0 != settings[j].0
  }

  /** With distinct keyword names, every given directive ends up with its given value. */
  lemma {:induction false} AssignedAllSetsGiven(cc: CacheControl, settings: seq<(string, Setting)>, k: nat)
    requires DistinctAttributes(settings)
    requires k < |settings| && DirectiveName(settings[k].0).Some?
    ensures var d := DirectiveName(settings[k].0).value;
            GetDirective(AssignedAll(cc, settings), d) == SettingValue(d, settings[k].1)
    decreases |settings|
  {
    var n := |settings|;
    if k < n - 1 {
      var init := settings[..n - 1];
      assert init[k] == settings[k];
      AssignedAllSetsGiven(cc, init, k);
      if DirectiveName(settings[n - 1].0) == DirectiveName(settings[k].0) {
        DirectiveNameInjective(settings[k].0, settings[n - 1].0);
      }
    }
  }

  /** Directives no keyword names keep the value they had. */
  lemma {:induction false} AssignedAllKeepsOthers(cc: CacheControl, settings: seq<(string, Setting)>, d: string)
    requires forall i | 0 <= i < |settings| :: DirectiveName(settings[i].0) != Some(d)
    ensures GetDirective(AssignedAll(cc, settings), d) == GetDirective(cc, d)
    decreases |settings|
  {
    var n := |settings|;
    if n > 0 {
      var init := settings[..n - 1];
      assert forall i | 0 <= i < |init| :: init[i] == settings[i];
      AssignedAllKeepsOthers(cc, init, d);
    }
  }

  /**
   * `cache_control(**kwargs)`: every keyword must name a Cache-Control attribute; the
   * first that does not is reported, as the TypeError does.
   */
  method NewCacheControl(settings: seq<(string, Setting)>) returns (r: Result<Modifier, string>)
    ensures r.Success? <==> forall i | 0 <= i < |settings| :: DirectiveName(settings[i].0).Some?
    ensures r.Success? ==> r.value == CacheControl(settings)
    ensures r.Failure? ==> DirectiveName(r.error).None?
    ensures r.Failure? ==> exists i | 0 <= i < |settings| :: settings[i].0 == r.error
  {
    var i := 0;
    while i < |settings|
      invariant 0 <= i <= |settings|
      invariant forall j | 0 <= j < i :: DirectiveName(settings[j].0).Some?
    {
      if DirectiveName(settings[i].0).None? {
        return Failure(settings[i].0);
      }
      i := i + 1;
    }
    return Success(CacheControl(settings));
  }

  // ---------------------------------------------------------------- applying modifiers

  /**
   * `modify_response` of each modifier at instant `now`: only the Cache-Control header
   * and, for `cache_for`, the Expires field change.
   */
  function Modified(m: Modifier, r: ResponseValue, now: int): (modified: ResponseValue)
    ensures modified == r.(cacheControl := modified.cacheControl, expires := modified.expires)
    ensures m.Base? ==> modified == r
    ensures m.CacheFor? ==> MaxAge(modified.cacheControl) == Some(TruncatedSeconds(m.micros))
    ensures m.CacheFor? ==> modified.expires == Some(ExpiresAfter(now, m.micros))
    ensures m.CacheFor? ==> forall d :: d != "max-age" ==> GetDirective(modified.cacheControl, d) == GetDirective(r.cacheControl, d)
    ensures !m.CacheFor? ==> modified.expires == r.expires
    ensures m.CacheControl? ==> modified.cacheControl == AssignedAll(r.cacheControl, m.settings)
  {
    match m
    case Base => r
    case CacheFor(micros) =>
      r.(cacheControl := r.cacheControl["max-age" := Delta(TruncatedSeconds(micros))],
         expires := Some(ExpiresAfter(now, micros)))
    case CacheControl(settings) => r.(cacheControl := AssignedAll(r.cacheControl, settings))
  }

  method ModifyResponse(m: Modifier, response: Response, now: int)
    modifies response
    ensures response.Value() == Modified(m, old(response.Value()), now)
  {
    match m {
      case Base =>
      case CacheFor(micros) =>
        response.cacheControl := response.cacheControl["max-age" := Delta(TruncatedSeconds(micros))];
        response.expires := Some(ExpiresAfter(now, micros));
      case CacheControl(settings) =>
        var i := 0;
        while i < |settings|
          invariant 0 <= i <= |settings|
          invariant response.Value() == old(response.Value()).(cacheControl := AssignedAll(old(response.cacheControl), settings[..i]))
        {
          response.cacheControl := Assigned(response.cacheControl, settings[i].0, settings[i].1);
          assert settings[..i + 1][..i] == settings[..i];
          i := i + 1;
        }
        assert settings[..|settings|] == settings;
    }
  }

  /** Of two `cache_for` modifiers, the one applied later decides max-age and Expires. */
  lemma LaterCacheForWins(first: int, second: int, r: ResponseValue, now: int)
    ensures var twice := Modified(CacheFor(second), Modified(CacheFor(first), r, now), now);
            && MaxAge(twice.cacheControl) == Some(TruncatedSeconds(second))
            && twice.expires == Some(ExpiresAfter(now, second))
            && twice == Modified(CacheFor(second), r, now)
  {
  }

  /**
   * A `cache_control` modifier with distinct keywords gives each named directive its
   * value and leaves the directives it does not name as they were.
   */
  lemma CacheControlSetsExactlyGiven(settings: seq<(string, Setting)>, r: ResponseValue, now: int, d: string)
    requires DistinctAttributes(settings)
    ensures var cc := Modified(CacheControl(settings), r, now).cacheControl;
            && (forall k | 0 <= k < |settings| && DirectiveName(settings[k].0) == Some(d) ::
                  GetDirective(cc, d) == SettingValue(d, settings[k].1))
            && ((forall k | 0 <= k < |settings| :: DirectiveName(settings[k].0) != Some(d)) ==>
                  GetDirective(cc, d) == GetDirective(r.cacheControl, d))
  {
    forall k | 0 <= k < |settings| && DirectiveName(settings[k].0) == Some(d)
      ensures GetDirective(AssignedAll(r.cacheControl, settings), d) == SettingValue(d, settings[k].1)
    {
      AssignedAllSetsGiven(r.cacheControl, settings, k);
    }
    if forall k | 0 <= k < |settings| :: DirectiveName(settings[k].0) != Some(d) {
      AssignedAllKeepsOthers(r.cacheControl, settings, d);
    }
  }
}
