/**
 * The parts of a Flask/werkzeug request and response that the caching layer reads or
 * writes, and the text helpers it relies on: prefix tests, splitting at a separator,
 * and werkzeug's header-set format (`Vary: a, b`).
 */
module Http {
  import opened Wrappers

  // ---------------------------------------------------------------- strings

  predicate IsSpace(c: char) {
    c == ' ' || c == '\t'
  }

  /** Python's `s.startswith(prefix)`. */
  predicate StartsWith(s: string, prefix: string) {
    |prefix| <= |s| && s[..|prefix|] == prefix
  }

  /** The index of the first `c` in `s`, as `s.index(c)` finds it. */
  function IndexOf(s: string, c: char): (r: Option<nat>)
    ensures r.Some? ==> r.value < |s| && s[r.value] == c && c !in s[..r.value]
    ensures r.None? ==> c !in s
  {
    if |s| == 0 then None
    else if s[0] == c then Some(0)
    else match IndexOf(s[1..], c)
      case None => None
      case Some(i) =>
        assert s[..i + 1] == [s[0]] + s[1..][..i];
        Some(i + 1)
  }

  /** The first `c` in `a + [c] + b` is the one after `a` when `a` holds none. */
  lemma IndexOfAfter(a: string, c: char, b: string)
    requires c !in a
    ensures IndexOf(a + [c] + b, c) == Some(|a|)
  {
    var s := a + [c] + b;
    assert s[|a|] == c;
    assert forall j | 0 <= j < |a| :: s[j] == a[j] && s[j] != c;
    var i := IndexOf(s, c).value;
    assert forall j | 0 <= j < i :: s[j] == s[..i][j] && s[j] != c;
  }

  /** `s.split(c)`: the pieces between the separators, at least one. */
  function Split(s: string, c: char): (parts: seq<string>)
    ensures |parts| >= 1
    decreases |s|
  {
    if |s| == 0 then [""]
    else
      var rest := Split(s[1..], c);
      if s[0] == c then [""] + rest
      else [[s[0]] + rest[0]] + rest[1..]
  }

  /** `sep.join(parts)`. */
  function Join(parts: seq<string>, sep: string): string {
    if |parts| == 0 then ""
    else if |parts| == 1 then parts[0]
    else parts[0] + sep + Join(parts[1..], sep)
  }

  lemma JoinPair(a: string, b: string, sep: string)
    ensures Join([a, b], sep) == a + sep + b
  {
  }

  lemma {:induction false} SplitWithoutSeparator(s: string, c: char)
    requires c !in s
    ensures Split(s, c) == [s]
    decreases |s|
  {
    if |s| > 0 {
      SplitWithoutSeparator(s[1..], c);
      assert [s[0]] + s[1..] == s;
    }
  }

  lemma {:induction false} SplitAtFirstSeparator(a: string, c: char, b: string)
    requires c !in a
    ensures Split(a + [c] + b, c) == [a] + Split(b, c)
    decreases |a|
  {
    var s := a + [c] + b;
    if |a| == 0 {
      assert s == [c] + b && s[1..] == b;
    } else {
      SplitAtFirstSeparator(a[1..], c, b);
      assert s[1..] == a[1..] + [c] + b;
      assert [a[0]] + a[1..] == a;
    }
  }

  /** Splitting a character off the front of a separator-free-headed string. */
  lemma SplitCons(x: char, s: string, c: char)
    requires x != c
    ensures Split([x] + s, c) == [[x] + Split(s, c)[0]] + Split(s, c)[1..]
  {
  }

  /** `s` without its leading blanks. */
  function TrimLeft(s: string): (r: string)
    ensures |r| <= |s| && r == s[|s| - |r|..]
    ensures forall i | 0 <= i < |s| - |r| :: IsSpace(s[i])
    ensures r == "" || !IsSpace(r[0])
  {
    if |s| > 0 && IsSpace(s[0]) then TrimLeft(s[1..]) else s
  }

  /** `s` without its trailing blanks. */
  function TrimRight(s: string): (r: string)
    ensures |r| <= |s| && r == s[..|r|]
    ensures forall i | |r| <= i < |s| :: IsSpace(s[i])
    ensures r == "" || !IsSpace(r[|r| - 1])
  {
    if |s| > 0 && IsSpace(s[|s| - 1]) then TrimRight(s[..|s| - 1]) else s
  }

  /** Python's `s.strip()`, for the blanks a header may carry. */
  function Strip(s: string): string {
    TrimRight(TrimLeft(s))
  }

  function StripAll(parts: seq<string>): (r: seq<string>)
    ensures |r| == |parts|
    ensures forall i :: 0 <= i < |parts| ==> r[i] == Strip(parts[i])
  {
    if parts == [] then [] else [Strip(parts[0])] + StripAll(parts[1..])
  }

  // ---------------------------------------------------------------- header sets

  /** A name that survives the round trip through the header-set text format. */
  predicate HeaderName(name: string) {
    name != "" && ',' !in name && !IsSpace(name[0]) && !IsSpace(name[|name| - 1])
  }

  /** werkzeug's `HeaderSet.to_header()`: the names joined by ", ". */
  function ToHeader(names: seq<string>): string {
    Join(names, ", ")
  }

  /** werkzeug's `parse_set_header`, read as a plain split at commas with blanks stripped. */
  function ParseSetHeader(value: string): seq<string> {
    if value == "" then [] else StripAll(Split(value, ','))
  }

  lemma StripHeaderName(name: string)
    requires HeaderName(name)
    ensures Strip(name) == name && Strip(" " + name) == name
  {
  }

  /** The pieces of a joined header: the first name, then each further name behind a blank. */
  lemma {:induction false} SplitToHeader(names: seq<string>)
    requires |names| >= 1
    requires forall i :: 0 <= i < |names| ==> ',' !in names[i]
    ensures |Split(ToHeader(names), ',')| == |names|
    ensures Split(ToHeader(names), ',')[0] == names[0]
    ensures forall i :: 1 <= i < |names| ==> Split(ToHeader(names), ',')[i] == " " + names[i]
  {
    if |names| == 1 {
      SplitWithoutSeparator(names[0], ',');
    } else {
      var rest := names[1..];
      SplitToHeader(rest);
      var t := ToHeader(rest);
      assert ToHeader(names) == names[0] + [','] + ([' '] + t);
      SplitAtFirstSeparator(names[0], ',', [' '] + t);
      SplitCons(' ', t, ',');
      var parts := Split(ToHeader(names), ',');
      assert parts == [names[0]] + ([[' '] + Split(t, ',')[0]] + Split(t, ',')[1..]);
      forall i | 1 <= i < |names|
        ensures parts[i] == " " + names[i]
      {
        if i > 1 {
          assert parts[i] == Split(t, ',')[i - 1] == " " + rest[i - 1];
        }
      }
    }
  }

  /** A vary set written with `to_header` is read back unchanged by `parse_set_header`. */
  lemma HeaderSetRoundTrip(names: seq<string>)
    requires forall i :: 0 <= i < |names| ==> HeaderName(names[i])
    ensures ParseSetHeader(ToHeader(names)) == names
  {
    if |names| > 0 {
      SplitToHeader(names);
      var h := ToHeader(names);
      assert h != "" by {
        if |names| > 1 {
          assert h == names[0] + ", " + ToHeader(names[1..]);
        }
        assert |h| >= |names[0]| > 0;
      }
      var parts := Split(h, ',');
      forall i | 0 <= i < |names|
        ensures StripAll(parts)[i] == names[i]
      {
        StripHeaderName(names[i]);
      }
    }
  }

  // ---------------------------------------------------------------- status codes

  /**
   * The first character of werkzeug's `status` string ("200 OK"), that is the first
   * decimal digit of the status code.
   */
  function LeadingDigit(code: nat): (d: nat)
    ensures d < 10
    ensures code < 10 ==> d == code
    ensures 100 <= code < 1000 ==> d == code / 100
  {
    if code < 10 then code else LeadingDigit(code / 10)
  }

  // ---------------------------------------------------------------- requests

  /** The If-None-Match request header: `*`, or a set of strong entity tags. */
  datatype ETags = ETags(star: bool, strong: set<string>)

  /** werkzeug's `etag in request.if_none_match`: `*` holds anything, else the tag must be listed. */
  predicate ContainsETag(tags: ETags, etag: Option<string>) {
    tags.star || (etag.Some? && etag.value in tags.strong)
  }

  /**
   * An incoming request: method, path, raw query string, headers, the directives of
   * its Cache-Control header, and its If-None-Match header.
   */
  datatype Request = Request(
    httpMethod: string,
    path: string,
    queryString: string,
    headers: map<string, string>,
    cacheControl: set<string>,
    ifNoneMatch: ETags)

  /** `request.headers.get(name, '')`. */
  function HeaderValue(req: Request, name: string): string {
    if name in req.headers then req.headers[name] else ""
  }

  /** `request.args` is non-empty: some field between the `&` separators is non-empty. */
  predicate HasArgs(req: Request) {
    exists i | 0 <= i < |req.queryString| :: req.queryString[i] != '&'
  }

  predicate IsSafeMethod(httpMethod: string) {
    httpMethod == "GET" || httpMethod == "HEAD"
  }

  // ---------------------------------------------------------------- responses

  /** A Cache-Control directive: present without an argument, or with delta-seconds. */
  datatype Directive = Bare | Delta(seconds: int)

  /** A parsed Cache-Control header, keyed by directive name ("max-age", "no-cache", ...). */
  type CacheControl = map<string, Directive>

  /**
   * `cache_control.max_age`: the argument of "max-age", None when absent; a bare
   * "max-age" reads as -1, the empty value werkzeug declares for this property.
   */
  function MaxAge(cc: CacheControl): (age: Option<int>)
    ensures age.None? <==> "max-age" !in cc
    ensures "max-age" in cc && cc["max-age"].Bare? ==> age == Some(-1)
    ensures "max-age" in cc && cc["max-age"].Delta? ==> age == Some(cc["max-age"].seconds)
  {
    if "max-age" !in cc then None
    else match cc["max-age"]
      case Bare => Some(-1)
      case Delta(seconds) => Some(seconds)
  }

  /** `cache_control.s_maxage`; a bare "s-maxage" reads as absent, its empty value being None. */
  function SMaxAge(cc: CacheControl): Option<int> {
    if "s-maxage" in cc && cc["s-maxage"].Delta? then Some(cc["s-maxage"].seconds) else None
  }

  /**
   * A snapshot of a response. An empty `cacheControl` is a response without a
   * Cache-Control header (werkzeug drops the header when the last directive goes);
   * dates are whole seconds; `xCache` is the X-Cache header.
   */
  datatype ResponseValue = ResponseValue(
    status: nat,
    body: string,
    streamed: bool,
    cacheControl: CacheControl,
    vary: seq<string>,
    expires: Option<int>,
    date: Option<int>,
    lastModified: Option<int>,
    etag: Option<string>,
    xCache: Option<string>)

  /** A werkzeug response object, which the handlers rewrite in place. */
  class Response {
    var status: nat
    var body: string
    var streamed: bool
    var cacheControl: CacheControl
    var vary: seq<string>
    var expires: Option<int>
    var date: Option<int>
    var lastModified: Option<int>
    var etag: Option<string>
    var xCache: Option<string>

    constructor (v: ResponseValue)
      ensures Value() == v
    {
      status, body, streamed := v.status, v.body, v.streamed;
      cacheControl, vary := v.cacheControl, v.vary;
      expires, date, lastModified := v.expires, v.date, v.lastModified;
      etag, xCache := v.etag, v.xCache;
    }

    /** The response as a value. */
    function Value(): ResponseValue
      reads this
    {
      ResponseValue(status, body, streamed, cacheControl, vary, expires, date, lastModified, etag, xCache)
    }
  }
}
