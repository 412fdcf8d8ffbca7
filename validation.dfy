/**
 * flask_webcache/validation.py: entity tags, If-None-Match handling and the Date and
 * Last-Modified fields added to every response.
 */
module Validation {
  import opened Wrappers
  import opened Http
  import opened Storage

  const Ok := 200
  const NotModifiedStatus := 304
  const NotImplementedStatus := 501

  /** `can_set_etag`: a buffered 200 response that carries no ETag yet. */
  function CanSetEtag(r: ResponseValue): (can: bool)
    ensures can <==> !r.streamed && r.etag.None? && r.status == Ok
    ensures can ==> r.status == 200
  {
    !(r.streamed || r.etag.Some? || r.status != Ok)
  }

  /** `set_etag`: the ETag becomes the MD5 digest of the body; nothing else changes. */
  function WithEtag(r: ResponseValue, md5: string -> string): (tagged: ResponseValue)
    ensures tagged.etag == Some(md5(r.body))
    ensures tagged.body == r.body && tagged == r.(etag := tagged.etag)
  {
    r.(etag := Some(md5(r.body)))
  }

  method SetEtag(response: Response, md5: string -> string)
    modifies response
    ensures response.Value() == WithEtag(old(response.Value()), md5)
  {
    response.etag := Some(md5(response.body));
  }

  /** Two responses with the same body are given the same ETag, whatever else differs. */
  lemma EqualBodiesEqualEtags(r1: ResponseValue, r2: ResponseValue, md5: string -> string)
    requires r1.body == r2.body
    ensures WithEtag(r1, md5).etag == WithEtag(r2, md5).etag
    ensures WithEtag(r1, md5).etag.Some?
  {
  }

  /**
   * `if_none_match`: only a 2xx or 304 response can match; it matches when the request's
   * If-None-Match is `*` or lists the response's entity tag.
   */
  function IfNoneMatch(req: Request, r: ResponseValue): (matches: bool)
    ensures LeadingDigit(r.status) != 2 && r.status != NotModifiedStatus ==> !matches
    ensures LeadingDigit(r.status) == 2 || r.status == NotModifiedStatus ==>
              (matches <==> req.ifNoneMatch.star || (r.etag.Some? && r.etag.value in req.ifNoneMatch.strong))
    ensures 100 <= r.status < 1000 && matches ==> 200 <= r.status < 300 || r.status == NotModifiedStatus
    ensures matches && !req.ifNoneMatch.star ==> r.etag.Some?
  {
    if LeadingDigit(r.status) != 2 && r.status != NotModifiedStatus then false
    else ContainsETag(req.ifNoneMatch, r.etag)
  }

  /**
   * `return_not_modified_response`: to GET and HEAD the response becomes an empty 304;
   * to any other method the body is kept and the status becomes 501, unless the
   * application has set the ignore flag on `g`, in which case nothing changes.
   */
  function NotModified(req: Request, g: GValue, r: ResponseValue): (answer: ResponseValue)
    ensures IsSafeMethod(req.httpMethod) ==> answer.status == NotModifiedStatus && answer.body == ""
    ensures !IsSafeMethod(req.httpMethod) && g.ignoreIfNoneMatch ==> answer == r
    ensures !IsSafeMethod(req.httpMethod) && !g.ignoreIfNoneMatch ==>
              answer.status == NotImplementedStatus && answer.body == r.body
    ensures answer == r.(status := answer.status, body := answer.body)
  {
    if req.httpMethod != "GET" && req.httpMethod != "HEAD" then
      if !g.ignoreIfNoneMatch then r.(status := NotImplementedStatus) else r
    else r.(body := "", status := NotModifiedStatus)
  }

  method ReturnNotModifiedResponse(req: Request, g: G, response: Response)
    modifies response
    ensures response.Value() == NotModified(req, g.Value(), old(response.Value()))
  {
    if req.httpMethod != "GET" && req.httpMethod != "HEAD" {
      if !g.ignoreIfNoneMatch {
        response.status := NotImplementedStatus;
      }
      return;
    }
    response.body := "";
    response.status := NotModifiedStatus;
  }

  /**
   * `add_date_fields`: a missing Last-Modified and a missing Date are both set to the
   * one instant `now`; fields already present are kept.
   */
  function WithDates(r: ResponseValue, now: int): (dated: ResponseValue)
    ensures dated.lastModified.Some? && dated.date.Some?
    ensures r.lastModified.Some? ==> dated.lastModified == r.lastModified
    ensures r.date.Some? ==> dated.date == r.date
    ensures r.lastModified.None? ==> dated.lastModified == Some(now)
    ensures r.date.None? ==> dated.date == Some(now)
    ensures dated == r.(lastModified := dated.lastModified, date := dated.date)
  {
    var r1 := if r.lastModified.None? then r.(lastModified := Some(now)) else r;
    if r1.date.None? then r1.(date := Some(now)) else r1
  }

  method AddDateFields(response: Response, now: int)
    modifies response
    ensures response.Value() == WithDates(old(response.Value()), now)
  {
    if response.lastModified.None? {
      response.lastModified := Some(now);
    }
    if response.date.None? {
      response.date := Some(now);
    }
  }

  /** Adding the date fields a second time changes nothing. */
  lemma WithDatesIdempotent(r: ResponseValue, now: int, later: int)
    ensures WithDates(WithDates(r, now), later) == WithDates(r, now)
  {
  }
}
