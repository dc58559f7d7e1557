/** ResponseMediator: status bands of a response, and its content as JSON or text. */
module ResponseMediator {
  import opened Wrappers
  import opened PhpStrings
  import opened Php
  import opened Http

  predicate IsInformational(r: Response) { 100 <= r.status < 200 }

  predicate IsSuccess(r: Response) { 200 <= r.status < 300 }

  /** An alias of IsSuccess. */
  predicate IsOk(r: Response) { IsSuccess(r) }

  predicate IsRedirect(r: Response) { 300 <= r.status < 400 }

  predicate IsClientError(r: Response) { 400 <= r.status < 500 }

  /** No upper bound: every status from 500 up is a server error. */
  predicate IsServerError(r: Response) { r.status >= 500 }

  predicate IsError(r: Response) { IsClientError(r) || IsServerError(r) }

  /** `=== 409`. */
  predicate IsConflictError(r: Response) { r.status == 409 }

  /** The band a status falls in; below 100 it falls in none. */
  datatype Band = Informational | Success | Redirect | ClientError | ServerError | NoBand

  /** Each band predicate holds exactly when the status is in that band, so no two hold at once. */
  function BandOf(r: Response): (b: Band)
    ensures b == Informational <==> IsInformational(r)
    ensures b == Success <==> IsSuccess(r)
    ensures b == Redirect <==> IsRedirect(r)
    ensures b == ClientError <==> IsClientError(r)
    ensures b == ServerError <==> IsServerError(r)
    ensures b == NoBand <==> r.status < 100
  {
    if r.status < 100 then NoBand
    else if r.status < 200 then Informational
    else if r.status < 300 then Success
    else if r.status < 400 then Redirect
    else if r.status < 500 then ClientError
    else ServerError
  }

  /** An error is exactly a status of 400 or more; 409 is a client error and so an error. */
  lemma ErrorIffAtLeast400(r: Response)
    ensures IsError(r) <==> r.status >= 400
    ensures IsConflictError(r) ==> IsClientError(r) && IsError(r) && !IsSuccess(r)
  {
  }

  /**
   * getContent(): JSON or text; the body text is fetched once, and this never fails. The
   * content is text unless it is the decoded body of a JSON response, and an error
   * response's content is always text.
   */
  function GetContent(rt: Runtime, r: Response): (c: Value)
    ensures IsError(r) ==> c.Str?
    ensures c.Str? || (StartsWith(HeaderLine(r.headers, "Content-Type"), "application/json") && rt.jsonDecode(r.body) == Some(c))
  {
    if IsError(r) then
      // Transmission returns error pages as HTML.
      Str(rt.stripTags(r.body))
    else if StartsWith(HeaderLine(r.headers, "Content-Type"), "application/json") then
      match rt.jsonDecode(r.body)
      case Some(v) => v
      case None => Str(r.body)
    else Str(r.body)
  }

  /** For an error status the content is always the tag-stripped body, never decoded JSON. */
  lemma ErrorContentIsText(rt: Runtime, r: Response)
    requires IsError(r)
    ensures GetContent(rt, r) == Str(rt.stripTags(r.body))
    ensures GetContent(rt, r).Str?
  {
  }

  /**
   * A non-error response yields something other than its raw body only when its
   * Content-Type starts with application/json and the body decodes, and then it yields
   * the decoded value.
   */
  lemma DecodedOnlyForJson(rt: Runtime, r: Response)
    requires !IsError(r)
    ensures GetContent(rt, r) != Str(r.body) ==>
      StartsWith(HeaderLine(r.headers, "Content-Type"), "application/json")
      && rt.jsonDecode(r.body).Some? && GetContent(rt, r) == rt.jsonDecode(r.body).value
    ensures !StartsWith(HeaderLine(r.headers, "Content-Type"), "application/json") ==> GetContent(rt, r) == Str(r.body)
    ensures rt.jsonDecode(r.body).None? ==> GetContent(rt, r) == Str(r.body)
  {
  }

  /** The content reads nothing but the status band, the Content-Type line and the body. */
  lemma ContentDependsOnlyOn(rt: Runtime, r1: Response, r2: Response)
    requires IsError(r1) == IsError(r2) && r1.body == r2.body
    requires HeaderLine(r1.headers, "Content-Type") == HeaderLine(r2.headers, "Content-Type")
    ensures GetContent(rt, r1) == GetContent(rt, r2)
  {
  }
}
