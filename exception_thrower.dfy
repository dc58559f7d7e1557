/**
 * ExceptionThrower's response callback: pass the response on, raise a
 * TransmissionException for a result-level error on a 2xx, or raise a NetworkException
 * for any error status other than 409.
 */
module ExceptionThrower {
  import opened Wrappers
  import opened PhpStrings
  import opened Php
  import opened Http
  import opened Failures
  import opened ResponseMediator
  import NE = NetworkException

  datatype Verdict = PassThrough | Raise(failure: Failure)

  const InvalidCredentials: string := "Invalid Username/Password"
  const NotWhitelisted: string := "Your IP Address is Not Whitelisted"

  /** `isset($content['result']) && 'success' !== $content['result']` on array content. */
  predicate ReportsFailure(content: Value) {
    Isset(content, StrKey("result")) && Lookup(content.entries, StrKey("result")).value != Str("success")
  }

  /** The `$message` the switch picks for an error status. */
  function ErrorMessage(status: int, content: Value): string {
    if status == 401 then InvalidCredentials
    else if status == 403 then NotWhitelisted
    else
      match content
      case Str(s) => s
      // Error content is always a string (ResponseMediator.ErrorContentIsText), so the
      // `$content['result']` alternative is never taken.
      case _ => ""
  }

  /**
   * The plugin's response callback. A result-level failure is raised only on a 2xx, with the
   * daemon's result; a NetworkException only for an error status, with that status; a 409
   * always passes back to api().
   */
  function HandleResponse(rt: Runtime, r: Response): (v: Verdict)
    ensures r.status == 409 ==> v == PassThrough
    ensures v.Raise? ==> v.failure.TransmissionException? || v.failure.NetworkException?
    ensures v.Raise? && v.failure.TransmissionException? ==> IsSuccess(r) && v.failure.code == r.status
    ensures v.Raise? && v.failure.NetworkException? ==> IsError(r) && v.failure.status == r.status
  {
    var content := GetContent(rt, r);
    if IsSuccess(r) then
      if content.Arr? && ReportsFailure(content) then
        Raise(TransmissionException(Lookup(content.entries, StrKey("result")).value, r.status))
      else PassThrough
    else if !IsConflictError(r) && IsError(r) then
      Raise(NE.CreateByCode(r.status, Some(ErrorMessage(r.status, content))))
    else PassThrough
  }

  // ---------------------------------------------------------------- lemmas

  /** The three outcomes, each characterised by the status and content alone. */
  lemma Classification(rt: Runtime, r: Response)
    ensures HandleResponse(rt, r).Raise? && HandleResponse(rt, r).failure.TransmissionException?
        <==> IsSuccess(r) && ReportsFailure(GetContent(rt, r))
    ensures HandleResponse(rt, r).Raise? && HandleResponse(rt, r).failure.NetworkException?
        <==> r.status >= 400 && r.status != 409
    ensures HandleResponse(rt, r) == PassThrough
        <==> !(IsSuccess(r) && ReportsFailure(GetContent(rt, r))) && (r.status < 400 || r.status == 409)
  {
  }

  /** A result-level failure carries the daemon's result value and the status code. */
  lemma ResultErrorCarriesResult(rt: Runtime, r: Response, result: Value)
    requires IsSuccess(r) && GetContent(rt, r).Arr?
    requires Lookup(GetContent(rt, r).entries, StrKey("result")) == Some(result)
    requires result != Null && result != Str("success")
    ensures HandleResponse(rt, r) == Raise(TransmissionException(result, r.status))
  {
  }

  /** A 2xx passes when its result is 'success', when it has no (or a null) result, or when its content is not an array. */
  lemma SuccessPasses(rt: Runtime, r: Response)
    requires IsSuccess(r)
    requires var c := GetContent(rt, r);
      !c.Arr? || Lookup(c.entries, StrKey("result")) in {None, Some(Null), Some(Str("success"))}
    ensures HandleResponse(rt, r) == PassThrough
  {
  }

  /** A 409 is never raised here: it goes back to api(), which negotiates the session. */
  lemma ConflictPasses(rt: Runtime, r: Response)
    requires r.status == 409
    ensures HandleResponse(rt, r) == PassThrough
  {
  }

  /** 1xx and 3xx responses pass. */
  lemma InformationalAndRedirectPass(rt: Runtime, r: Response)
    requires IsInformational(r) || IsRedirect(r)
    ensures HandleResponse(rt, r) == PassThrough
  {
  }

  /** An error status other than 409 raises a NetworkException with the message the switch picks. */
  lemma ErrorStatusRaises(rt: Runtime, r: Response)
    requires r.status >= 400 && r.status != 409
    ensures HandleResponse(rt, r) == Raise(NE.CreateByCode(r.status, Some(ErrorMessage(r.status, GetContent(rt, r)))))
  {
  }

  /** A 401 raises 'Invalid Username/Password' whatever the body says. */
  lemma UnauthorizedMessage(rt: Runtime, r: Response)
    requires r.status == 401
    ensures HandleResponse(rt, r) == Raise(NE.CreateByCode(401, Some(InvalidCredentials)))
    ensures NE.MessageOf(HandleResponse(rt, r).failure) == "401: Unauthorized - " + InvalidCredentials
  {
    ErrorStatusRaises(rt, r);
    UnauthorizedText();
  }

  lemma UnauthorizedText()
    ensures NE.MessageOf(NE.CreateByCode(401, Some(InvalidCredentials))) == "401: Unauthorized - " + InvalidCredentials
  {
    LetterFirstNotBlank(InvalidCredentials);
    NE.FilledMessageFormat(401, InvalidCredentials);
    Decimal401();
    NE.Status401();
    UnauthorizedSpelled(IntToString(401), NE.StatusText(401));
  }

  lemma UnauthorizedSpelled(code: string, text: string)
    requires code == "401" && text == "Unauthorized"
    ensures code + ": " + text + " - " == "401: Unauthorized - "
  {
  }

  /** A 403 raises 'Your IP Address is Not Whitelisted' whatever the body says. */
  lemma ForbiddenMessage(rt: Runtime, r: Response)
    requires r.status == 403
    ensures HandleResponse(rt, r) == Raise(NE.CreateByCode(403, Some(NotWhitelisted)))
    ensures NE.MessageOf(HandleResponse(rt, r).failure) == "403: Forbidden - " + NotWhitelisted
  {
    ErrorStatusRaises(rt, r);
    ForbiddenText();
  }

  lemma ForbiddenText()
    ensures NE.MessageOf(NE.CreateByCode(403, Some(NotWhitelisted))) == "403: Forbidden - " + NotWhitelisted
  {
    LetterFirstNotBlank(NotWhitelisted);
    NE.FilledMessageFormat(403, NotWhitelisted);
    Decimal403();
    NE.Status403();
    ForbiddenSpelled(IntToString(403), NE.StatusText(403));
  }

  lemma ForbiddenSpelled(code: string, text: string)
    requires code == "403" && text == "Forbidden"
    ensures code + ": " + text + " - " == "403: Forbidden - "
  {
  }

  lemma Decimal401()
    ensures IntToString(401) == "401"
  {
    ThreeDigits(401);
  }

  lemma Decimal403()
    ensures IntToString(403) == "403"
  {
    ThreeDigits(403);
  }

  /** Any other error status raises with the tag-stripped body as its message. */
  lemma OtherErrorsUseStrippedBody(rt: Runtime, r: Response)
    requires r.status >= 400 && r.status !in {401, 403, 409}
    ensures HandleResponse(rt, r) == Raise(NE.CreateByCode(r.status, Some(rt.stripTags(r.body))))
  {
    ErrorStatusRaises(rt, r);
    ErrorContentIsText(rt, r);
  }
}
