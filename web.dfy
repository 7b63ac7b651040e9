/** The HTTP edge: the authentication interceptor in front of every
    protected route, and the exception handler that turns what a controller
    throws into a status, a result code and a message. */
module Web {
  import opened Wrappers
  import opened Strs
  import opened Jwt
  import opened ResultCodes

  const BEARER_PREFIX: string := "Bearer "
  const CURRENT_USER_ID: string := "currentUserId"
  const JSON_CONTENT_TYPE: string := "application/json;charset=UTF-8"

  /** The body of a failed `ApiResult`: a result code and a message (its
      data is always null). */
  datatype ApiFailure = ApiFailure(code: int, message: string)

  /** A failure answer: HTTP status and body. */
  datatype ErrorResponse = ErrorResponse(status: int, body: ApiFailure)

  /** `ApiResult.fail(resultCode)` sent with the code's own status. */
  function FailWith(rc: ResultCode): ErrorResponse {
    ErrorResponse(rc.HttpStatus(), ApiFailure(rc.Code(), rc.Message()))
  }

  /** A failure answer whose status is the one its code is bound to. */
  predicate Consistent(resp: ErrorResponse) {
    FromCode(resp.body.code).Some? && FromCode(resp.body.code).value.HttpStatus() == resp.status
  }

  lemma FailWithIsConsistent(rc: ResultCode)
    ensures Consistent(FailWith(rc)) && FromCode(FailWith(rc).body.code) == Some(rc)
  {
    FromCodeRoundTrip(rc);
  }

  // ---------------------------------------------------------------------------
  // The authentication interceptor
  // ---------------------------------------------------------------------------

  /** The decision of `preHandle` on the `Authorization` header, `parse`
      being the access-token parser: no bearer header is NOT_LOGGED_IN, then
      expiry is asked before validity, and a parsing token yields its user.
      A token on which the parser throws something other than a
      `JwtException` makes `isExpired` throw; the exception leaves
      `preHandle` and the exception handler's fallback answers it with
      INTERNAL_ERROR, which is the code given here. */
  function Authenticate(authHeader: Option<string>, parse: string -> JwtOutcome): (r: Result<int, ResultCode>)
    ensures r.Err? ==> r.error == INTERNAL_ERROR || (DeclaredGroup(r.error) == Auth && r.error.HttpStatus() == 401)
  {
    if authHeader.None? || !StartsWith(authHeader.value, BEARER_PREFIX) then Err(NOT_LOGGED_IN)
    else
      var token := authHeader.value[|BEARER_PREFIX|..];
      if parse(token).Escapes() then Err(INTERNAL_ERROR)
      else if parse(token).IsExpired() then Err(TOKEN_EXPIRED)
      else if !parse(token).IsValid() then Err(TOKEN_INVALID)
      else Ok(parse(token).userId)
  }

  /** The token after the bearer prefix. */
  function BearerToken(authHeader: string): string
    requires StartsWith(authHeader, BEARER_PREFIX)
  {
    authHeader[|BEARER_PREFIX|..]
  }

  /** Each verdict in terms of the header and the token's parse outcome: the
      request passes exactly when a bearer token parses, carrying its user;
      an expired token is always TOKEN_EXPIRED, never TOKEN_INVALID; a token
      the parser throws on is INTERNAL_ERROR. */
  lemma AuthenticateSpec(authHeader: Option<string>, parse: string -> JwtOutcome)
    ensures var r := Authenticate(authHeader, parse);
      var bearer := authHeader.Some? && StartsWith(authHeader.value, BEARER_PREFIX);
      && (r == Err(NOT_LOGGED_IN) <==> !bearer)
      && (r == Err(INTERNAL_ERROR) <==> bearer && parse(BearerToken(authHeader.value)) == Malformed)
      && (r == Err(TOKEN_EXPIRED) <==> bearer && parse(BearerToken(authHeader.value)) == Expired)
      && (r == Err(TOKEN_INVALID) <==> bearer && parse(BearerToken(authHeader.value)) == Invalid)
      && (r.Ok? <==> bearer && parse(BearerToken(authHeader.value)).Parsed?)
      && (r.Ok? ==> parse(BearerToken(authHeader.value)) == Parsed(r.value))
  {
  }

  /** A bearer header with a blank token (`"Bearer "` followed by nothing or
      by white space) is not an authentication failure: with JJWT's parser it
      is answered with INTERNAL_ERROR and HTTP 500. */
  lemma BlankBearerIsInternalError(parse: string -> JwtOutcome, token: string)
    requires RefusesBlank(parse) && IsBlank(token)
    ensures Authenticate(Some(BEARER_PREFIX + token), parse) == Err(INTERNAL_ERROR)
    ensures INTERNAL_ERROR.HttpStatus() == 500
  {
    var header := BEARER_PREFIX + token;
    assert header[..|BEARER_PREFIX|] == BEARER_PREFIX;
    assert header[|BEARER_PREFIX|..] == token;
  }

  /** What the servlet request holds for later handlers. */
  class HttpRequest {
    var attributes: map<string, int>

    constructor ()
      ensures attributes == map[]
    {
      attributes := map[];
    }
  }

  /** What the interceptor writes into the servlet response. */
  class HttpResponse {
    var status: int
    var contentType: Option<string>
    var body: Option<ApiFailure>

    constructor ()
      ensures status == 200 && contentType.None? && body.None?
    {
      status := 200;
      contentType := None;
      body := None;
    }
  }

  class AuthInterceptor {
    /** `JwtUtil.parseUserId` summed up by its outcome. */
    const parse: string -> JwtOutcome

    constructor (parse: string -> JwtOutcome)
      ensures this.parse == parse
    {
      this.parse := parse;
    }

    /** `preHandle`: true with the user id stored as a request attribute, or
        false with the error written to the response, or the exception that
        `isExpired` lets through (`thrown`), which leaves the request and the
        response to the exception handler. */
    method PreHandle(request: HttpRequest, response: HttpResponse, authHeader: Option<string>)
      returns (proceed: bool, thrown: Option<Thrown>)
      modifies request, response
      ensures proceed <==> Authenticate(authHeader, parse).Ok?
      ensures thrown.Some? <==> Authenticate(authHeader, parse) == Err(INTERNAL_ERROR)
      ensures thrown.Some? ==> thrown == Some(Unexpected)
      ensures proceed ==>
        && request.attributes == old(request.attributes)[CURRENT_USER_ID := Authenticate(authHeader, parse).value]
        && response.status == old(response.status) && response.body == old(response.body)
        && response.contentType == old(response.contentType)
      ensures thrown.Some? ==>
        && request.attributes == old(request.attributes)
        && response.status == old(response.status) && response.body == old(response.body)
        && response.contentType == old(response.contentType)
      ensures !proceed && thrown.None? ==>
        var resp := FailWith(Authenticate(authHeader, parse).error);
        && request.attributes == old(request.attributes)
        && response.status == resp.status && response.body == Some(resp.body)
        && response.contentType == Some(JSON_CONTENT_TYPE)
    {
      thrown := None;
      if authHeader.None? || !StartsWith(authHeader.value, BEARER_PREFIX) {
        WriteError(response, NOT_LOGGED_IN);
        return false, None;
      }
      var token := authHeader.value[|BEARER_PREFIX|..];
      if parse(token).Escapes() {
        return false, Some(Unexpected);
      }
      if parse(token).IsExpired() {
        WriteError(response, TOKEN_EXPIRED);
        return false, None;
      }
      if !parse(token).IsValid() {
        WriteError(response, TOKEN_INVALID);
        return false, None;
      }
      var userId := parse(token).userId;
      request.attributes := request.attributes[CURRENT_USER_ID := userId];
      proceed := true;
    }

    /** `writeError`: the code's status, a JSON content type, and the code's
        failure body. */
    method WriteError(response: HttpResponse, rc: ResultCode)
      modifies response
      ensures response.status == FailWith(rc).status && response.body == Some(FailWith(rc).body)
      ensures response.contentType == Some(JSON_CONTENT_TYPE)
    {
      response.status := rc.HttpStatus();
      response.contentType := Some(JSON_CONTENT_TYPE);
      response.body := Some(ApiFailure(rc.Code(), rc.Message()));
    }
  }

  // ---------------------------------------------------------------------------
  // The exception handler
  // ---------------------------------------------------------------------------

  /** What reaches the handler, by the handler that takes it: a business
      error, a bean-validation failure with the default message of each field
      error in order (null as None), a missing static resource, the two
      client disconnects, and anything else. */
  datatype Thrown =
    | Business(error: BusinessException)
    | Validation(fieldMessages: seq<Option<string>>)
    | NoResource
    | ClientAbort
    | AsyncRequestNotUsable
    | Unexpected

  /** The answer to a thrown exception; the disconnect handlers write no
      body (None). */
  function Handle(e: Thrown): (r: Option<ErrorResponse>)
    ensures r.None? <==> e.ClientAbort? || e.AsyncRequestNotUsable?
  {
    match e
    case Business(be) =>
      var message := if be.message.None? || IsBlank(be.message.value) then be.code.Message() else be.message.value;
      Some(ErrorResponse(be.code.HttpStatus(), ApiFailure(be.code.Code(), message)))
    case Validation(fields) =>
      var message := if |fields| > 0 && fields[0].Some? then fields[0].value else PARAM_VALIDATION_FAILED.Message();
      Some(ErrorResponse(PARAM_VALIDATION_FAILED.HttpStatus(), ApiFailure(PARAM_VALIDATION_FAILED.Code(), message)))
    case NoResource => Some(FailWith(NOT_FOUND))
    case ClientAbort => None
    case AsyncRequestNotUsable => None
    case Unexpected => Some(FailWith(INTERNAL_ERROR))
  }

  /** Every result code carries a non-blank message. */
  lemma MessageNotBlank(rc: ResultCode)
    ensures !IsBlank(rc.Message())
  {
    NotBlank(rc.Message(), 0);
  }

  /** Every answer's status is the one its result code is bound to; a
      business error answers with its own code and its own message unless
      that is missing or blank, and then with the code's message, so the
      message is never blank. */
  lemma HandleBusiness(be: BusinessException)
    ensures var r := Handle(Business(be));
      && r.Some? && Consistent(r.value) && FromCode(r.value.body.code) == Some(be.code)
      && !IsBlank(r.value.body.message)
      && (be.message.Some? && !IsBlank(be.message.value) ==> r.value.body.message == be.message.value)
      && (be.message.None? || IsBlank(be.message.value) ==> r.value.body.message == be.code.Message())
  {
    FromCodeRoundTrip(be.code);
    MessageNotBlank(be.code);
  }

  /** A validation failure answers PARAM_VALIDATION_FAILED with the first
      field error's message, or the code's message when there is no field
      error or its message is null. */
  lemma HandleValidation(fields: seq<Option<string>>)
    ensures var r := Handle(Validation(fields));
      && r.Some? && Consistent(r.value) && FromCode(r.value.body.code) == Some(PARAM_VALIDATION_FAILED)
      && r.value.status == 400
      && r.value.body.message == (if |fields| > 0 && fields[0].Some? then fields[0].value else PARAM_VALIDATION_FAILED.Message())
  {
    FromCodeRoundTrip(PARAM_VALIDATION_FAILED);
  }

  /** A missing static resource is NOT_FOUND (4001, 404) and anything
      unexpected INTERNAL_ERROR (9001, 500); both consistent. */
  lemma HandleFallbacks()
    ensures Handle(NoResource) == Some(FailWith(NOT_FOUND))
    ensures Handle(NoResource).value.status == 404 && Handle(NoResource).value.body.code == 4001
    ensures Handle(Unexpected) == Some(FailWith(INTERNAL_ERROR))
    ensures Handle(Unexpected).value.status == 500 && Handle(Unexpected).value.body.code == 9001
    ensures Consistent(Handle(NoResource).value) && Consistent(Handle(Unexpected).value)
  {
    FailWithIsConsistent(NOT_FOUND);
    FailWithIsConsistent(INTERNAL_ERROR);
  }

  /** A business error thrown with its code's own message is answered
      exactly as the interceptor answers that code. */
  lemma HandlerAgreesWithInterceptor(rc: ResultCode)
    ensures Handle(Business(Biz(rc))) == Some(FailWith(rc))
  {
    MessageNotBlank(rc);
  }
}
