/** The chat WebSocket endpoint: the handshake that admits an administrator
    to one thread, the routing of client frames, and the bookkeeping that
    keeps at most one live model stream per session. Sending a frame is an
    append to the session's sent log and closing sets its close status. */
module ChatSocket {
  import opened Wrappers
  import opened Strs
  import opened Causes
  import opened StreamEvents
  import opened Jwt
  import opened ResultCodes

  const GENERIC_ERROR_MESSAGE: string := "服务异常，请稍后重试"
  const RATE_LIMIT_ERROR_MESSAGE: string := "模型请求过于频繁，请稍后重试"
  const NOT_AUTHENTICATED: string := "未认证"
  const UNKNOWN_TYPE: string := "未知消息类型: "
  const EMPTY_CONTENT: string := "消息内容不能为空"
  const TYPE_MESSAGE: string := "message"
  const TYPE_CANCEL: string := "cancel"
  const BEARER_PROTOCOL: string := "bearer"
  const BEARER_PREFIX: string := "Bearer "

  /** A WebSocket close status: its code and reason. */
  datatype CloseStatus = CloseStatus(code: int, reason: string)
  const BAD_DATA: int := 1007
  const NOT_ACCEPTABLE: int := 1003
  const MISSING_URI: CloseStatus := CloseStatus(BAD_DATA, "缺少URI")
  const MISSING_PARAMS: CloseStatus := CloseStatus(BAD_DATA, "缺少认证token或threadId参数")
  const INVALID_TOKEN: CloseStatus := CloseStatus(NOT_ACCEPTABLE, "token无效")
  const BAD_THREAD_ID: CloseStatus := CloseStatus(BAD_DATA, "threadId格式错误")
  const NOT_ADMIN: CloseStatus := CloseStatus(NOT_ACCEPTABLE, "需要管理员权限")

  // ---------------------------------------------------------------------------
  // Token extraction
  // ---------------------------------------------------------------------------

  /** The pieces that are not blank, in order. */
  function NonBlank(parts: seq<string>): (r: seq<string>)
    ensures forall p :: p in r <==> p in parts && !IsBlank(p)
  {
    if |parts| == 0 then []
    else
      var last := parts[|parts| - 1];
      assert parts == parts[..|parts| - 1] + [last];
      NonBlank(parts[..|parts| - 1]) + (if IsBlank(last) then [] else [last])
  }

  lemma {:induction false} NonBlankOfNonBlank(parts: seq<string>)
    requires forall p :: p in parts ==> !IsBlank(p)
    ensures NonBlank(parts) == parts
  {
    if |parts| > 0 {
      var init := parts[..|parts| - 1];
      forall p | p in init
        ensures !IsBlank(p)
      {
        assert p in parts;
      }
      NonBlankOfNonBlank(init);
      assert !IsBlank(parts[|parts| - 1]) by {
        assert parts[|parts| - 1] in parts;
      }
      assert parts == init + [parts[|parts| - 1]];
    }
  }

  /** The offered sub-protocols: split on commas, trimmed, blanks dropped. */
  function Protocols(header: string): seq<string> {
    NonBlank(TrimAll(Split(header, ',')))
  }

  /** `extractToken`: the entry after a leading `bearer` sub-protocol (any
      case), otherwise the trimmed rest of an `Authorization: Bearer `
      header (that exact case), otherwise nothing. */
  function ExtractToken(protocolHeader: Option<string>, authorization: Option<string>): (r: Option<string>)
    ensures r.Some? ==> !IsBlank(r.value)
  {
    var offered := if protocolHeader.Some? && !IsBlank(protocolHeader.value) then Protocols(protocolHeader.value) else [];
    if |offered| >= 2 && EqualsIgnoreCase(BEARER_PROTOCOL, offered[0]) then
      assert offered[1] in offered;
      Some(offered[1])
    else if authorization.Some? && StartsWith(authorization.value, BEARER_PREFIX) then
      var token := Trim(authorization.value[|BEARER_PREFIX|..]);
      if IsBlank(token) then None else Some(token)
    else None
  }

  /** A clean token offered as `bearer,<token>` is read back as it was
      sent, whatever the Authorization header says. */
  lemma ProtocolTokenRoundTrip(token: string, authorization: Option<string>)
    requires !IsBlank(token) && ',' !in token && Trim(token) == token
    ensures ExtractToken(Some(Join([BEARER_PROTOCOL, token], ",")), authorization) == Some(token)
  {
    var names := [BEARER_PROTOCOL, token];
    assert "," == [','];
    var header := Join(names, ",");
    SplitJoin(names, ',');
    var trimmed := TrimAll(names);
    assert Trim(BEARER_PROTOCOL) == BEARER_PROTOCOL by {
      assert TrimLeft(BEARER_PROTOCOL) == BEARER_PROTOCOL;
      assert TrimRight(BEARER_PROTOCOL) == BEARER_PROTOCOL;
    }
    assert trimmed == names;
    NotBlank(BEARER_PROTOCOL, 0);
    NonBlankOfNonBlank(names);
    NotBlank(header, 0);
  }

  /** Without a `bearer` sub-protocol, a clean token after `Bearer ` is read
      back as it was sent. */
  lemma HeaderTokenRoundTrip(token: string)
    requires !IsBlank(token) && Trim(token) == token
    ensures ExtractToken(None, Some(BEARER_PREFIX + token)) == Some(token)
  {
    assert (BEARER_PREFIX + token)[|BEARER_PREFIX|..] == token;
  }

  /** The Authorization prefix is case-sensitive: `bearer ` is refused. */
  lemma LowerCaseHeaderRefused(token: string)
    ensures ExtractToken(None, Some("bearer " + token)) == None
  {
    assert ("bearer " + token)[0] == 'b';
  }

  // ---------------------------------------------------------------------------
  // Handshake
  // ---------------------------------------------------------------------------

  /** What the handshake offers: the request URI's query parameters (None
      when there is no URI) and the two headers. */
  datatype Handshake = Handshake(query: Option<map<string, string>>, protocolHeader: Option<string>,
                                 authorization: Option<string>)

  /** The handshake's outcome: the session is bound to a user and thread,
      closed with a status, the profile lookup threw, or the token parser
      threw something `isValid` does not catch. */
  datatype Admission =
    | Admitted(userId: int, threadId: int)
    | Refused(status: CloseStatus)
    | Failed(error: BusinessException)
    | Escaped

  /** `doAfterConnectionEstablished`, with `jwt` the parse of a token and
      `adminFlag` the user's profile lookup (its `isAdmin`, which may be
      null, or the exception it throws): checks in this order, the first
      failure closing the session: no URI, no token or thread id, an
      invalid token, a malformed thread id, then anyone but an
      administrator. */
  function Admit(h: Handshake, jwt: string -> JwtOutcome,
                 adminFlag: int -> Result<Option<bool>, BusinessException>): (r: Admission)
    ensures r.Admitted? ==> && h.query.Some?
                            && ExtractToken(h.protocolHeader, h.authorization).Some?
                            && jwt(ExtractToken(h.protocolHeader, h.authorization).value) == Parsed(r.userId)
                            && "threadId" in h.query.value
                            && ParseLong(h.query.value["threadId"]) == Some(r.threadId)
                            && adminFlag(r.userId) == Ok(Some(true))
    ensures h.query.None? ==> r == Refused(MISSING_URI)
    ensures h.query.Some? && (ExtractToken(h.protocolHeader, h.authorization).None? || "threadId" !in h.query.value) ==>
      r == Refused(MISSING_PARAMS)
    ensures h.query.Some? && "threadId" in h.query.value && ExtractToken(h.protocolHeader, h.authorization).Some? ==>
      var token := ExtractToken(h.protocolHeader, h.authorization).value;
      && (jwt(token).Escapes() ==> r == Escaped)
      && (!jwt(token).Escapes() && !jwt(token).IsValid() ==> r == Refused(INVALID_TOKEN))
      && (jwt(token).IsValid() && ParseLong(h.query.value["threadId"]).None? ==> r == Refused(BAD_THREAD_ID))
      && ((jwt(token).IsValid() && ParseLong(h.query.value["threadId"]).Some? && adminFlag(jwt(token).userId).Ok?
            && adminFlag(jwt(token).userId).value != Some(true)) ==> r == Refused(NOT_ADMIN))
  {
    if h.query.None? then Refused(MISSING_URI)
    else
      var token := ExtractToken(h.protocolHeader, h.authorization);
      if token.None? || "threadId" !in h.query.value then Refused(MISSING_PARAMS)
      else
        var parsed := jwt(token.value);
        if parsed.Escapes() then Escaped
        else if !parsed.IsValid() then Refused(INVALID_TOKEN)
        else match ParseLong(h.query.value["threadId"])
          case None => Refused(BAD_THREAD_ID)
          case Some(threadId) =>
            match adminFlag(parsed.userId)
            case Err(e) => Failed(e)
            case Ok(flag) => if flag != Some(true) then Refused(NOT_ADMIN) else Admitted(parsed.userId, threadId)
  }

  // ---------------------------------------------------------------------------
  // Client frames and error text
  // ---------------------------------------------------------------------------

  /** A parsed client frame: its `type` and `content` fields as text, if
      present. */
  datatype ClientFrame = ClientFrame(kind: Option<string>, content: Option<string>)

  /** What a frame asks the handler to do. */
  datatype Route = Reject(message: string) | Chat(userId: int, threadId: int, content: string) | Cancel

  /** `handleTextMessage` and `handleChatMessage` up to the stream start: an
      unauthenticated session is refused, the type decides, and a blank
      message is refused. */
  function RouteOf(userId: Option<int>, threadId: Option<int>, frame: ClientFrame): (r: Route)
    ensures r.Chat? ==> !IsBlank(r.content) && userId == Some(r.userId) && threadId == Some(r.threadId)
    ensures (userId.None? || threadId.None?) ==> r == Reject(NOT_AUTHENTICATED)
  {
    if userId.None? || threadId.None? then Reject(NOT_AUTHENTICATED)
    else
      var kind := frame.kind.GetOr("");
      if kind == TYPE_MESSAGE then
        var content := frame.content.GetOr("");
        if IsBlank(content) then Reject(EMPTY_CONTENT) else Chat(userId.value, threadId.value, content)
      else if kind == TYPE_CANCEL then Cancel
      else Reject(UNKNOWN_TYPE + kind)
  }

  /** `resolveErrorMessage`: the rate-limit text exactly when some frame of
      the cause chain is a `RateLimitException` or mentions a rate limit. */
  function ResolveErrorMessage(chain: seq<Frame>): (r: string)
    ensures r == RATE_LIMIT_ERROR_MESSAGE <==> exists i :: 0 <= i < |chain| && RateLimitFrame(chain[i])
    ensures r == RATE_LIMIT_ERROR_MESSAGE || r == GENERIC_ERROR_MESSAGE
  {
    if IsRateLimitError(chain) then RATE_LIMIT_ERROR_MESSAGE else GENERIC_ERROR_MESSAGE
  }

  // ---------------------------------------------------------------------------
  // Sessions and streams
  // ---------------------------------------------------------------------------

  /** One WebSocket session: whether it is open, what was sent on it, how it
      was closed, and the two attributes the handshake stores. */
  class Session {
    const id: string
    var open: bool
    var sent: seq<StreamEvent>
    var closedWith: Option<CloseStatus>
    var userId: Option<int>
    var threadId: Option<int>

    constructor (id: string)
      ensures this.id == id && open && sent == [] && closedWith.None? && userId.None? && threadId.None?
    {
      this.id := id;
      open := true;
      sent := [];
      closedWith := None;
      userId := None;
      threadId := None;
    }

    /** `sendMessage` guarded by `isOpen`. */
    method Send(e: StreamEvent)
      modifies this
      ensures sent == old(sent) + (if open then [e] else [])
      ensures open == old(open) && closedWith == old(closedWith)
      ensures userId == old(userId) && threadId == old(threadId)
    {
      if open {
        sent := sent + [e];
      }
    }

    method Close(status: CloseStatus)
      modifies this
      ensures !open && closedWith == Some(status)
      ensures sent == old(sent) && userId == old(userId) && threadId == old(threadId)
    {
      open := false;
      closedWith := Some(status);
    }
  }

  /** The subscription to one model stream. */
  class Subscription {
    var disposed: bool

    constructor ()
      ensures !disposed
    {
      disposed := false;
    }

    method Dispose()
      modifies this
      ensures disposed
    {
      disposed := true;
    }
  }

  class ChatSocketHandler {
    /** `activeStreams`: session id to the live subscription. */
    var activeStreams: map<string, Subscription>

    /** Every listed subscription is live and belongs to one session only. */
    ghost predicate Valid()
      reads this, activeStreams.Values
    {
      && (forall id :: id in activeStreams ==> !activeStreams[id].disposed)
      && (forall a, b :: a in activeStreams && b in activeStreams && a != b ==> activeStreams[a] != activeStreams[b])
    }

    constructor ()
      ensures Valid() && activeStreams == map[]
    {
      activeStreams := map[];
    }

    /** `afterConnectionEstablished`: a refused handshake closes the session
        and stores nothing; an admitted one stores the user and thread; an
        exception from the profile lookup (`failure`) or from the token
        parser (`escaped`) leaves the session open and unbound. */
    method AfterConnectionEstablished(session: Session, h: Handshake, jwt: string -> JwtOutcome,
                                      adminFlag: int -> Result<Option<bool>, BusinessException>)
      returns (failure: Option<BusinessException>, escaped: bool)
      requires session.open && session.userId.None? && session.threadId.None?
      modifies session
      ensures session.sent == old(session.sent)
      ensures match Admit(h, jwt, adminFlag)
        case Admitted(u, t) =>
          failure.None? && !escaped && session.open && session.userId == Some(u) && session.threadId == Some(t)
        case Refused(status) =>
          failure.None? && !escaped && !session.open && session.closedWith == Some(status)
          && session.userId.None? && session.threadId.None?
        case Failed(e) =>
          failure == Some(e) && !escaped && session.open && session.userId.None? && session.threadId.None?
        case Escaped =>
          failure.None? && escaped && session.open && session.userId.None? && session.threadId.None?
    {
      failure, escaped := None, false;
      match Admit(h, jwt, adminFlag)
      case Refused(status) =>
        session.Close(status);
      case Failed(e) =>
        failure := Some(e);
      case Escaped =>
        escaped := true;
      case Admitted(u, t) =>
        session.userId, session.threadId := Some(u), Some(t);
    }

    /** `cancelActiveStream`: the session's subscription, if any, is
        disposed and forgotten. */
    method CancelActiveStream(sessionId: string)
      requires Valid()
      modifies this, activeStreams.Values
      ensures Valid()
      ensures activeStreams == old(activeStreams) - {sessionId}
      ensures sessionId in old(activeStreams) ==> old(activeStreams)[sessionId].disposed
      ensures forall id :: id in activeStreams ==> activeStreams[id].disposed == old(activeStreams[id].disposed)
    {
      if sessionId in activeStreams {
        var disposable := activeStreams[sessionId];
        activeStreams := activeStreams - {sessionId};
        if !disposable.disposed {
          disposable.Dispose();
        }
      }
    }

    /** `handleTextMessage`; `startFails` says whether the chat service
        threw while the stream was being opened. */
    method HandleTextMessage(session: Session, frame: ClientFrame, startFails: bool)
      requires Valid()
      modifies this, activeStreams.Values, session
      ensures Valid()
      ensures session.open == old(session.open) && session.userId == old(session.userId) && session.threadId == old(session.threadId)
      ensures match RouteOf(old(session.userId), old(session.threadId), frame)
        case Reject(m) =>
          session.sent == old(session.sent) + (if session.open then [ErrorEvent(m)] else [])
          && activeStreams == old(activeStreams)
        case Cancel =>
          session.sent == old(session.sent) && activeStreams == old(activeStreams) - {session.id}
          && (session.id in old(activeStreams) ==> old(activeStreams)[session.id].disposed)
        case Chat(_, _, _) =>
          && (session.id in old(activeStreams) ==> old(activeStreams)[session.id].disposed)
          && (startFails ==>
                && session.sent == old(session.sent) + (if session.open then [ErrorEvent(GENERIC_ERROR_MESSAGE)] else [])
                && activeStreams == old(activeStreams) - {session.id})
          && (!startFails ==>
                && session.sent == old(session.sent)
                && activeStreams.Keys == old(activeStreams).Keys + {session.id}
                && activeStreams == old(activeStreams)[session.id := activeStreams[session.id]]
                && fresh(activeStreams[session.id]))
      ensures forall id :: id in activeStreams && id != session.id ==>
        activeStreams[id].disposed == old(activeStreams[id].disposed)
    {
      match RouteOf(session.userId, session.threadId, frame)
      case Reject(m) =>
        session.Send(ErrorEvent(m));
      case Cancel =>
        CancelActiveStream(session.id);
      case Chat(_, _, _) =>
        CancelActiveStream(session.id);
        if startFails {
          session.Send(ErrorEvent(GENERIC_ERROR_MESSAGE));
        } else {
          var subscription := new Subscription();
          activeStreams := activeStreams[session.id := subscription];
        }
    }

    /** The stream's token callback. */
    method OnToken(session: Session, token: string)
      modifies session
      ensures session.sent == old(session.sent) + (if session.open then [TokenEvent(token)] else [])
    {
      session.Send(TokenEvent(token));
    }

    /** The stream's error callback: the client gets the resolved text and
        the session's entry goes. */
    method OnError(session: Session, chain: seq<Frame>)
      requires Valid()
      modifies this, session
      ensures Valid()
      ensures session.sent == old(session.sent) + (if session.open then [ErrorEvent(ResolveErrorMessage(chain))] else [])
      ensures activeStreams == old(activeStreams) - {session.id}
    {
      session.Send(ErrorEvent(ResolveErrorMessage(chain)));
      activeStreams := activeStreams - {session.id};
    }

    /** The stream's completion callback: `done`, and the entry goes. */
    method OnComplete(session: Session)
      requires Valid()
      modifies this, session
      ensures Valid()
      ensures session.sent == old(session.sent) + (if session.open then [DoneEvent()] else [])
      ensures activeStreams == old(activeStreams) - {session.id}
    {
      session.Send(DoneEvent());
      activeStreams := activeStreams - {session.id};
    }

    /** `afterConnectionClosed` and `handleTransportError`: the session's
        stream is cancelled. */
    method AfterConnectionClosed(session: Session)
      requires Valid()
      modifies this, activeStreams.Values
      ensures Valid()
      ensures session.id !in activeStreams && activeStreams == old(activeStreams) - {session.id}
      ensures session.id in old(activeStreams) ==> old(activeStreams)[session.id].disposed
    {
      CancelActiveStream(session.id);
    }
  }
}
