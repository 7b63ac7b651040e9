/** The business result codes: each constant carries a numeric code, a
    client-facing message and the HTTP status the handlers answer with. */
module ResultCodes {
  import opened Wrappers

  datatype ResultCode =
    | SUCCESS
    | CREDENTIALS_ERROR | PHONE_ALREADY_REGISTERED | TOKEN_EXPIRED | TOKEN_INVALID
    | REFRESH_TOKEN_INVALID | NOT_LOGGED_IN
    | USER_NOT_FOUND
    | OSS_POLICY_ERROR
    | NOT_FOUND | ADMIN_REQUIRED
    | AGENT_NOT_FOUND | THREAD_NOT_FOUND | THREAD_ACCESS_DENIED | AGENT_ACCESS_DENIED
    | AGENT_PROVIDER_UNAVAILABLE | AGENT_TOOL_ERROR
    | INTERNAL_ERROR | PARAM_VALIDATION_FAILED
  {
    function Code(): int {
      match this
      case SUCCESS => 0
      case CREDENTIALS_ERROR => 1001
      case PHONE_ALREADY_REGISTERED => 1002
      case TOKEN_EXPIRED => 1003
      case TOKEN_INVALID => 1004
      case REFRESH_TOKEN_INVALID => 1005
      case NOT_LOGGED_IN => 1006
      case USER_NOT_FOUND => 2001
      case OSS_POLICY_ERROR => 3001
      case NOT_FOUND => 4001
      case ADMIN_REQUIRED => 4002
      case AGENT_NOT_FOUND => 5001
      case THREAD_NOT_FOUND => 5002
      case THREAD_ACCESS_DENIED => 5003
      case AGENT_ACCESS_DENIED => 5006
      case AGENT_PROVIDER_UNAVAILABLE => 5004
      case AGENT_TOOL_ERROR => 5005
      case INTERNAL_ERROR => 9001
      case PARAM_VALIDATION_FAILED => 9002
    }

    function Message(): string {
      match this
      case SUCCESS => "OK"
      case CREDENTIALS_ERROR => "手机号或密码错误"
      case PHONE_ALREADY_REGISTERED => "手机号已注册"
      case TOKEN_EXPIRED => "token已过期"
      case TOKEN_INVALID => "token无效"
      case REFRESH_TOKEN_INVALID => "refreshToken无效"
      case NOT_LOGGED_IN => "未登录"
      case USER_NOT_FOUND => "用户不存在"
      case OSS_POLICY_ERROR => "上传签名生成失败"
      case NOT_FOUND => "资源不存在"
      case ADMIN_REQUIRED => "需要管理员权限，请联系管理员开通"
      case AGENT_NOT_FOUND => "Agent不存在"
      case THREAD_NOT_FOUND => "会话不存在"
      case THREAD_ACCESS_DENIED => "无权访问该会话"
      case AGENT_ACCESS_DENIED => "无权操作该Agent"
      case AGENT_PROVIDER_UNAVAILABLE => "AI服务暂不可用"
      case AGENT_TOOL_ERROR => "工具执行错误"
      case INTERNAL_ERROR => "系统内部错误"
      case PARAM_VALIDATION_FAILED => "参数校验失败"
    }

    function HttpStatus(): int {
      match this
      case SUCCESS => 200
      case CREDENTIALS_ERROR => 401
      case PHONE_ALREADY_REGISTERED => 409
      case TOKEN_EXPIRED => 401
      case TOKEN_INVALID => 401
      case REFRESH_TOKEN_INVALID => 401
      case NOT_LOGGED_IN => 401
      case USER_NOT_FOUND => 404
      case OSS_POLICY_ERROR => 500
      case NOT_FOUND => 404
      case ADMIN_REQUIRED => 403
      case AGENT_NOT_FOUND => 404
      case THREAD_NOT_FOUND => 404
      case THREAD_ACCESS_DENIED => 403
      case AGENT_ACCESS_DENIED => 403
      case AGENT_PROVIDER_UNAVAILABLE => 503
      case AGENT_TOOL_ERROR => 500
      case INTERNAL_ERROR => 500
      case PARAM_VALIDATION_FAILED => 400
    }
  }

  /** The documented numbering groups: 0 success, 10xx authentication, 20xx
      user, 30xx object storage, 4xxx client, 50xx agent, 9xxx system. */
  datatype Group = Success | Auth | User | Oss | Client | Agent | System

  function GroupOf(code: int): Option<Group> {
    if code == 0 then Some(Success)
    else if 1000 <= code < 1100 then Some(Auth)
    else if 2000 <= code < 2100 then Some(User)
    else if 3000 <= code < 3100 then Some(Oss)
    else if 4000 <= code < 5000 then Some(Client)
    else if 5000 <= code < 5100 then Some(Agent)
    else if 9000 <= code < 10000 then Some(System)
    else None
  }

  /** The group a constant is declared under. */
  function DeclaredGroup(r: ResultCode): Group {
    match r
    case SUCCESS => Success
    case CREDENTIALS_ERROR | PHONE_ALREADY_REGISTERED | TOKEN_EXPIRED | TOKEN_INVALID
      | REFRESH_TOKEN_INVALID | NOT_LOGGED_IN => Auth
    case USER_NOT_FOUND => User
    case OSS_POLICY_ERROR => Oss
    case NOT_FOUND | ADMIN_REQUIRED => Client
    case AGENT_NOT_FOUND | THREAD_NOT_FOUND | THREAD_ACCESS_DENIED | AGENT_ACCESS_DENIED
      | AGENT_PROVIDER_UNAVAILABLE | AGENT_TOOL_ERROR => Agent
    case INTERNAL_ERROR | PARAM_VALIDATION_FAILED => System
  }

  /** The constant carrying a numeric code, if any. */
  function FromCode(code: int): (r: Option<ResultCode>)
    ensures r.Some? ==> r.value.Code() == code
  {
    if code == 0 then Some(SUCCESS)
    else if code == 1001 then Some(CREDENTIALS_ERROR)
    else if code == 1002 then Some(PHONE_ALREADY_REGISTERED)
    else if code == 1003 then Some(TOKEN_EXPIRED)
    else if code == 1004 then Some(TOKEN_INVALID)
    else if code == 1005 then Some(REFRESH_TOKEN_INVALID)
    else if code == 1006 then Some(NOT_LOGGED_IN)
    else if code == 2001 then Some(USER_NOT_FOUND)
    else if code == 3001 then Some(OSS_POLICY_ERROR)
    else if code == 4001 then Some(NOT_FOUND)
    else if code == 4002 then Some(ADMIN_REQUIRED)
    else if code == 5001 then Some(AGENT_NOT_FOUND)
    else if code == 5002 then Some(THREAD_NOT_FOUND)
    else if code == 5003 then Some(THREAD_ACCESS_DENIED)
    else if code == 5004 then Some(AGENT_PROVIDER_UNAVAILABLE)
    else if code == 5005 then Some(AGENT_TOOL_ERROR)
    else if code == 5006 then Some(AGENT_ACCESS_DENIED)
    else if code == 9001 then Some(INTERNAL_ERROR)
    else if code == 9002 then Some(PARAM_VALIDATION_FAILED)
    else None
  }

  /** Codes are pairwise distinct, so the numeric code identifies the constant. */
  lemma CodesDistinct(a: ResultCode, b: ResultCode)
    requires a.Code() == b.Code()
    ensures a == b
  {
  }

  /** Looking up a constant's own code finds that constant. */
  lemma FromCodeRoundTrip(r: ResultCode)
    ensures FromCode(r.Code()) == Some(r)
  {
  }

  /** A code no constant carries finds nothing, and only such a code. */
  lemma FromCodeNone(code: int)
    ensures FromCode(code).None? <==> forall x: ResultCode :: x.Code() != code
  {
  }

  /** Every code lies in the range of the group it is declared under. */
  lemma CodeInDeclaredGroup(r: ResultCode)
    ensures GroupOf(r.Code()) == Some(DeclaredGroup(r))
  {
  }

  /** Authentication failures answer 401, except an already registered phone,
      which is a conflict (409). */
  lemma AuthCodesAreUnauthorized(r: ResultCode)
    requires DeclaredGroup(r) == Auth
    ensures r.HttpStatus() == (if r == PHONE_ALREADY_REGISTERED then 409 else 401)
  {
  }

  lemma SuccessIsZero()
    ensures SUCCESS.Code() == 0 && SUCCESS.HttpStatus() == 200
    ensures forall r :: r != SUCCESS ==> r.Code() != 0 && r.HttpStatus() >= 400
  {
  }

  /** A thrown business error: its result code and the message it was built
      with (the code's own message unless a custom one was given). */
  datatype BusinessException = BusinessException(code: ResultCode, message: Option<string>)

  /** `new BusinessException(code)`: the message is the code's message. */
  function Biz(code: ResultCode): BusinessException {
    BusinessException(code, Some(code.Message()))
  }

  /** `new BusinessException(code, message)`. */
  function BizMsg(code: ResultCode, message: string): BusinessException {
    BusinessException(code, Some(message))
  }
}
