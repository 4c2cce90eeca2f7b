/**
 * The login-status poll (controller/wechat-status.go): the browser asks by
 * login token; the reply echoes the session's status and discloses the auth
 * code and the WeChat user only once the scan has succeeded.
 */
module WeChatStatus {
  import opened Wrappers
  import opened SessionStore
  import opened SessionManager

  const HTTP_OK: int := 200
  const HTTP_BAD_REQUEST: int := 400
  const MISSING_TOKEN_MESSAGE: string := "缺少login_token参数"
  const INVALID_TOKEN_MESSAGE: string := "登录令牌无效或已过期"
  const QUERY_OK_MESSAGE: string := "查询成功"

  datatype LoginStatusData = LoginStatusData(status: string, weChatUser: Option<WeChatUserInfo>, authCode: string)

  datatype LoginStatusResponse = LoginStatusResponse(
    httpStatus: int, success: bool, data: LoginStatusData, message: string)

  const NO_DATA: LoginStatusData := LoginStatusData("", None, "")

  /** The string value of a LoginSessionStatus. */
  function StatusName(s: Status): (name: string)
    ensures name != ""
  {
    match s
    case Pending => "pending"
    case Success => "success"
    case Expired => "expired"
  }

  lemma StatusNameInjective(a: Status, b: Status)
    requires StatusName(a) == StatusName(b)
    ensures a == b
  {
  }

  /** The reply built from what GetSession returned for a non-empty token. */
  function StatusReply(session: Option<LoginSession>): (r: LoginStatusResponse)
    ensures r.httpStatus == HTTP_OK
    ensures r.success <==> session.Some?
    ensures session.None? ==> r.data == NO_DATA && r.message == INVALID_TOKEN_MESSAGE
    ensures session.Some? ==> r.data.status == StatusName(session.value.status) && r.message == QUERY_OK_MESSAGE
    ensures r.data.weChatUser.Some? <==>
      session.Some? && session.value.status == Success && session.value.userInfo.Some?
    ensures r.data.weChatUser.Some? ==>
      r.data.weChatUser == session.value.userInfo && r.data.authCode == session.value.authCode
    ensures r.data.weChatUser.None? ==> r.data.authCode == ""
  {
    match session
    case None => LoginStatusResponse(HTTP_OK, false, NO_DATA, INVALID_TOKEN_MESSAGE)
    case Some(s) =>
      var disclose := s.status == Success && s.userInfo.Some?;
      var data := LoginStatusData(StatusName(s.status),
                                  if disclose then s.userInfo else None,
                                  if disclose then s.authCode else "");
      LoginStatusResponse(HTTP_OK, true, data, QUERY_OK_MESSAGE)
  }

  const MISSING_TOKEN_REPLY: LoginStatusResponse :=
    LoginStatusResponse(HTTP_BAD_REQUEST, false, NO_DATA, MISSING_TOKEN_MESSAGE)

  /** GetLoginStatus: an empty token is refused without consulting the store. */
  method GetLoginStatus(m: LoginSessionManager, loginToken: string, now: int) returns (r: LoginStatusResponse)
    requires m.Valid()
    modifies m
    ensures m.Valid()
    ensures loginToken == "" ==> r == MISSING_TOKEN_REPLY && m.State() == old(m.State())
    ensures loginToken != "" ==>
      var lookup := Get(old(m.State()), loginToken, now);
      m.State() == lookup.store && r == StatusReply(lookup.session)
  {
    if loginToken == "" {
      return MISSING_TOKEN_REPLY;
    }
    var session := m.GetSession(loginToken, now);
    r := StatusReply(session);
  }

  /** A poll never discloses the auth code of a session that has not been scanned. */
  lemma PendingNeverDisclosed(st: Store, token: string, now: int)
    requires token in st.sessions && st.sessions[token].status == Pending
    ensures StatusReply(Get(st, token, now).session).data.authCode == ""
    ensures StatusReply(Get(st, token, now).session).data.weChatUser.None?
  {
  }
}
