/**
 * The HTTP handlers of controller/wechat.go that reach the session store:
 * the redemption of an auth code for a WeChat id, and the framing of the
 * reply to an inbound WeChat message.
 */
module WeChatController {
  import opened Wrappers
  import opened Ids
  import opened SessionStore
  import opened SessionManager
  import opened WeChatMessage

  const AUTH_CODE_LENGTH: nat := 32
  const INVALID_PARAMETER_MESSAGE: string := "无效的参数"
  const BAD_FORMAT_MESSAGE: string := "无效的授权码格式"
  const UNKNOWN_CODE_MESSAGE: string := "授权码无效或已过期"

  datatype AuthCodeReply = AuthCodeReply(success: bool, message: string, data: Option<string>)

  /**
   * The guards before the lookup: an empty code and a code whose length in
   * bytes is not 32 are refused.
   */
  function AuthCodeGuard(authCode: string): (r: Option<AuthCodeReply>)
    ensures r.None? <==> Utf8Length(authCode) == AUTH_CODE_LENGTH
    ensures r.Some? ==> !r.value.success && r.value.data.None?
    ensures authCode == "" ==> r == Some(AuthCodeReply(false, INVALID_PARAMETER_MESSAGE, None))
    ensures authCode != "" && r.Some? ==> r.value.message == BAD_FORMAT_MESSAGE
  {
    if authCode == "" then Some(AuthCodeReply(false, INVALID_PARAMETER_MESSAGE, None))
    else if Utf8Length(authCode) != AUTH_CODE_LENGTH then Some(AuthCodeReply(false, BAD_FORMAT_MESSAGE, None))
    else None
  }

  /** Every auth code CreateSession hands out gets past the guards. */
  lemma IssuedCodePassesGuard(codeBytes: seq<byte>)
    requires |codeBytes| == TOKEN_BYTES
    ensures AuthCodeGuard(GenerateToken(codeBytes)).None?
  {
    var code := GenerateToken(codeBytes);
    assert forall i :: 0 <= i < |code| ==> code[i] as int < 0x80;
  }

  /**
   * GetUserIDByAuthCode: after the guards, the store's lookup by auth code;
   * success carries the WeChat id of a successful record with that code.
   */
  method GetUserIdByAuthCode(m: LoginSessionManager, authCode: string) returns (reply: AuthCodeReply)
    ensures AuthCodeGuard(authCode).Some? ==> reply == AuthCodeGuard(authCode).value
    ensures AuthCodeGuard(authCode).None? && Redeemers(m.State(), authCode) == {} ==>
      reply == AuthCodeReply(false, UNKNOWN_CODE_MESSAGE, None)
    ensures AuthCodeGuard(authCode).None? && Redeemers(m.State(), authCode) != {} && "" !in Redeemers(m.State(), authCode) ==>
      reply.success
    ensures reply.success ==>
      && AuthCodeGuard(authCode).None?
      && reply.message == "" && reply.data.Some? && reply.data.value != ""
      && reply.data.value in Redeemers(m.State(), authCode)
    ensures !reply.success ==> reply.data.None?
    ensures AuthCodeGuard(authCode).None? && !reply.success ==> reply == AuthCodeReply(false, UNKNOWN_CODE_MESSAGE, None)
  {
    var guard := AuthCodeGuard(authCode);
    if guard.Some? {
      return guard.value;
    }
    var weChatId := m.FindWeChatIdByAuthCode(authCode);
    if weChatId == "" {
      return AuthCodeReply(false, UNKNOWN_CODE_MESSAGE, None);
    }
    return AuthCodeReply(true, "", Some(weChatId));
  }

  datatype HttpReply = EmptyBody | XmlReply(response: WeChatMessageResponse)

  /** The reply skeleton: addressed back to the sender, as a text message. */
  function ReplyTemplate(req: WeChatMessageRequest, now: int): (res: WeChatMessageResponse)
    ensures res.toUserName == req.fromUserName && res.fromUserName == req.toUserName
    ensures res.msgType == "text" && res.content == ""
  {
    WeChatMessageResponse(req.fromUserName, req.toUserName, now / NANOS_PER_SECOND, "text", "")
  }

  /**
   * ProcessWeChatMessage (the HTTP handler, after XML decoding): fill the
   * template through the message handler; an empty reply text gives an
   * empty body instead of an XML reply.
   */
  method ProcessWeChatMessage(m: LoginSessionManager, req: WeChatMessageRequest, now: int, verificationCode: string)
    returns (reply: HttpReply)
    requires m.Valid()
    modifies m
    ensures m.Valid()
    ensures reply.XmlReply? ==>
      && reply.response == ReplyTemplate(req, now).(content := reply.response.content)
      && reply.response.content != ""
    ensures reply.EmptyBody? <==> RouteOf(req) == VerificationCode && verificationCode == ""
    ensures RouteOf(req) != ScanEvent ==>
      && (reply.EmptyBody? <==> ReplyText(RouteOf(req), verificationCode) == "")
      && (reply.XmlReply? ==> reply.response.content == ReplyText(RouteOf(req), verificationCode))
    ensures RouteOf(req) == ScanEvent ==>
      reply.XmlReply? && ScanResult(m.State(), reply.response.content) == HandleScan(old(m.State()), req, now)
    ensures RouteOf(req) != ScanEvent ==> m.State() == old(m.State())
  {
    var res := ReplyTemplate(req, now);
    res := WeChatMessage.ProcessWeChatMessage(m, req, res, now, verificationCode);
    WeChatMessage.ReplyNonEmptyUnlessCode(old(m.State()), req, now, verificationCode);
    if res.content == "" {
      return EmptyBody;
    }
    return XmlReply(res);
  }
}
