/**
 * Handling of an inbound WeChat message (common/wechat-message.go): the
 * dispatch on message and event type, the extraction of the scene id from
 * the event key, and the scan handler that looks the session up by scene
 * and marks it successful. The handler is a method over the manager; its
 * effect on the store and the reply text it picks are the function
 * HandleScan, and the lemmas below state what the source promises of it.
 */
module WeChatMessage {
  import opened Wrappers
  import opened SessionStore
  import opened SessionManager

  datatype WeChatMessageRequest = WeChatMessageRequest(
    toUserName: string,
    fromUserName: string,
    createTime: int,
    msgType: string,
    content: string,
    msgId: int,
    msgDataId: int,
    idx: int,
    event: string,
    eventKey: string,
    ticket: string)

  datatype WeChatMessageResponse = WeChatMessageResponse(
    toUserName: string,
    fromUserName: string,
    createTime: int,
    msgType: string,
    content: string)

  const QR_SCENE_PREFIX: string := "qrscene_"
  const VERIFICATION_KEYWORD: string := "验证码"
  const SUBSCRIBE_LOGIN_TEXT: string := "欢迎关注！登录成功，请返回网页继续操作"
  const SCAN_LOGIN_TEXT: string := "登录成功，请返回网页继续操作"
  const PLAIN_SUBSCRIBE_TEXT: string := "欢迎关注！发送「验证码」获取登录验证码，或使用扫码登录功能"
  const QR_EXPIRED_TEXT: string := "欢迎关注！二维码可能已过期，请重新生成"
  const LOGIN_FAILED_TEXT: string := "登录失败，请重新扫码"
  const TEXT_PROMPT: string := "发送「验证码」获取登录验证码"
  const WELCOME_TEXT: string := "欢迎使用！发送「验证码」获取登录验证码"

  predicate HasPrefix(s: string, prefix: string) {
    |prefix| <= |s| && s[..|prefix|] == prefix
  }

  datatype Route = ScanEvent | VerificationCode | TextPrompt | Welcome

  /** The switch of ProcessWeChatMessage. */
  function RouteOf(req: WeChatMessageRequest): (r: Route)
    ensures r == ScanEvent <==> req.msgType == "event" && (req.event == "subscribe" || req.event == "SCAN")
    ensures r == VerificationCode <==> req.msgType == "text" && req.content == VERIFICATION_KEYWORD
    ensures r == TextPrompt <==> req.msgType == "text" && req.content != VERIFICATION_KEYWORD
    ensures r == Welcome <==>
      req.msgType != "text" && !(req.msgType == "event" && (req.event == "subscribe" || req.event == "SCAN"))
  {
    if req.msgType == "event" && (req.event == "subscribe" || req.event == "SCAN") then ScanEvent
    else if req.msgType == "text" then
      (if req.content == VERIFICATION_KEYWORD then VerificationCode else TextPrompt)
    else Welcome
  }

  /**
   * The scene id a scan event carries: a subscribe event's key without its
   * "qrscene_" prefix, a SCAN event's key as it is, and none for a subscribe
   * event without the prefix.
   */
  function SceneOf(event: string, eventKey: string): (r: Option<string>)
    ensures r.Some? <==> (event == "subscribe" && HasPrefix(eventKey, QR_SCENE_PREFIX)) || event == "SCAN"
    ensures r.Some? && event == "subscribe" ==> QR_SCENE_PREFIX + r.value == eventKey
    ensures r.Some? && event != "subscribe" ==> r.value == eventKey
  {
    if event == "subscribe" && HasPrefix(eventKey, QR_SCENE_PREFIX) then
      assert eventKey == QR_SCENE_PREFIX + eventKey[|QR_SCENE_PREFIX|..];
      Some(eventKey[|QR_SCENE_PREFIX|..])
    else if event == "SCAN" then Some(eventKey)
    else None
  }

  /** The key WeChat sends for a new follower who scanned scene `s` gives back `s`. */
  lemma SubscribeSceneRoundTrip(s: string)
    ensures SceneOf("subscribe", QR_SCENE_PREFIX + s) == Some(s)
  {
    assert (QR_SCENE_PREFIX + s)[..|QR_SCENE_PREFIX|] == QR_SCENE_PREFIX;
  }

  /** The text the scan handler sets before it looks the session up. */
  function ScanGreeting(event: string): string {
    if event == "subscribe" then SUBSCRIBE_LOGIN_TEXT else SCAN_LOGIN_TEXT
  }

  datatype ScanResult = ScanResult(store: Store, content: string)

  /** handleQRCodeScanEvent: the store it leaves and the reply text it picks. */
  function HandleScan(st: Store, req: WeChatMessageRequest, now: int): (r: ScanResult)
    ensures r.store.sessions.Keys <= st.sessions.Keys && r.store.scenes.Keys <= st.scenes.Keys
    ensures SceneOf(req.event, req.eventKey).None? ==> r == ScanResult(st, PLAIN_SUBSCRIBE_TEXT)
    ensures r.content != LOGIN_FAILED_TEXT
  {
    match SceneOf(req.event, req.eventKey)
    case None => ScanResult(st, PLAIN_SUBSCRIBE_TEXT)
    case Some(scene) =>
      var found := GetByScene(st, scene, now);
      if found.session.None? then
        ScanResult(found.store, if req.event == "subscribe" then QR_EXPIRED_TEXT else ScanGreeting(req.event))
      else
        var updated := Update(found.store, scene, req.fromUserName, Some(WeChatUserInfo(req.fromUserName)));
        ScanResult(updated.store, if updated.ok then ScanGreeting(req.event) else LOGIN_FAILED_TEXT)
  }

  /**
   * A scan that finds no live session updates nothing: the store is what the
   * lookup left; a subscribe event says the QR code may have expired, a SCAN
   * event keeps the success text.
   */
  lemma ScanWithoutSession(st: Store, req: WeChatMessageRequest, now: int)
    requires SceneOf(req.event, req.eventKey).Some?
    requires GetByScene(st, SceneOf(req.event, req.eventKey).value, now).session.None?
    ensures var r := HandleScan(st, req, now);
      && r.store == GetByScene(st, SceneOf(req.event, req.eventKey).value, now).store
      && r.content == (if req.event == "subscribe" then QR_EXPIRED_TEXT else SCAN_LOGIN_TEXT)
  {
  }

  /**
   * A scan of a live session logs it in: that record, and no other, becomes
   * successful with the sender as WeChat id and open id, and the greeting is
   * kept.
   */
  lemma ScanLogsIn(st: Store, req: WeChatMessageRequest, now: int)
    requires SceneOf(req.event, req.eventKey).Some?
    requires var scene := SceneOf(req.event, req.eventKey).value;
      GetByScene(st, scene, now).session.Some?
    ensures var scene := SceneOf(req.event, req.eventKey).value;
      var t := st.scenes[scene];
      var r := HandleScan(st, req, now);
      && r.content == ScanGreeting(req.event)
      && r.store.scenes == st.scenes
      && r.store.sessions.Keys == st.sessions.Keys
      && r.store.sessions[t] == st.sessions[t].(weChatId := req.fromUserName,
           userInfo := Some(WeChatUserInfo(req.fromUserName)), status := Success)
      && forall u :: u in st.sessions && u != t ==> r.store.sessions[u] == st.sessions[u]
  {
  }

  /** The reply ProcessWeChatMessage writes for a route that does not touch the store. */
  function ReplyText(route: Route, verificationCode: string): string {
    match route
    case VerificationCode => verificationCode
    case TextPrompt => TEXT_PROMPT
    case _ => WELCOME_TEXT
  }

  method HandleQRCodeScanEvent(m: LoginSessionManager, req: WeChatMessageRequest,
                               res: WeChatMessageResponse, now: int)
    returns (out: WeChatMessageResponse)
    requires m.Valid()
    modifies m
    ensures m.Valid()
    ensures ScanResult(m.State(), out.content) == HandleScan(old(m.State()), req, now)
    ensures out == res.(content := out.content)
  {
    var sceneId: string;
    out := res;
    if req.event == "subscribe" && HasPrefix(req.eventKey, QR_SCENE_PREFIX) {
      sceneId := req.eventKey[|QR_SCENE_PREFIX|..];
      out := out.(content := SUBSCRIBE_LOGIN_TEXT);
    } else if req.event == "SCAN" {
      sceneId := req.eventKey;
      out := out.(content := SCAN_LOGIN_TEXT);
    } else {
      out := out.(content := PLAIN_SUBSCRIBE_TEXT);
      return;
    }
    var session := m.GetSessionByScene(sceneId, now);
    if session.None? {
      if req.event == "subscribe" {
        out := out.(content := QR_EXPIRED_TEXT);
      }
      return;
    }
    var userInfo := WeChatUserInfo(req.fromUserName);
    var success := m.UpdateSessionByScene(sceneId, req.fromUserName, Some(userInfo));
    if !success {
      out := out.(content := LOGIN_FAILED_TEXT);
    }
  }

  /**
   * ProcessWeChatMessage: scan events go to the scan handler; every other
   * route only sets the reply text and leaves the store alone.
   * `verificationCode` is the code the verification-code generator returns.
   */
  method ProcessWeChatMessage(m: LoginSessionManager, req: WeChatMessageRequest,
                              res: WeChatMessageResponse, now: int, verificationCode: string)
    returns (out: WeChatMessageResponse)
    requires m.Valid()
    modifies m
    ensures m.Valid()
    ensures out == res.(content := out.content)
    ensures RouteOf(req) == ScanEvent ==>
      ScanResult(m.State(), out.content) == HandleScan(old(m.State()), req, now)
    ensures RouteOf(req) != ScanEvent ==>
      m.State() == old(m.State()) && out.content == ReplyText(RouteOf(req), verificationCode)
  {
    if req.msgType == "event" && (req.event == "subscribe" || req.event == "SCAN") {
      out := HandleQRCodeScanEvent(m, req, res, now);
    } else if req.msgType == "text" {
      if req.content == VERIFICATION_KEYWORD {
        out := res.(content := verificationCode);
      } else {
        out := res.(content := TEXT_PROMPT);
      }
    } else {
      out := res.(content := WELCOME_TEXT);
    }
  }

  /** Only the verification-code route can leave the reply text empty. */
  lemma ReplyNonEmptyUnlessCode(st: Store, req: WeChatMessageRequest, now: int, verificationCode: string)
    ensures RouteOf(req) == ScanEvent ==> HandleScan(st, req, now).content != ""
    ensures RouteOf(req) !in {ScanEvent, VerificationCode} ==> ReplyText(RouteOf(req), verificationCode) != ""
  {
  }
}
