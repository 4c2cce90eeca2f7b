/**
 * The login-session store as a value: the two maps of LoginSessionManager
 * (login token -> session record, scene id -> login token) and one pure
 * function per operation. The class in SessionManager changes its fields
 * exactly as these functions say; the lemmas about them are in
 * SessionProperties and SessionTraces.
 *
 * Time is an integer count of nanoseconds; `now` is the reading of the
 * clock the Go code takes with time.Now().
 */
module SessionStore {
  import opened Wrappers
  import opened Ids

  const NANOS_PER_MINUTE: int := 60 * NANOS_PER_SECOND
  /** A session expires 10 minutes after it is created. */
  const SESSION_LIFETIME: int := 10 * NANOS_PER_MINUTE

  datatype Status = Pending | Success | Expired

  datatype WeChatUserInfo = WeChatUserInfo(openId: string)

  datatype LoginSession = LoginSession(
    loginToken: string,
    sceneId: string,
    status: Status,
    weChatId: string,
    authCode: string,
    userInfo: Option<WeChatUserInfo>,
    createdAt: int,
    expiredAt: int)

  datatype Store = Store(sessions: map<string, LoginSession>, scenes: map<string, string>)

  /** What a getter returns (the record or nil) together with the store it leaves behind. */
  datatype Lookup = Lookup(store: Store, session: Option<LoginSession>)

  datatype UpdateResult = UpdateResult(store: Store, ok: bool)

  const EMPTY_STORE: Store := Store(map[], map[])

  /** time.Time.Before: strictly earlier, so a session is still live at its expiry instant. */
  predicate IsExpired(s: LoginSession, now: int) {
    s.expiredAt < now
  }

  /**
   * The two indices agree: every scene entry leads to a record carrying that
   * scene id, and every record is filed under its own token and is reachable
   * from its scene id.
   */
  ghost predicate Integrity(st: Store) {
    && (forall s :: s in st.scenes ==>
          st.scenes[s] in st.sessions && st.sessions[st.scenes[s]].sceneId == s)
    && (forall t :: t in st.sessions ==>
          st.sessions[t].loginToken == t
          && st.sessions[t].sceneId in st.scenes
          && st.scenes[st.sessions[t].sceneId] == t)
  }

  /** No two live records share an auth code. */
  ghost predicate UniqueAuthCodes(st: Store) {
    forall t1, t2 ::
      t1 in st.sessions && t2 in st.sessions && st.sessions[t1].authCode == st.sessions[t2].authCode
      ==> t1 == t2
  }

  ghost predicate WellFormed(st: Store) {
    Integrity(st) && UniqueAuthCodes(st)
  }

  ghost predicate AuthCodeInUse(st: Store, code: string) {
    exists t :: t in st.sessions && st.sessions[t].authCode == code
  }

  /** A record whose auth code is `code` and that a lookup by that code accepts. */
  predicate Redeems(s: LoginSession, code: string) {
    s.authCode == code && s.status == Success
  }

  /** The record CreateSession builds. */
  function NewSession(token: string, scene: string, code: string, now: int): (s: LoginSession)
    ensures s.status == Pending && s.weChatId == "" && s.userInfo == None
    ensures forall c :: !Redeems(s, c)
    ensures forall later :: !IsExpired(s, later) <==> later <= now + SESSION_LIFETIME
  {
    LoginSession(token, scene, Pending, "", code, None, now, now + SESSION_LIFETIME)
  }

  /** CreateSession: file the new record under its token and its scene id. */
  function Create(st: Store, token: string, scene: string, code: string, now: int): (r: Store)
    ensures r.sessions.Keys == st.sessions.Keys + {token}
    ensures r.scenes.Keys == st.scenes.Keys + {scene}
    ensures r.sessions[token] == NewSession(token, scene, code, now)
    ensures r.scenes[scene] == token
    ensures forall t :: t in st.sessions && t != token ==> r.sessions[t] == st.sessions[t]
    ensures forall s :: s in st.scenes && s != scene ==> r.scenes[s] == st.scenes[s]
  {
    Store(st.sessions[token := NewSession(token, scene, code, now)], st.scenes[scene := token])
  }

  /** Removal of one record and of the scene entry its record names. */
  function Evict(st: Store, token: string): (r: Store)
    requires token in st.sessions
    ensures r.sessions.Keys == st.sessions.Keys - {token}
    ensures r.scenes.Keys == st.scenes.Keys - {st.sessions[token].sceneId}
    ensures forall t :: t in r.sessions ==> r.sessions[t] == st.sessions[t]
    ensures forall s :: s in r.scenes ==> r.scenes[s] == st.scenes[s]
  {
    Store(st.sessions - {token}, st.scenes - {st.sessions[token].sceneId})
  }

  /** GetSession: lookup by login token, evicting the record if it has expired. */
  function Get(st: Store, token: string, now: int): (r: Lookup)
    ensures r.session.Some? <==> token in st.sessions && !IsExpired(st.sessions[token], now)
    ensures r.session.Some? ==> r.session.value == st.sessions[token] && r.store == st
    ensures token !in st.sessions ==> r.store == st
    ensures token in st.sessions && r.session.None? ==> r.store == Evict(st, token)
  {
    if token !in st.sessions then Lookup(st, None)
    else if IsExpired(st.sessions[token], now) then Lookup(Evict(st, token), None)
    else Lookup(st, Some(st.sessions[token]))
  }

  /**
   * GetSessionByScene: resolve the scene to a token, then the token to a
   * record; a dangling scene entry is dropped, an expired record is evicted
   * together with the scene entry that was looked up.
   */
  function GetByScene(st: Store, scene: string, now: int): (r: Lookup)
    ensures r.session.Some? <==>
      scene in st.scenes && st.scenes[scene] in st.sessions
      && !IsExpired(st.sessions[st.scenes[scene]], now)
    ensures r.session.Some? ==> r.session.value == st.sessions[st.scenes[scene]] && r.store == st
    ensures scene !in st.scenes ==> r.store == st
    ensures scene in st.scenes && r.session.None? ==>
      r.store == Store(st.sessions - {st.scenes[scene]}, st.scenes - {scene})
  {
    if scene !in st.scenes then Lookup(st, None)
    else
      var token := st.scenes[scene];
      if token !in st.sessions then Lookup(Store(st.sessions, st.scenes - {scene}), None)
      else if IsExpired(st.sessions[token], now) then
        Lookup(Store(st.sessions - {token}, st.scenes - {scene}), None)
      else Lookup(st, Some(st.sessions[token]))
  }

  /**
   * UpdateSessionByScene: the scan marks the record the scene resolves to as
   * successful. Expiry is not checked.
   */
  function Update(st: Store, scene: string, weChatId: string, userInfo: Option<WeChatUserInfo>): (r: UpdateResult)
    ensures r.ok <==> scene in st.scenes && st.scenes[scene] in st.sessions
    ensures !r.ok ==> r.store == st
    ensures r.store.scenes == st.scenes && r.store.sessions.Keys == st.sessions.Keys
    ensures r.ok ==>
      var t := st.scenes[scene];
      && r.store.sessions[t] == st.sessions[t].(weChatId := weChatId, userInfo := userInfo, status := Success)
      && forall u :: u in st.sessions && u != t ==> r.store.sessions[u] == st.sessions[u]
  {
    if scene !in st.scenes then UpdateResult(st, false)
    else
      var token := st.scenes[scene];
      if token !in st.sessions then UpdateResult(st, false)
      else
        var s := st.sessions[token];
        var s' := s.(weChatId := weChatId, userInfo := userInfo, status := Success);
        UpdateResult(Store(st.sessions[token := s'], st.scenes), true)
  }

  /** The scene ids of the records that have expired at `now`. */
  function ExpiredScenes(st: Store, now: int): set<string> {
    set t | t in st.sessions && IsExpired(st.sessions[t], now) :: st.sessions[t].sceneId
  }

  function LiveTokens(st: Store, now: int): set<string> {
    set t | t in st.sessions && !IsExpired(st.sessions[t], now)
  }

  function ExpiredTokens(st: Store, now: int): set<string> {
    set t | t in st.sessions && IsExpired(st.sessions[t], now)
  }

  /** One tick of the cleanup loop. */
  function Sweep(st: Store, now: int): (r: Store)
    ensures r.sessions.Keys == LiveTokens(st, now)
    ensures forall t :: t in r.sessions ==> r.sessions[t] == st.sessions[t] && !IsExpired(r.sessions[t], now)
    ensures r.scenes.Keys == st.scenes.Keys - ExpiredScenes(st, now)
    ensures forall s :: s in r.scenes ==> r.scenes[s] == st.scenes[s]
  {
    Store(
      map t | t in st.sessions && !IsExpired(st.sessions[t], now) :: st.sessions[t],
      map s | s in st.scenes && s !in ExpiredScenes(st, now) :: st.scenes[s])
  }

  /** GetActiveSessionCount: the number of records still stored (swept or not). */
  function ActiveCount(st: Store): nat {
    |st.sessions|
  }

  /** The WeChat ids a lookup by auth code may answer with. */
  function Redeemers(st: Store, code: string): set<string> {
    set t | t in st.sessions && Redeems(st.sessions[t], code) :: st.sessions[t].weChatId
  }
}
