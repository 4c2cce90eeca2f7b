/**
 * LoginSessionManager: the in-memory session store whose two maps the Go
 * code mutates in place. Every method requires and keeps Valid(), the
 * two-index invariant plus unique auth codes, and leaves the maps as the
 * corresponding function of SessionStore says. The random bytes and the
 * clock reading are parameters; the lock is not modelled (calls are
 * sequential).
 */
module SessionManager {
  import opened Wrappers
  import opened Ids
  import opened SessionStore
  import SessionProperties

  class LoginSessionManager {
    var sessions: map<string, LoginSession>
    var scenes: map<string, string>

    /** The abstract value of the store. */
    function State(): Store
      reads this
    {
      Store(sessions, scenes)
    }

    ghost predicate Valid()
      reads this
    {
      WellFormed(State())
    }

    /** The process-wide manager starts with both maps empty. */
    constructor ()
      ensures Valid() && State() == EMPTY_STORE
    {
      sessions := map[];
      scenes := map[];
    }

    /**
     * Creates a pending session from the random bytes of its token, scene id
     * and auth code; the preconditions say those ids do not collide with
     * stored ones.
     */
    method CreateSession(tokenBytes: seq<byte>, sceneBytes: seq<byte>, codeBytes: seq<byte>, now: int)
      returns (session: LoginSession)
      requires Valid()
      requires |tokenBytes| == TOKEN_BYTES && |sceneBytes| == SCENE_RANDOM_BYTES && |codeBytes| == TOKEN_BYTES
      requires GenerateToken(tokenBytes) !in sessions
      requires GenerateSceneId(now, sceneBytes) !in scenes
      requires !AuthCodeInUse(State(), GenerateToken(codeBytes))
      modifies this
      ensures Valid()
      ensures session.loginToken == GenerateToken(tokenBytes)
      ensures session.sceneId == GenerateSceneId(now, sceneBytes)
      ensures session.authCode == GenerateToken(codeBytes)
      ensures session == NewSession(session.loginToken, session.sceneId, session.authCode, now)
      ensures State() == Create(old(State()), session.loginToken, session.sceneId, session.authCode, now)
    {
      var loginToken := GenerateToken(tokenBytes);
      var sceneId := GenerateSceneId(now, sceneBytes);
      var authCode := GenerateToken(codeBytes);
      SessionProperties.CreatePreservesWellFormed(State(), loginToken, sceneId, authCode, now);
      session := LoginSession(loginToken, sceneId, Pending, "", authCode, None, now, now + SESSION_LIFETIME);
      sessions := sessions[loginToken := session];
      scenes := scenes[sceneId := loginToken];
    }

    method GetSession(loginToken: string, now: int) returns (session: Option<LoginSession>)
      requires Valid()
      modifies this
      ensures Valid()
      ensures Lookup(State(), session) == Get(old(State()), loginToken, now)
    {
      SessionProperties.GetPreservesWellFormed(State(), loginToken, now);
      if loginToken !in sessions {
        return None;
      }
      var s := sessions[loginToken];
      if IsExpired(s, now) {
        sessions := sessions - {loginToken};
        scenes := scenes - {s.sceneId};
        return None;
      }
      return Some(s);
    }

    method GetSessionByScene(sceneId: string, now: int) returns (session: Option<LoginSession>)
      requires Valid()
      modifies this
      ensures Valid()
      ensures Lookup(State(), session) == GetByScene(old(State()), sceneId, now)
    {
      SessionProperties.GetByScenePreservesWellFormed(State(), sceneId, now);
      if sceneId !in scenes {
        return None;
      }
      var loginToken := scenes[sceneId];
      var found := loginToken in sessions;
      if !found || IsExpired(sessions[loginToken], now) {
        scenes := scenes - {sceneId};
        if found {
          sessions := sessions - {loginToken};
        }
        return None;
      }
      return Some(sessions[loginToken]);
    }

    method UpdateSessionByScene(sceneId: string, weChatId: string, userInfo: Option<WeChatUserInfo>)
      returns (ok: bool)
      requires Valid()
      modifies this
      ensures Valid()
      ensures UpdateResult(State(), ok) == Update(old(State()), sceneId, weChatId, userInfo)
    {
      SessionProperties.UpdatePreservesWellFormed(State(), sceneId, weChatId, userInfo);
      if sceneId !in scenes {
        return false;
      }
      var loginToken := scenes[sceneId];
      if loginToken !in sessions {
        return false;
      }
      var s := sessions[loginToken];
      sessions := sessions[loginToken := s.(weChatId := weChatId, userInfo := userInfo, status := Success)];
      return true;
    }

    /**
     * One tick of the cleanup goroutine: visit every record and delete the
     * expired ones from both maps.
     */
    method SweepExpired(now: int)
      requires Valid()
      modifies this
      ensures Valid()
      ensures State() == Sweep(old(State()), now)
    {
      ghost var st := State();
      SessionProperties.SweepPreservesWellFormed(st, now);
      var pending := sessions.Keys;
      while pending != {}
        invariant pending <= sessions.Keys
        invariant SessionProperties.SweepInProgress(st, now, State(), pending)
        decreases pending
      {
        var t :| t in pending;
        SweepVisit(st, now, pending, t);
        pending := pending - {t};
      }
      SessionProperties.SweepByToken(st, now, State());
    }

    /** The body of the cleanup loop for one record: delete it and its scene entry if it has expired. */
    method SweepVisit(ghost st: Store, now: int, ghost pending: set<string>, t: string)
      requires pending <= sessions.Keys && t in pending
      requires SessionProperties.SweepInProgress(st, now, State(), pending)
      modifies this
      ensures pending - {t} <= sessions.Keys
      ensures SessionProperties.SweepInProgress(st, now, State(), pending - {t})
      ensures IsExpired(old(sessions[t]), now) ==>
        State() == Store(old(sessions) - {t}, old(scenes) - {old(sessions[t]).sceneId})
      ensures !IsExpired(old(sessions[t]), now) ==> State() == old(State())
    {
      SessionProperties.SweepStep(st, now, State(), pending, t);
      var s := sessions[t];
      if IsExpired(s, now) {
        sessions := sessions - {t};
        scenes := scenes - {s.sceneId};
      }
    }

    method GetActiveSessionCount() returns (n: nat)
      ensures n == |sessions|
    {
      n := |sessions|;
    }

    /**
     * findWeChatIDByAuthCode: scan the records in an unspecified order and
     * answer with the WeChat id of the first successful one carrying the
     * code, or "" when there is none.
     */
    method FindWeChatIdByAuthCode(authCode: string) returns (weChatId: string)
      ensures Redeemers(State(), authCode) == {} ==> weChatId == ""
      ensures Redeemers(State(), authCode) != {} ==> weChatId in Redeemers(State(), authCode)
    {
      var pending := sessions.Keys;
      while pending != {}
        invariant pending <= sessions.Keys
        invariant forall t :: t in sessions && t !in pending ==> !Redeems(sessions[t], authCode)
        decreases pending
      {
        var t :| t in pending;
        var s := sessions[t];
        if s.authCode == authCode && s.status == Success {
          assert s.weChatId in Redeemers(State(), authCode);
          return s.weChatId;
        }
        pending := pending - {t};
      }
      return "";
    }
  }
}
