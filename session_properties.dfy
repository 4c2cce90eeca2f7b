/**
 * Properties of the store operations: each keeps the two indices in step,
 * the lookups and the sweep agree on what is expired, an update is
 * idempotent, and a lookup by auth code answers only for successful records.
 */
module SessionProperties {
  import opened Wrappers
  import opened SessionStore

  lemma CreatePreservesWellFormed(st: Store, token: string, scene: string, code: string, now: int)
    requires WellFormed(st)
    requires token !in st.sessions && scene !in st.scenes && !AuthCodeInUse(st, code)
    ensures WellFormed(Create(st, token, scene, code, now))
  {
    CreateKeepsIntegrity(st, token, scene, code, now);
    CreateKeepsUniqueAuthCodes(st, token, scene, code, now);
  }

  lemma CreateKeepsIntegrity(st: Store, token: string, scene: string, code: string, now: int)
    requires Integrity(st) && token !in st.sessions && scene !in st.scenes
    ensures Integrity(Create(st, token, scene, code, now))
  {
    var r := Create(st, token, scene, code, now);
    forall s | s in r.scenes
      ensures r.scenes[s] in r.sessions && r.sessions[r.scenes[s]].sceneId == s
    {
      if s != scene {
        assert st.scenes[s] != token;
      }
    }
    forall t | t in r.sessions
      ensures r.sessions[t].loginToken == t && r.sessions[t].sceneId in r.scenes
        && r.scenes[r.sessions[t].sceneId] == t
    {
      if t != token {
        assert st.sessions[t].sceneId != scene;
      }
    }
  }

  lemma CreateKeepsUniqueAuthCodes(st: Store, token: string, scene: string, code: string, now: int)
    requires UniqueAuthCodes(st) && token !in st.sessions && !AuthCodeInUse(st, code)
    ensures UniqueAuthCodes(Create(st, token, scene, code, now))
  {
    var r := Create(st, token, scene, code, now);
    assert forall t :: t in st.sessions ==> st.sessions[t].authCode != code;
    forall t1, t2 | t1 in r.sessions && t2 in r.sessions && r.sessions[t1].authCode == r.sessions[t2].authCode
      ensures t1 == t2
    {
      if t1 != token && t2 != token {
        assert st.sessions[t1].authCode == st.sessions[t2].authCode;
      }
    }
  }

  /** Right after creation the session is found by its token and by its scene id. */
  lemma CreateThenLookup(st: Store, token: string, scene: string, code: string, now: int)
    ensures var r := Create(st, token, scene, code, now);
      && Get(r, token, now) == Lookup(r, Some(NewSession(token, scene, code, now)))
      && GetByScene(r, scene, now) == Lookup(r, Some(NewSession(token, scene, code, now)))
  {
  }

  lemma EvictPreservesWellFormed(st: Store, token: string)
    requires WellFormed(st) && token in st.sessions
    ensures WellFormed(Evict(st, token))
  {
    var r := Evict(st, token);
    var gone := st.sessions[token].sceneId;
    forall t | t in r.sessions
      ensures r.sessions[t].sceneId in r.scenes && r.scenes[r.sessions[t].sceneId] == t
    {
      assert st.scenes[st.sessions[t].sceneId] == t;
      assert st.sessions[t].sceneId != gone;
    }
  }

  lemma GetPreservesWellFormed(st: Store, token: string, now: int)
    requires WellFormed(st)
    ensures WellFormed(Get(st, token, now).store)
  {
    if token in st.sessions {
      EvictPreservesWellFormed(st, token);
    }
  }

  /**
   * Under the index invariant a lookup by scene is a lookup by the token the
   * scene names: same answer, same eviction.
   */
  lemma GetBySceneIsGet(st: Store, scene: string, now: int)
    requires Integrity(st) && scene in st.scenes
    ensures GetByScene(st, scene, now) == Get(st, st.scenes[scene], now)
  {
    var token := st.scenes[scene];
    if IsExpired(st.sessions[token], now) {
      assert st.sessions[token].sceneId == scene;
      assert Store(st.sessions - {token}, st.scenes - {scene}) == Evict(st, token);
    }
  }

  lemma GetBySceneUnknown(st: Store, scene: string, now: int)
    requires scene !in st.scenes
    ensures GetByScene(st, scene, now) == Lookup(st, None)
  {
  }

  lemma GetByScenePreservesWellFormed(st: Store, scene: string, now: int)
    requires WellFormed(st)
    ensures WellFormed(GetByScene(st, scene, now).store)
  {
    if scene in st.scenes {
      GetBySceneIsGet(st, scene, now);
      GetPreservesWellFormed(st, st.scenes[scene], now);
    }
  }

  lemma UpdatePreservesWellFormed(st: Store, scene: string, weChatId: string, userInfo: Option<WeChatUserInfo>)
    requires WellFormed(st)
    ensures WellFormed(Update(st, scene, weChatId, userInfo).store)
  {
    var r := Update(st, scene, weChatId, userInfo).store;
    assert forall t :: t in r.sessions ==>
      r.sessions[t].loginToken == st.sessions[t].loginToken
      && r.sessions[t].sceneId == st.sessions[t].sceneId
      && r.sessions[t].authCode == st.sessions[t].authCode;
  }

  /** Repeating the same scan update changes nothing more and succeeds again. */
  lemma {:induction false} UpdateIdempotent(st: Store, scene: string, weChatId: string, userInfo: Option<WeChatUserInfo>)
    ensures var once := Update(st, scene, weChatId, userInfo);
      var twice := Update(once.store, scene, weChatId, userInfo);
      twice.store == once.store && twice.ok == once.ok
  {
    var once := Update(st, scene, weChatId, userInfo);
    if once.ok {
      var t := st.scenes[scene];
      var twice := Update(once.store, scene, weChatId, userInfo);
      assert twice.store.sessions == once.store.sessions;
    }
  }

  lemma SweepPreservesWellFormed(st: Store, now: int)
    requires WellFormed(st)
    ensures WellFormed(Sweep(st, now))
  {
    var r := Sweep(st, now);
    assert forall t :: t in st.sessions && IsExpired(st.sessions[t], now) ==>
      st.sessions[t].sceneId in ExpiredScenes(st, now);
    forall t | t in r.sessions
      ensures r.sessions[t].sceneId in r.scenes && r.scenes[r.sessions[t].sceneId] == t
    {
      var s := st.sessions[t].sceneId;
      assert forall u :: u in st.sessions && st.sessions[u].sceneId == s ==> u == t;
    }
  }

  /**
   * The state of a sweep of `st` that has still to visit the tokens in
   * `pending`: every visited expired record and its scene entry are gone,
   * everything else is as it was.
   */
  ghost predicate SweepInProgress(st: Store, now: int, cur: Store, pending: set<string>) {
    && Integrity(st)
    && cur.sessions.Keys <= st.sessions.Keys && cur.scenes.Keys <= st.scenes.Keys
    && (forall t :: t in cur.sessions ==> cur.sessions[t] == st.sessions[t])
    && (forall t :: t in st.sessions ==>
          (t in cur.sessions <==> t in pending || !IsExpired(st.sessions[t], now)))
    && (forall sc :: sc in cur.scenes ==> cur.scenes[sc] == st.scenes[sc])
    && (forall sc :: sc in st.scenes ==>
          (sc in cur.scenes <==> st.scenes[sc] in pending || !IsExpired(st.sessions[st.scenes[sc]], now)))
  }

  /** Visiting one more token keeps the sweep in progress. */
  lemma SweepStep(st: Store, now: int, cur: Store, pending: set<string>, t: string)
    requires SweepInProgress(st, now, cur, pending) && t in pending && t in cur.sessions
    ensures var s := cur.sessions[t];
      var next := if IsExpired(s, now) then Store(cur.sessions - {t}, cur.scenes - {s.sceneId}) else cur;
      SweepInProgress(st, now, next, pending - {t})
  {
    var s := cur.sessions[t];
    assert s == st.sessions[t];
    assert st.scenes[s.sceneId] == t;
  }

  /**
   * Under the index invariant, the sweep is determined token by token: a
   * scene entry goes exactly when the record it names has expired.
   */
  lemma SweepByToken(st: Store, now: int, r: Store)
    requires Integrity(st)
    requires r.sessions.Keys <= st.sessions.Keys && r.scenes.Keys <= st.scenes.Keys
    requires forall t :: t in r.sessions ==> r.sessions[t] == st.sessions[t]
    requires forall t :: t in st.sessions ==> (t in r.sessions <==> !IsExpired(st.sessions[t], now))
    requires forall sc :: sc in r.scenes ==> r.scenes[sc] == st.scenes[sc]
    requires forall sc :: sc in st.scenes ==> (sc in r.scenes <==> !IsExpired(st.sessions[st.scenes[sc]], now))
    ensures r == Sweep(st, now)
  {
    var sw := Sweep(st, now);
    assert r.sessions == sw.sessions;
    forall sc | sc in st.scenes
      ensures sc in ExpiredScenes(st, now) <==> IsExpired(st.sessions[st.scenes[sc]], now)
    {
      var t := st.scenes[sc];
      assert forall u :: u in st.sessions && st.sessions[u].sceneId == sc ==> u == t;
    }
    assert r.scenes == sw.scenes;
  }

  /** After a sweep the count is the number of records not yet past their expiry. */
  lemma SweepCount(st: Store, now: int)
    ensures ActiveCount(Sweep(st, now)) == |LiveTokens(st, now)|
    ensures ActiveCount(Sweep(st, now)) + |ExpiredTokens(st, now)| == ActiveCount(st)
  {
    var live, expired := LiveTokens(st, now), ExpiredTokens(st, now);
    var r := Sweep(st, now);
    MapSizeIsKeysSize(r.sessions, live);
    TokensSplit(st, now);
    MapSizeIsKeysSize(st.sessions, live + expired);
    DisjointUnionSize(live, expired);
  }

  lemma TokensSplit(st: Store, now: int)
    ensures st.sessions.Keys == LiveTokens(st, now) + ExpiredTokens(st, now)
    ensures LiveTokens(st, now) * ExpiredTokens(st, now) == {}
  {
  }

  lemma MapSizeIsKeysSize<K, V>(m: map<K, V>, keys: set<K>)
    requires m.Keys == keys
    ensures |m| == |keys|
  {
  }

  lemma DisjointUnionSize<T>(a: set<T>, b: set<T>)
    requires a * b == {}
    ensures |a + b| == |a| + |b|
  {
  }

  /**
   * The sweep and the lazy eviction agree: at the same instant, a lookup by
   * token answers the same before and after the sweep, and after the sweep
   * it evicts nothing.
   */
  lemma SweepThenGet(st: Store, token: string, now: int)
    ensures Get(Sweep(st, now), token, now).session == Get(st, token, now).session
    ensures Get(Sweep(st, now), token, now).store == Sweep(st, now)
  {
    var r := Sweep(st, now);
    if token in st.sessions && !IsExpired(st.sessions[token], now) {
      assert token in LiveTokens(st, now);
    }
  }

  /** With unique auth codes a lookup by code has at most one possible answer. */
  lemma RedeemersAtMostOne(st: Store, code: string)
    requires UniqueAuthCodes(st)
    ensures |Redeemers(st, code)| <= 1
  {
    var ids := Redeemers(st, code);
    if ids != {} {
      var w :| w in ids;
      var t :| t in st.sessions && Redeems(st.sessions[t], code) && st.sessions[t].weChatId == w;
      assert ids == {w} by {
        forall w' | w' in ids ensures w' == w {
          var t' :| t' in st.sessions && Redeems(st.sessions[t'], code) && st.sessions[t'].weChatId == w';
          assert t' == t;
        }
      }
    }
  }

  /** The auth code of a session that has not been scanned redeems nothing. */
  lemma UnscannedCodeRedeemsNothing(st: Store, token: string)
    requires UniqueAuthCodes(st) && token in st.sessions
    requires st.sessions[token].status != Success
    ensures Redeemers(st, st.sessions[token].authCode) == {}
  {
    var code := st.sessions[token].authCode;
    assert forall t :: t in st.sessions && st.sessions[t].authCode == code ==> t == token;
  }

  /**
   * The lookup by auth code does not look at the expiry: a successful record
   * stays redeemable after its expiry instant until a getter or the sweep
   * removes it.
   */
  lemma ExpiredCodeRedeemableUntilSwept(st: Store, token: string, now: int)
    requires UniqueAuthCodes(st) && token in st.sessions
    requires st.sessions[token].status == Success && IsExpired(st.sessions[token], now)
    ensures st.sessions[token].weChatId in Redeemers(st, st.sessions[token].authCode)
    ensures Redeemers(Sweep(st, now), st.sessions[token].authCode) == {}
  {
    var code := st.sessions[token].authCode;
    var r := Sweep(st, now);
    assert forall t :: t in r.sessions && r.sessions[t].authCode == code ==> t == token;
  }

  /**
   * The scenario of a complete login: created at t0, pending five minutes
   * later, successful after the scan, gone eleven minutes after creation.
   */
  lemma LoginScenario(st: Store, token: string, scene: string, code: string, t0: int, weChatId: string)
    requires WellFormed(st)
    requires token !in st.sessions && scene !in st.scenes && !AuthCodeInUse(st, code)
    ensures var created := Create(st, token, scene, code, t0);
      var early := Get(created, token, t0 + 5 * NANOS_PER_MINUTE);
      var scanned := Update(created, scene, weChatId, Some(WeChatUserInfo(weChatId)));
      var polled := Get(scanned.store, token, t0 + 5 * NANOS_PER_MINUTE);
      var late := Get(scanned.store, token, t0 + 11 * NANOS_PER_MINUTE);
      && early.session.Some? && early.session.value.status == Pending
      && scanned.ok
      && polled.session.Some? && polled.session.value.status == Success
      && polled.session.value.weChatId == weChatId
      && late.session.None? && token !in late.store.sessions && scene !in late.store.scenes
  {
  }

  /** An update naming an unknown scene leaves every session as it was. */
  lemma UpdateUnknownScene(st: Store, scene: string, weChatId: string, userInfo: Option<WeChatUserInfo>)
    requires scene !in st.scenes
    ensures Update(st, scene, weChatId, userInfo) == UpdateResult(st, false)
  {
  }
}
