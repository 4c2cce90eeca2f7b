/**
 * End-to-end properties of the login flow across the layers: an auth code
 * is disclosed by the status poll, or redeemed for a WeChat id, only after
 * a scan update has marked its session successful; and the scan handler's
 * effect on the store is a short sequence of store operations.
 */
module LoginFlow {
  import opened Wrappers
  import opened SessionStore
  import opened SessionTraces
  import opened WeChatMessage
  import opened WeChatStatus

  /**
   * Operation `ops[i]` is a scan update whose scene resolved, in the store
   * before it, to a record carrying auth code `code`.
   */
  ghost predicate UpdateHit(ops: seq<Op>, i: int, code: string) {
    && 0 <= i < |ops|
    && ops[i].UpdateOp?
    && var pre := Run(ops[..i]);
    && ops[i].scene in pre.scenes
    && pre.scenes[ops[i].scene] in pre.sessions
    && pre.sessions[pre.scenes[ops[i].scene]].authCode == code
  }

  /** A WeChat id the lookup by auth code can return was written by a scan update on that code's session. */
  lemma RedemptionRequiresUpdate(ops: seq<Op>, code: string, w: string)
    requires w in Redeemers(Run(ops), code)
    ensures exists i :: UpdateHit(ops, i, code) && ops[i].weChatId == w
  {
    var st := Run(ops);
    var t :| t in st.sessions && Redeems(st.sessions[t], code) && st.sessions[t].weChatId == w;
    SuccessComesFromUpdate(ops, t);
    var i :| SetBy(ops, i, t, st.sessions[t]);
    assert UpdateHit(ops, i, code);
  }

  /** Hence a store on which no scan update has run redeems no code. */
  lemma NoUpdateNoRedemption(ops: seq<Op>, code: string)
    requires forall i :: 0 <= i < |ops| ==> !ops[i].UpdateOp?
    ensures Redeemers(Run(ops), code) == {}
  {
    if w :| w in Redeemers(Run(ops), code) {
      RedemptionRequiresUpdate(ops, code, w);
      assert false;
    }
  }

  /**
   * A status poll that discloses a WeChat user (and with it the auth code)
   * answers for a record that a scan update hit, and discloses the user
   * info that update wrote.
   */
  lemma DisclosureRequiresUpdate(ops: seq<Op>, token: string, now: int)
    requires StatusReply(Get(Run(ops), token, now).session).data.weChatUser.Some?
    ensures var data := StatusReply(Get(Run(ops), token, now).session).data;
      exists i :: UpdateHit(ops, i, data.authCode) && ops[i].userInfo == data.weChatUser
  {
    var st := Run(ops);
    var s := st.sessions[token];
    SuccessComesFromUpdate(ops, token);
    var i :| SetBy(ops, i, token, s);
    assert UpdateHit(ops, i, s.authCode);
  }

  /** The store operations a scan event performs, given the store it finds. */
  function ScanOps(st: Store, req: WeChatMessageRequest, now: int): (ops: seq<Op>)
    ensures |ops| <= 2
    ensures forall k :: 0 <= k < |ops| ==> !ops[k].CreateOp? && !ops[k].SweepOp?
    ensures forall k :: 0 <= k < |ops| && ops[k].UpdateOp? ==>
      ops[k].weChatId == req.fromUserName && ops[k].userInfo == Some(WeChatUserInfo(req.fromUserName))
  {
    match SceneOf(req.event, req.eventKey)
    case None => []
    case Some(scene) =>
      if GetByScene(st, scene, now).session.None? then [GetBySceneOp(scene, now)]
      else [GetBySceneOp(scene, now), UpdateOp(scene, req.fromUserName, Some(WeChatUserInfo(req.fromUserName)))]
  }

  lemma RunAppendOne(ops: seq<Op>, a: Op)
    ensures Run(ops + [a]) == Step(Run(ops), a)
  {
    assert (ops + [a])[..|ops|] == ops;
  }

  /**
   * Handling a scan event leaves the store that running its store
   * operations after the trace leaves: the handler creates nothing and
   * writes only the sender's id.
   */
  lemma {:induction false} ScanExtendsTrace(ops: seq<Op>, req: WeChatMessageRequest, now: int)
    ensures Run(ops + ScanOps(Run(ops), req, now)) == HandleScan(Run(ops), req, now).store
  {
    var st := Run(ops);
    var extra := ScanOps(st, req, now);
    match SceneOf(req.event, req.eventKey)
    case None =>
      assert ops + extra == ops;
    case Some(scene) =>
      var g := GetBySceneOp(scene, now);
      RunAppendOne(ops, g);
      if GetByScene(st, scene, now).session.Some? {
        var u := UpdateOp(scene, req.fromUserName, Some(WeChatUserInfo(req.fromUserName)));
        assert ops + extra == (ops + [g]) + [u];
        RunAppendOne(ops + [g], u);
      }
  }
}
