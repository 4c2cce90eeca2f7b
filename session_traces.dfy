/**
 * Sequences of store operations from the empty store at process start.
 * Only creation, the two getters, the scan update and the sweep change the
 * store; the lookup by auth code and the count only read it.
 */
module SessionTraces {
  import opened Wrappers
  import opened SessionStore
  import SessionProperties

  datatype Op =
    | CreateOp(token: string, scene: string, code: string, now: int)
    | GetOp(token: string, now: int)
    | GetBySceneOp(scene: string, now: int)
    | UpdateOp(scene: string, weChatId: string, userInfo: Option<WeChatUserInfo>)
    | SweepOp(now: int)

  function Step(st: Store, op: Op): Store {
    match op
    case CreateOp(token, scene, code, now) => Create(st, token, scene, code, now)
    case GetOp(token, now) => Get(st, token, now).store
    case GetBySceneOp(scene, now) => GetByScene(st, scene, now).store
    case UpdateOp(scene, weChatId, userInfo) => Update(st, scene, weChatId, userInfo).store
    case SweepOp(now) => Sweep(st, now)
  }

  /** The store after running `ops` from the empty store. */
  function Run(ops: seq<Op>): Store
    decreases |ops|
  {
    if ops == [] then EMPTY_STORE else Step(Run(ops[..|ops| - 1]), ops[|ops| - 1])
  }

  /** A creation that does not collide with what is stored, as the random ids ensure. */
  ghost predicate FreshCreate(st: Store, op: Op) {
    op.CreateOp? ==>
      op.token !in st.sessions && op.scene !in st.scenes && !AuthCodeInUse(st, op.code)
  }

  ghost predicate FreshCreates(ops: seq<Op>) {
    forall i :: 0 <= i < |ops| ==> FreshCreate(Run(ops[..i]), ops[i])
  }

  lemma StepPreservesWellFormed(st: Store, op: Op)
    requires WellFormed(st) && FreshCreate(st, op)
    ensures WellFormed(Step(st, op))
  {
    match op
    case CreateOp(token, scene, code, now) =>
      SessionProperties.CreatePreservesWellFormed(st, token, scene, code, now);
    case GetOp(token, now) =>
      SessionProperties.GetPreservesWellFormed(st, token, now);
    case GetBySceneOp(scene, now) =>
      SessionProperties.GetByScenePreservesWellFormed(st, scene, now);
    case UpdateOp(scene, weChatId, userInfo) =>
      SessionProperties.UpdatePreservesWellFormed(st, scene, weChatId, userInfo);
    case SweepOp(now) =>
      SessionProperties.SweepPreservesWellFormed(st, now);
  }

  /** The two-index invariant and unique auth codes hold after every operation. */
  lemma {:induction false} RunWellFormed(ops: seq<Op>)
    requires FreshCreates(ops)
    ensures WellFormed(Run(ops))
    decreases |ops|
  {
    if ops != [] {
      var n := |ops| - 1;
      var pre := ops[..n];
      assert FreshCreates(pre) by {
        forall i | 0 <= i < |pre| ensures FreshCreate(Run(pre[..i]), pre[i]) {
          assert pre[..i] == ops[..i];
        }
      }
      RunWellFormed(pre);
      assert FreshCreate(Run(ops[..n]), ops[n]);
      StepPreservesWellFormed(Run(pre), ops[n]);
    }
  }

  /**
   * Operation `ops[i]` is a scan update that hit the record stored under
   * `token`, whose auth code was `s.authCode`, and wrote `s`'s WeChat id and
   * user info.
   */
  ghost predicate SetBy(ops: seq<Op>, i: int, token: string, s: LoginSession) {
    && 0 <= i < |ops|
    && ops[i].UpdateOp?
    && var pre := Run(ops[..i]);
    && ops[i].scene in pre.scenes && pre.scenes[ops[i].scene] == token
    && token in pre.sessions
    && pre.sessions[token].authCode == s.authCode
    && ops[i].weChatId == s.weChatId
    && ops[i].userInfo == s.userInfo
  }

  /** What one step can do to the record under `token`. */
  lemma StepRecord(st: Store, op: Op, token: string)
    requires token in Step(st, op).sessions
    ensures var s := Step(st, op).sessions[token];
      || (token in st.sessions && s == st.sessions[token])
      || s.status == Pending
      || (&& op.UpdateOp? && op.scene in st.scenes && st.scenes[op.scene] == token
          && token in st.sessions
          && s == st.sessions[token].(weChatId := op.weChatId, userInfo := op.userInfo, status := Success))
  {
  }

  /**
   * With fresh ids, one step keeps a stored record as it was or applies a
   * scan update to it, and a record that was not stored before is the new
   * pending record of a creation under that token.
   */
  lemma StepRecordFresh(st: Store, op: Op, token: string)
    requires FreshCreate(st, op) && token in Step(st, op).sessions
    ensures var s := Step(st, op).sessions[token];
      && (token in st.sessions ==>
            || s == st.sessions[token]
            || (&& op.UpdateOp? && op.scene in st.scenes && st.scenes[op.scene] == token
                && s == st.sessions[token].(weChatId := op.weChatId, userInfo := op.userInfo, status := Success)))
      && (token !in st.sessions ==>
            op.CreateOp? && op.token == token && s == NewSession(op.token, op.scene, op.code, op.now))
  {
  }

  /** Status only moves forward: a successful record that is still stored after a step is still successful. */
  lemma StatusMonotone(st: Store, op: Op, token: string)
    requires FreshCreate(st, op)
    requires token in st.sessions && st.sessions[token].status == Success
    requires token in Step(st, op).sessions
    ensures Step(st, op).sessions[token].status == Success
  {
    StepRecordFresh(st, op, token);
  }

  /**
   * No stored record is ever marked expired, and a successful record got
   * its WeChat id and user info from an earlier scan update on that same
   * record (same token, same auth code).
   */
  lemma {:induction false} SuccessComesFromUpdate(ops: seq<Op>, token: string)
    requires token in Run(ops).sessions
    ensures Run(ops).sessions[token].status != Expired
    ensures Run(ops).sessions[token].status == Success ==>
      exists i :: SetBy(ops, i, token, Run(ops).sessions[token])
    decreases |ops|
  {
    var n := |ops| - 1;
    var pre := ops[..n];
    var st := Run(pre);
    var s := Run(ops).sessions[token];
    assert Run(ops) == Step(st, ops[n]);
    StepRecord(st, ops[n], token);
    if token in st.sessions && s == st.sessions[token] {
      SuccessComesFromUpdate(pre, token);
      if s.status == Success {
        var i :| SetBy(pre, i, token, s);
        assert pre[..i] == ops[..i];
        assert SetBy(ops, i, token, s);
      }
    } else if s.status != Pending {
      assert SetBy(ops, n, token, s);
    }
  }
}
