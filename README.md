# wechat-server login sessions, in Dafny

This project models the QR-code login flow of wechat-server, a Go service.

- A browser asks for a login session. The server files it in an in-memory store under two keys: a login token and a WeChat scene id.
- The user scans the QR code for the scene. WeChat posts a `subscribe` or `SCAN` event to the webhook, and the webhook marks the session successful.
- The browser polls the store by login token. Once the session is successful, the poll discloses the auth code.
- A third party exchanges a 32-byte auth code for the user's WeChat id.

Sessions expire ten minutes after creation. Getters evict expired sessions lazily, and a periodic sweep removes the rest.

## Modules

- `SessionStore` (session_store.dfy) holds the store as a value.
  - `Store` contains the two maps: token to record, and scene id to token.
  - Each operation is one pure function: `Create`, `Get`, `GetByScene`, `Update`, `Sweep`, and `Redeemers` for the lookup by auth code.
  - The ghost predicate `WellFormed` is the two-index invariant plus unique auth codes.
- `SessionManager` (session_manager.dfy) holds the class `LoginSessionManager`.
  - Its two `map` fields are changed in place by methods named after the Go ones.
  - Every method named after a Go one keeps `Valid()`, and each one that changes the maps leaves `State()` equal to the matching `SessionStore` function of the old state.
  - `SweepVisit`, the body of the sweep loop, keeps the loop's invariant `SweepInProgress` instead of `Valid()`.
  - The sweep and the lookup by auth code are loops over the map's keys in an unspecified order, like Go's `range` over a map.
- `SessionProperties` (session_properties.dfy) holds the lemmas about the store functions: invariant preservation, expiry, idempotence, counts and redemption.
- `SessionTraces` (session_traces.dfy) covers runs of store operations from the empty store.
  - `WellFormed` holds after every run.
  - A successful record got its WeChat id from an earlier scan update on that same record.
- `Ids` (ids.dfy) defines the id formats. It covers lowercase hex of the random bytes, Go's `%d`, the scene id layout, and the UTF-8 byte length that Go's `len` measures.
- `WeChatMessage` (wechat_message.dfy) covers the webhook's dispatch, the scene extraction and the scan handler.
- `WeChatStatus` (wechat_status.dfy) covers the login-status poll.
- `WeChatController` (wechat_controller.dfy) covers the auth-code redemption gate and the framing of the webhook reply.
- `LoginFlow` (login_flow.dfy) holds the end-to-end lemmas:
  - a code is disclosed or redeemed only after a scan update hit its session;
  - the scan handler's effect on the store is a run of store operations.

Inputs that Go reads from the environment are parameters here:
- the random bytes behind the token, scene id and auth code;
- the clock, as an integer count of nanoseconds `now`.

`CreateSession` requires that the ids it builds do not collide with stored ones. That precondition stands in for `crypto/rand`.

`UpdateSessionByScene` does not check expiry, so `Update` succeeds on an expired, not yet evicted record.

## Model

| member | source | states |
|---|---|---|
| Ids.HexEncode | common/login-session-manager.go:53-57 | hex encoding gives two lowercase hex characters per byte |
| Ids.HexRoundTrip | common/login-session-manager.go:53-57 | decoding the hex encoding gives back the bytes |
| Ids.HexEncodeInjective | common/login-session-manager.go:53-57 | distinct byte strings have distinct hex encodings |
| Ids.GenerateToken | common/login-session-manager.go:53-57 | a login token or auth code is 32 lowercase hex characters |
| Ids.GenerateTokenInjective | common/login-session-manager.go:53-57 | distinct random bytes give distinct tokens |
| Ids.NatDigits | common/login-session-manager.go:64 | the decimal form of a natural is a non-empty digit string |
| Ids.NatDigitsRoundTrip | common/login-session-manager.go:64 | reading the decimal digits back gives the number |
| Ids.FormatInt | common/login-session-manager.go:64 | `%d` of an integer is digits, with a leading '-' exactly when the integer is negative |
| Ids.FormatIntInjective | common/login-session-manager.go:64 | distinct integers format differently |
| Ids.FormatIntValue | common/login-session-manager.go:64 | the digits of `%d` after the sign read back as the magnitude of the number |
| Ids.GenerateSceneId | common/login-session-manager.go:59-65 | a scene id is "login_", then the decimal Unix second (digits, with a leading '-' exactly when it is negative), then '_', then 16 lowercase hex characters; the middle is exactly `%d` of `now / 1e9` and the tail is exactly the hex of the random bytes |
| Ids.SceneIdParts | common/login-session-manager.go:64 | the timestamp digits and the random hex sit at fixed places in a scene id |
| Ids.SceneIdInjective | common/login-session-manager.go:59-65 | equal scene ids come from the same Unix second and the same random bytes |
| Ids.Utf8Length | controller/wechat.go:90 | the byte length is at least the character count, and equal to it exactly for ASCII text |
| SessionStore.NewSession | common/login-session-manager.go:75-82 | the new record is pending with no WeChat id or user info, redeems no code, and is live exactly up to 10 minutes after `now` |
| SessionStore.Create | common/login-session-manager.go:67-89 | creation adds exactly the new token and scene entries and leaves every other entry unchanged |
| SessionStore.Evict | common/login-session-manager.go:100-103 | eviction removes the token and the record's scene id and nothing else |
| SessionStore.Get | common/login-session-manager.go:91-107 | a record is returned exactly when it is stored and not strictly past its expiry; an unknown token changes nothing; an expired record is evicted from both maps |
| SessionStore.GetByScene | common/login-session-manager.go:109-128 | an unknown scene changes nothing; a dangling scene loses only its scene entry; an expired record loses both entries; otherwise the record is returned and nothing changes |
| SessionStore.Update | common/login-session-manager.go:130-150 | the update succeeds exactly when the scene and its token resolve; failure changes nothing; success sets WeChat id, user info and success status on that one record only, whatever its expiry |
| SessionStore.Sweep | common/login-session-manager.go:152-168 | the sweep keeps exactly the unexpired records, unchanged, and the scene entries of the records it did not remove |
| SessionProperties.CreatePreservesWellFormed | common/login-session-manager.go:84-85 | creation with fresh ids keeps the two indices consistent and auth codes unique |
| SessionProperties.CreateKeepsIntegrity | common/login-session-manager.go:84-85 | inserting a record under a fresh token and a fresh scene keeps the two indices consistent |
| SessionProperties.CreateKeepsUniqueAuthCodes | common/login-session-manager.go:73-85 | a new record with an unused auth code keeps auth codes unique |
| SessionProperties.CreateThenLookup | common/login-session-manager.go:67-128 | a just-created session is found by its token and by its scene |
| SessionProperties.EvictPreservesWellFormed | common/login-session-manager.go:100-103 | eviction keeps the invariant |
| SessionProperties.GetPreservesWellFormed | common/login-session-manager.go:91-107 | the token getter keeps the invariant |
| SessionProperties.GetBySceneIsGet | common/login-session-manager.go:109-128 | on a consistent store, the scene getter behaves as the token getter on the scene's token |
| SessionProperties.GetBySceneUnknown | common/login-session-manager.go:113-116 | an unknown scene returns nil and changes nothing |
| SessionProperties.GetByScenePreservesWellFormed | common/login-session-manager.go:118-125 | the scene getter keeps the invariant |
| SessionProperties.UpdatePreservesWellFormed | common/login-session-manager.go:130-150 | the scan update keeps the invariant |
| SessionProperties.UpdateIdempotent | common/login-session-manager.go:130-150 | repeating the same update changes nothing further and gives the same answer |
| SessionProperties.UpdateUnknownScene | common/login-session-manager.go:134-137 | an update on an unknown scene fails and leaves the store as it was |
| SessionProperties.SweepPreservesWellFormed | common/login-session-manager.go:157-163 | the sweep keeps the invariant |
| SessionProperties.SweepStep | common/login-session-manager.go:157-163 | one iteration of the sweep loop keeps the loop's invariant |
| SessionProperties.SweepByToken | common/login-session-manager.go:157-163 | the per-token effect of the loop is the whole sweep |
| SessionProperties.SweepCount | common/login-session-manager.go:152-174 | after a sweep the active count is the number of unexpired records, and it plus the expired ones is the count before |
| SessionProperties.SweepThenGet | common/login-session-manager.go:91-107 | a getter answers the same before and after a sweep at the same instant |
| SessionProperties.RedeemersAtMostOne | common/login-session-manager.go:188-199 | with unique auth codes, at most one WeChat id answers a code |
| SessionProperties.UnscannedCodeRedeemsNothing | common/login-session-manager.go:188-199 | the code of a record that is not successful redeems nothing |
| SessionProperties.ExpiredCodeRedeemableUntilSwept | common/login-session-manager.go:188-199 | an expired successful record still redeems its code until a sweep removes it |
| SessionProperties.LoginScenario | common/login-session-manager.go:67-150 | a created session is pending after 5 minutes, successful after a scan, and gone 11 minutes after creation |
| SessionManager.LoginSessionManager.constructor | common/login-session-manager.go:43-47 | the store starts empty and valid |
| SessionManager.LoginSessionManager.CreateSession | common/login-session-manager.go:67-89 | the record carries the generated ids, is the new pending record, and the maps become `Create` of the old ones |
| SessionManager.LoginSessionManager.GetSession | common/login-session-manager.go:91-107 | the result and new maps are those of `Get` |
| SessionManager.LoginSessionManager.GetSessionByScene | common/login-session-manager.go:109-128 | the result and new maps are those of `GetByScene` |
| SessionManager.LoginSessionManager.UpdateSessionByScene | common/login-session-manager.go:130-150 | the result and new maps are those of `Update` |
| SessionManager.LoginSessionManager.SweepExpired | common/login-session-manager.go:152-168 | the loop over all records leaves the maps as `Sweep` says, whatever the visiting order |
| SessionManager.LoginSessionManager.SweepVisit | common/login-session-manager.go:157-163 | visiting one record deletes it and its scene entry exactly when it has expired, and keeps the sweep's loop invariant |
| SessionManager.LoginSessionManager.GetActiveSessionCount | common/login-session-manager.go:170-174 | the count is the number of stored records |
| SessionManager.LoginSessionManager.FindWeChatIdByAuthCode | common/login-session-manager.go:188-199 | the answer is "" when no successful record carries the code; otherwise it is the WeChat id of one that does |
| SessionTraces.StepPreservesWellFormed | common/login-session-manager.go:37-38 | every operation with fresh ids keeps the invariant |
| SessionTraces.RunWellFormed | common/login-session-manager.go:37-47 | the invariant holds after every run from the empty store |
| SessionTraces.StepRecord | common/login-session-manager.go:67-168 | one operation leaves a record unchanged, makes it pending, or marks it successful through a scan update |
| SessionTraces.StepRecordFresh | common/login-session-manager.go:67-168 | with fresh ids, a stored record stays as it was or receives a scan update, and a newly stored record is the pending record of a creation under that token |
| SessionTraces.StatusMonotone | common/login-session-manager.go:144-146 | status only moves forward: a successful record still stored after any step with fresh ids is still successful |
| SessionTraces.SuccessComesFromUpdate | common/login-session-manager.go:144-146 | no stored record is ever marked expired, and a successful record got its WeChat id and user info from an earlier scan update on that record |
| WeChatMessage.RouteOf | common/wechat-message.go:39-55 | subscribe and SCAN events go to scan handling, the keyword text to the verification code, other text to the prompt, everything else to the welcome |
| WeChatMessage.SceneOf | common/wechat-message.go:62-76 | subscribe with the "qrscene_" prefix yields the key without it, SCAN yields the key verbatim, and other subscribes yield no scene |
| WeChatMessage.SubscribeSceneRoundTrip | common/wechat-message.go:62-64 | the key of a subscribe for scene `s` yields `s` |
| WeChatMessage.HandleScan | common/wechat-message.go:59-102 | scan handling never adds an entry, leaves the store alone without a scene, and never ends on the login-failed text |
| WeChatMessage.ScanWithoutSession | common/wechat-message.go:79-86 | when no session is found nothing is updated; subscribe reports the expired QR code and SCAN keeps the success text |
| WeChatMessage.ScanLogsIn | common/wechat-message.go:88-101 | a found session alone becomes successful with the sender as WeChat id and open id, and the greeting is kept |
| WeChatMessage.ReplyNonEmptyUnlessCode | common/wechat-message.go:39-55 | every route but the verification code gives a non-empty reply |
| WeChatMessage.HandleQRCodeScanEvent | common/wechat-message.go:59-102 | the method's new store and reply text are those of `HandleScan`, and only the reply text changes |
| WeChatMessage.ProcessWeChatMessage | common/wechat-message.go:34-56 | scan events act as `HandleScan`; other routes leave the store alone and set the route's text |
| WeChatStatus.StatusName | common/login-session-manager.go:15-19 | each status has a non-empty name |
| WeChatStatus.StatusNameInjective | common/login-session-manager.go:15-19 | distinct statuses have distinct names |
| WeChatStatus.StatusReply | controller/wechat-status.go:31-50 | nil gives the invalid-or-expired failure; otherwise success with the status echoed; user and auth code are disclosed exactly when the status is success and user info is present |
| WeChatStatus.GetLoginStatus | controller/wechat-status.go:22-53 | an empty token gets a 400 reply without touching the store; otherwise the reply and the store are those of `Get` |
| WeChatStatus.PendingNeverDisclosed | controller/wechat-status.go:45-48 | a pending session's poll discloses neither auth code nor user |
| WeChatController.AuthCodeGuard | controller/wechat.go:82-96 | a code passes exactly when its byte length is 32; an empty code gets the invalid-parameter failure, and any other rejected code gets the format failure |
| WeChatController.IssuedCodePassesGuard | controller/wechat.go:90 | every auth code the store issues passes the length check |
| WeChatController.GetUserIdByAuthCode | controller/wechat.go:81-113 | a rejected code gets the guard's reply; any failure after the guards is the invalid-or-expired reply, which is what an unredeemable code gets; success carries a non-empty WeChat id of a successful record with that code |
| WeChatController.ReplyTemplate | controller/wechat.go:48-54 | the reply goes back to the sender, from the receiver, as an empty text message |
| WeChatController.ProcessWeChatMessage | controller/wechat.go:40-61 | an XML reply is the template with non-empty content; the body is empty exactly when the route is the verification code and the code is empty; other routes besides scans reply with the route's text; scan events act as `HandleScan` |
| LoginFlow.RedemptionRequiresUpdate | common/login-session-manager.go:188-199 | every WeChat id a code redeems was written by a scan update that hit that code's session |
| LoginFlow.NoUpdateNoRedemption | common/login-session-manager.go:188-199 | without scan updates no code redeems anything |
| LoginFlow.DisclosureRequiresUpdate | controller/wechat-status.go:45-48 | a poll that discloses a user answers for a session a scan update hit, with the user info that update wrote |
| LoginFlow.ScanOps | common/wechat-message.go:78-94 | a scan performs at most a scene lookup and an update that writes the sender's id, and never a creation or a sweep |
| LoginFlow.RunAppendOne | common/login-session-manager.go:37-38 | running one more operation applies it to the store the run left |
| LoginFlow.ScanExtendsTrace | common/wechat-message.go:59-102 | the scan handler's store is the store after appending its operations to the run |

## Left out

- Concurrency is not modelled: no `sync.RWMutex`, no `init` goroutine, no `time.Ticker`. Calls are sequential and the sweep is a method taking `now`.
- The race in the source is not captured. `GetSession` and `GetSessionByScene` delete map entries while holding only the read lock, so two concurrent readers can race. A sequential model cannot express this.
- The scan handler's "login failed" branch is dead in the sequential model. `HandleScan` proves this: the update follows a successful lookup. Only a concurrent deletion between the lookup and the update reaches that branch.
- The random bytes and the clock are parameters. `crypto/rand` failures are not modelled.
- The source reads the clock separately at each use. The model takes one `now` per operation in place of each of these readings:
  - `CreatedAt` and `ExpiredAt` (common/login-session-manager.go:80-81);
  - the scene id's timestamp (common/login-session-manager.go:60);
  - the getters' expiry checks (common/login-session-manager.go:100, :119);
  - the webhook reply's `CreateTime` (controller/wechat.go:51).
- The sweep's assignment of `expired` status (common/login-session-manager.go:159) is not modelled. The sweep deletes the record in the same step, so in this sequential, alias-free model that status is never observable. `SuccessComesFromUpdate` proves that no stored record has it.
- In the source the status can be observed. The sweep writes `expired` through the shared `*LoginSession` pointer. `GetLoginStatus` reads `session.Status` after `GetSession` has released its lock (controller/wechat-status.go:44). A poll that races a sweep tick can therefore report `expired`. The model does not capture this.
- The code declares no `scanned` status, so the model has none.
- Records are values. Aliasing through the `*LoginSession` pointers that getters return is not modelled: a caller mutating the returned record would change the store.
- Go strings are byte strings, and Dafny strings are sequences of characters. A query `auth_code` that is not valid UTF-8 is counted by Go's `len` (controller/wechat.go:90) but cannot be written as a Dafny string, so `Utf8Length` covers valid UTF-8 only.
- Logging (`SysLog`, `SysError`) is left out. It has no effect on state.
- XML decoding, the gin context and HTTP status writing are left out. Replies are datatypes.
- A malformed XML body aborts the request. That path is left out with the XML decoding.
- `WeChatVerification` is left out. It is a SHA-1 signature check done by a foreign library.
- `GetUserIDByCode` and `GetAccessToken` are left out. They call functions that are not part of this model.
- The verification-code path is reduced to its dispatch. `handleVerificationCode` calls generator and registration functions that are not part of this model. The generated code is a parameter, and the registration is not modelled.
- The gin wrapper `FindWeChatIDByAuthCode(c *gin.Context)` is not modelled. Its signature does not match its caller. The controller is modelled calling the string lookup `findWeChatIDByAuthCode` instead.
- The `GetSessionManager` accessor is not modelled. The manager is passed explicitly.
- `controller/wechat-qrcode.go` is left out. It is I/O against WeChat's QR endpoint. Its only store call is `CreateSession`.
