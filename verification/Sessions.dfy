/** Sessions: users with a token version, device rows, refresh tokens, and the access
    tokens (signed claims) minted so far. Which requests are accepted, and what evicts.
    A refresh is two steps: it checks the token row, and only later reads the device and the
    user and signs. So is an eviction: it loads the user row, and commits the version it read plus
    one. Other requests may commit in between. */
module Sessions {
  import opened Common

  type UserId = nat
  type DeviceId = nat
  type TokenId = nat
  type ReqId = nat

  const ACCESS_LIFETIME := 15 * MINUTE
  const REFRESH_LIFETIME := 90 * DAY
  const PRUNE_AFTER := 30 * DAY

  datatype Refresh = Refresh(device: DeviceId, expires: int, revoked: bool)

  /** The claims of an access token: sub, did, tv, exp. */
  datatype Access = Access(user: UserId, device: DeviceId, tv: nat, exp: int)

  /** An evicting request that has loaded the user row: whose sessions, which device is spared,
      and the token version it read. */
  datatype Evicting = Evicting(user: UserId, keep: Option<DeviceId>, version: nat)

  /** A refresh past the token check: the device of the row it read, and when. */
  datatype Refreshing = Refreshing(device: DeviceId, at: int)

  datatype State = State(
    now: int,
    versions: map<UserId, nat>,      // users.token_version
    devices: map<DeviceId, UserId>,  // devices.user_id
    tokens: map<TokenId, Refresh>,   // auth_tokens
    issued: set<Access>,             // access tokens signed so far
    refreshing: map<ReqId, Refreshing>,
    evicting: map<ReqId, Evicting>,
    owners: map<DeviceId, UserId>,   // every device row there ever was
    everUsers: set<UserId>)

  datatype Event =
    | CreateUser(user: UserId)
    | Login(user: UserId, device: DeviceId, token: TokenId)  // password (and factor) verified
    | RenewRead(req: ReqId, token: TokenId)                  // POST /auth/refresh: the token row
    | RenewIssue(req: ReqId)                                 // ... device and user rows, answer
    | ChangeLoad(req: ReqId, as_: Access, passwordOk: bool)  // POST /users/me/password
    | ResetLoad(req: ReqId, user: UserId)                    // recovery, or a reset by an administrator
    | EvictCommit(req: ReqId)                                // either one's commit
    | EnrolFactor(as_: Access)                               // TOTP or passkey verified
    | RevokeDevice(as_: Access, device: DeviceId)
    | Logout(as_: Access)
    | DeleteUser(user: UserId)
    | PruneTokens                                            // the retention sweep
    | Tick(seconds: nat)

  // ---------- acceptance ----------

  /** get_current_identity on a token whose signature checks. */
  predicate Accepts(s: State, a: Access) {
    && a in s.issued
    && s.now < a.exp
    && a.user in s.versions
    && a.device in s.devices
    && s.devices[a.device] == a.user
    && a.tv == s.versions[a.user]
  }

  /** The refresh token row check. */
  predicate Usable(s: State, t: TokenId) { t in s.tokens && !s.tokens[t].revoked && s.now < s.tokens[t].expires }

  /** The device row and its user still exist. */
  predicate Standing(s: State, d: DeviceId) { d in s.devices && s.devices[d] in s.versions }

  predicate Renewable(s: State, t: TokenId) { Usable(s, t) && Standing(s, s.tokens[t].device) }

  // ---------- steps ----------

  function Mint(s: State, user: UserId, device: DeviceId): Access
    requires user in s.versions
  {
    Access(user, device, s.versions[user], s.now + ACCESS_LIFETIME)
  }

  /** revoke_sessions: every unrevoked refresh token of the user's devices, except one device's. */
  function Revoked(tokens: map<TokenId, Refresh>, devices: map<DeviceId, UserId>, user: UserId,
      keep: Option<DeviceId>): map<TokenId, Refresh> {
    map t | t in tokens ::
      if tokens[t].device in devices && devices[tokens[t].device] == user && keep != Some(tokens[t].device)
      then tokens[t].(revoked := true) else tokens[t]
  }

  /** The user's device ids, except the one kept. */
  function OtherDevices(devices: map<DeviceId, UserId>, user: UserId, keep: Option<DeviceId>): set<DeviceId> {
    set d | d in devices && devices[d] == user && keep != Some(d)
  }

  function OnEvictLoad(s: State, r: ReqId, user: UserId, keep: Option<DeviceId>): State {
    if user in s.versions then s.(evicting := s.evicting[r := Evicting(user, keep, s.versions[user])]) else s
  }

  function OnEvictCommit(s: State, r: ReqId): State {
    if r !in s.evicting then s
    else
      var e, s' := s.evicting[r], s.(evicting := s.evicting - {r});
      if e.user !in s.versions then s'
      else s'.(versions := s.versions[e.user := e.version + 1],
               tokens := Revoked(s.tokens, s.devices, e.user, e.keep))
  }

  function OnLogin(s: State, user: UserId, device: DeviceId, token: TokenId): State {
    if user !in s.versions then s
    else s.(devices := s.devices[device := user], owners := s.owners[device := user],
            tokens := s.tokens[token := Refresh(device, s.now + REFRESH_LIFETIME, false)],
            issued := s.issued + {Mint(s, user, device)})
  }

  function OnRenewRead(s: State, r: ReqId, t: TokenId): State {
    if Usable(s, t) then s.(refreshing := s.refreshing[r := Refreshing(s.tokens[t].device, s.now)]) else s
  }

  function OnRenewIssue(s: State, r: ReqId): State {
    if r !in s.refreshing then s
    else
      var d, s' := s.refreshing[r].device, s.(refreshing := s.refreshing - {r});
      if Standing(s, d) then s'.(issued := s.issued + {Mint(s, s.devices[d], d)}) else s'
  }

  function WithoutDevices(s: State, gone: set<DeviceId>): State {
    s.(devices := map d | d in s.devices && d !in gone :: s.devices[d],
       tokens := map t | t in s.tokens && s.tokens[t].device !in gone :: s.tokens[t])
  }

  function OnLogout(s: State, d: DeviceId): State {
    s.(tokens := map t | t in s.tokens ::
         if s.tokens[t].device == d then s.tokens[t].(revoked := true) else s.tokens[t])
  }

  function OnDeleteUser(s: State, user: UserId): State {
    WithoutDevices(s, set d | d in s.devices && s.devices[d] == user).(versions := s.versions - {user})
  }

  function OnPrune(s: State): State {
    s.(tokens := map t | t in s.tokens && !s.tokens[t].revoked &&
        s.tokens[t].expires >= s.now - PRUNE_AFTER :: s.tokens[t])
  }

  function Step(s: State, e: Event): State {
    match e
    case CreateUser(u) => s.(versions := s.versions[u := 0], everUsers := s.everUsers + {u})
    case Login(u, d, t) => OnLogin(s, u, d, t)
    case RenewRead(r, t) => OnRenewRead(s, r, t)
    case RenewIssue(r) => OnRenewIssue(s, r)
    case ChangeLoad(r, a, ok) => if Accepts(s, a) && ok then OnEvictLoad(s, r, a.user, Some(a.device)) else s
    case ResetLoad(r, u) => OnEvictLoad(s, r, u, None)
    case EvictCommit(r) => OnEvictCommit(s, r)
    case EnrolFactor(a) =>
      if Accepts(s, a) then s.(tokens := Revoked(s.tokens, s.devices, a.user, Some(a.device))) else s
    case RevokeDevice(a, d) =>
      if Accepts(s, a) && d in s.devices && s.devices[d] == a.user then WithoutDevices(s, {d}) else s
    case Logout(a) => if Accepts(s, a) then OnLogout(s, a.device) else s
    case DeleteUser(u) => if u in s.versions then OnDeleteUser(s, u) else s
    case PruneTokens => OnPrune(s)
    case Tick(n) => s.(now := s.now + n)
  }

  /** Row ids are fresh (uuid4), and so is each generated refresh token. */
  predicate Possible(s: State, e: Event) {
    && (e.CreateUser? ==> e.user !in s.everUsers)
    && (e.Login? ==> e.device !in s.owners && e.token !in s.tokens)
    && (e.RenewRead? ==> e.req !in s.refreshing)
    && (e.ChangeLoad? || e.ResetLoad? ==> e.req !in s.evicting)
  }

  function Run(s: State, es: seq<Event>): State
    decreases |es|
  {
    if es == [] then s else Run(Step(s, es[0]), es[1..])
  }

  predicate PossibleRun(s: State, es: seq<Event>)
    decreases |es|
  {
    es == [] || (Possible(s, es[0]) && PossibleRun(Step(s, es[0]), es[1..]))
  }

  function Start(now: int): State { State(now, map[], map[], map[], {}, map[], map[], map[], {}) }

  // ---------- the handlers as they are written ----------

  class Server {
    var now: int
    var versions: map<UserId, nat>
    var devices: map<DeviceId, UserId>
    var tokens: map<TokenId, Refresh>
    var refreshing: map<ReqId, Refreshing>
    var evicting: map<ReqId, Evicting>
    ghost var issued: set<Access>
    ghost var owners: map<DeviceId, UserId>
    ghost var everUsers: set<UserId>

    ghost function View(): State reads this {
      State(now, versions, devices, tokens, issued, refreshing, evicting, owners, everUsers)
    }

    constructor (now: int)
      ensures View() == Start(now)
    {
      this.now, versions, devices, tokens, refreshing, evicting := now, map[], map[], map[], map[], map[];
      issued, owners, everUsers := {}, map[], {};
    }

    method CreateAccessToken(user: UserId, device: DeviceId, tv: nat) returns (a: Access)
      modifies `issued
      ensures a == Access(user, device, tv, now + ACCESS_LIFETIME)
      ensures issued == old(issued) + {a}
    {
      a := Access(user, device, tv, now + ACCESS_LIFETIME);
      issued := issued + {a};
    }

    /** The bearer check; the caller presents claims whose signature has been verified. */
    method CurrentIdentity(a: Access) returns (ok: bool)
      requires a in issued
      ensures ok <==> Accepts(View(), a)
      ensures ok <==>
              && now < a.exp
              && a.device in devices && devices[a.device] == a.user
              && a.user in versions && versions[a.user] == a.tv
    {
      ok := false;
      if now >= a.exp {
        return;
      }
      if a.user !in versions || a.device !in devices {
        return;
      }
      if devices[a.device] != a.user || a.tv != versions[a.user] {
        return;
      }
      ok := true;
    }

    /** A fresh device row, its refresh token, and the first access token. */
    method LoginDevice(user: UserId, device: DeviceId, token: TokenId) returns (a: Access)
      requires user in versions
      modifies this
      ensures View() == OnLogin(old(View()), user, device, token)
      ensures a == Mint(old(View()), user, device)
    {
      devices := devices[device := user];
      owners := owners[device := user];
      tokens := tokens[token := Refresh(device, now + REFRESH_LIFETIME, false)];
      a := CreateAccessToken(user, device, versions[user]);
    }

    /** The first half of refresh; the request's local variables are kept in `refreshing`. */
    method CheckRefresh(req: ReqId, token: TokenId) returns (ok: bool)
      modifies `refreshing
      ensures View() == OnRenewRead(old(View()), req, token)
      ensures ok <==> token in tokens && !tokens[token].revoked && now < tokens[token].expires
      ensures refreshing == if ok then old(refreshing)[req := Refreshing(tokens[token].device, now)]
                            else old(refreshing)
    {
      ok := false;
      if token !in tokens {
        return;
      }
      var record := tokens[token];
      if record.revoked || record.expires <= now {
        return;
      }
      refreshing := refreshing[req := Refreshing(record.device, now)];
      ok := true;
    }

    /** The second half: device row, user row, signature. */
    method IssueRefresh(req: ReqId) returns (r: Option<Access>)
      requires req in refreshing
      modifies this
      ensures View() == OnRenewIssue(old(View()), req)
      ensures r.Some? <==> old(refreshing[req].device in devices && devices[refreshing[req].device] in versions)
      ensures r.Some? ==> r.value in issued && Accepts(View(), r.value) && r.value.device == old(refreshing[req].device)
    {
      r := None;
      var device := refreshing[req].device;
      refreshing := refreshing - {req};
      if device !in devices {
        return;
      }
      var user := devices[device];
      if user !in versions {
        return;
      }
      var a := CreateAccessToken(user, device, versions[user]);
      r := Some(a);
    }

    /** Returns the device ids whose live sockets every worker is told to close. */
    method RevokeSessions(user: UserId, keep: Option<DeviceId>) returns (affected: set<DeviceId>)
      modifies `tokens
      ensures tokens == Revoked(old(tokens), devices, user, keep)
      ensures affected == OtherDevices(devices, user, keep)
    {
      tokens := map t | t in tokens ::
        if !tokens[t].revoked && tokens[t].device in devices && devices[tokens[t].device] == user
           && (keep.None? || tokens[t].device != keep.value)
        then tokens[t].(revoked := true) else tokens[t];
      affected := set d | d in devices && devices[d] == user && (keep.None? || d != keep.value);
    }

    /** change_password up to its commit: identity, password, and the user row as loaded. */
    method LoadPasswordChange(req: ReqId, a: Access, passwordOk: bool) returns (done: bool)
      requires a in issued
      modifies `evicting
      ensures View() == Step(old(View()), ChangeLoad(req, a, passwordOk))
      ensures done <==> Accepts(View(), a) && passwordOk
    {
      done := CurrentIdentity(a);
      if !done {
        return;
      }
      if !passwordOk {
        done := false;
        return;
      }
      evicting := evicting[req := Evicting(a.user, Some(a.device), versions[a.user])];
    }

    /** finish_recovery and the password branch of the admin update, up to the commit. */
    method LoadReset(req: ReqId, user: UserId)
      modifies `evicting
      ensures View() == Step(old(View()), ResetLoad(req, user))
    {
      if user in versions {
        evicting := evicting[req := Evicting(user, None, versions[user])];
      }
    }

    /** The commit writes the version that was read plus one, whatever is stored by then. */
    method CommitEviction(req: ReqId) returns (affected: set<DeviceId>)
      requires req in evicting && evicting[req].user in versions
      modifies `versions, `tokens, `evicting
      ensures View() == OnEvictCommit(old(View()), req)
      ensures affected == OtherDevices(devices, old(evicting[req].user), old(evicting[req].keep))
    {
      var e := evicting[req];
      affected := RevokeSessions(e.user, e.keep);
      versions := versions[e.user := e.version + 1];
      evicting := evicting - {req};
    }

    method FactorEnabledHere(a: Access)
      requires a in issued
      modifies this
      ensures View() == Step(old(View()), EnrolFactor(a))
    {
      var ok := CurrentIdentity(a);
      if ok {
        var _ := RevokeSessions(a.user, Some(a.device));
      }
    }
  }

  // ---------- invariants ----------

  predicate UsersKnown(s: State) { s.versions.Keys <= s.everUsers }

  predicate DevicesOwned(s: State) { forall d :: d in s.devices ==> d in s.owners && s.owners[d] == s.devices[d] }

  predicate TokensOfDevices(s: State) { forall t :: t in s.tokens ==> s.tokens[t].device in s.devices }

  predicate RefreshingOwned(s: State) { forall r :: r in s.refreshing ==> s.refreshing[r].device in s.owners }

  predicate IssuedOwned(s: State) {
    forall a :: a in s.issued ==> a.device in s.owners && s.owners[a.device] == a.user && a.user in s.everUsers
  }

  predicate IssuedInTime(s: State) { forall a :: a in s.issued ==> a.exp <= s.now + ACCESS_LIFETIME }

  predicate Inv(s: State) {
    && UsersKnown(s) && DevicesOwned(s) && TokensOfDevices(s)
    && RefreshingOwned(s) && IssuedOwned(s) && IssuedInTime(s)
  }

  lemma RowsKept(s: State, e: Event)
    requires UsersKnown(s) && DevicesOwned(s) && Possible(s, e)
    ensures UsersKnown(Step(s, e)) && DevicesOwned(Step(s, e))
  {}

  lemma TokensKept(s: State, e: Event)
    requires TokensOfDevices(s)
    ensures TokensOfDevices(Step(s, e))
  {}

  lemma RefreshesKept(s: State, e: Event)
    requires TokensOfDevices(s) && DevicesOwned(s) && RefreshingOwned(s)
    ensures RefreshingOwned(Step(s, e))
  {}

  lemma IssuedKept(s: State, e: Event)
    requires UsersKnown(s) && DevicesOwned(s) && IssuedOwned(s) && Possible(s, e)
    ensures IssuedOwned(Step(s, e))
  {}

  lemma TimesKept(s: State, e: Event)
    requires IssuedInTime(s)
    ensures IssuedInTime(Step(s, e))
  {}

  lemma StepKeepsInv(s: State, e: Event)
    requires Inv(s) && Possible(s, e)
    ensures Inv(Step(s, e))
  {
    RowsKept(s, e);
    TokensKept(s, e);
    RefreshesKept(s, e);
    IssuedKept(s, e);
    TimesKept(s, e);
  }

  lemma {:induction false} RunKeepsInv(s: State, es: seq<Event>)
    requires Inv(s) && PossibleRun(s, es)
    ensures Inv(Run(s, es))
    decreases |es|
  {
    if es != [] {
      StepKeepsInv(s, es[0]);
      RunKeepsInv(Step(s, es[0]), es[1..]);
    }
  }

  // ---------- devices that are out ----------

  /** A refresh of the device is between its token check and its answer. */
  predicate RefreshUnderWay(s: State, d: DeviceId) { exists r :: r in s.refreshing && s.refreshing[r].device == d }

  /** The device's refresh tokens are all revoked. */
  predicate NoTokens(s: State, d: DeviceId) {
    forall t :: t in s.tokens && s.tokens[t].device == d ==> s.tokens[t].revoked
  }

  /** Every eviction of this user under way has read version v or a later one. */
  predicate ReadFrom(s: State, u: UserId, v: nat) {
    forall r :: r in s.evicting && s.evicting[r].user == u ==> v <= s.evicting[r].version
  }

  /** An access token that can never be accepted again: expired, or its user gone, or its version
      behind the stored one and behind what any eviction under way will store. */
  predicate Spent(s: State, a: Access) {
    || a.exp <= s.now
    || a.user !in s.versions
    || (a.tv < s.versions[a.user] && ReadFrom(s, a.user, a.tv))
  }

  lemma SpentStays(s: State, e: Event, a: Access)
    requires Spent(s, a) && a.user in s.everUsers && Possible(s, e)
    ensures Spent(Step(s, e), a)
  {}

  predicate AllSpent(s: State, d: DeviceId) { forall a :: a in s.issued && a.device == d ==> Spent(s, a) }

  /** The device row is gone, or nothing that exists can speak for it or bring it back. */
  predicate Dead(s: State, d: DeviceId) {
    && d in s.owners
    && (d in s.devices ==> NoTokens(s, d) && !RefreshUnderWay(s, d) && AllSpent(s, d))
  }

  lemma RevokedStayRevoked(s: State, e: Event, d: DeviceId)
    requires d in s.owners && NoTokens(s, d) && Possible(s, e)
    ensures d in Step(s, e).owners && NoTokens(Step(s, e), d)
  {}

  lemma NothingStarts(s: State, e: Event, d: DeviceId)
    requires d in s.owners && NoTokens(s, d) && !RefreshUnderWay(s, d) && Possible(s, e)
    ensures var t := Step(s, e); d in t.owners && NoTokens(t, d) && !RefreshUnderWay(t, d)
  {
    RevokedStayRevoked(s, e, d);
    var t := Step(s, e);
    forall r | r in t.refreshing ensures t.refreshing[r].device != d {
      if e.RenewRead? && e.req == r && Usable(s, e.token) { assert !s.tokens[e.token].revoked; }
    }
  }

  lemma NothingIsIssued(s: State, e: Event, d: DeviceId)
    requires d in s.owners && !RefreshUnderWay(s, d) && Possible(s, e)
    ensures forall a :: a in Step(s, e).issued && a.device == d ==> a in s.issued
  {}

  lemma GoneStaysGone(s: State, e: Event, d: DeviceId)
    requires d in s.owners && d !in s.devices && Possible(s, e)
    ensures d in Step(s, e).owners && d !in Step(s, e).devices
  {}

  lemma StepKeepsDead(s: State, e: Event, d: DeviceId)
    requires Inv(s) && Possible(s, e) && Dead(s, d)
    ensures Dead(Step(s, e), d)
  {
    if d !in s.devices {
      GoneStaysGone(s, e, d);
    } else {
      NothingStarts(s, e, d);
      NothingIsIssued(s, e, d);
      forall a | a in Step(s, e).issued && a.device == d ensures Spent(Step(s, e), a) { SpentStays(s, e, a); }
    }
  }

  lemma {:induction false} DeadStaysOut(s: State, es: seq<Event>, d: DeviceId, a: Access)
    requires Inv(s) && PossibleRun(s, es) && Dead(s, d) && a.device == d
    ensures !Accepts(Run(s, es), a)
    decreases |es|
  {
    if es != [] {
      StepKeepsInv(s, es[0]);
      StepKeepsDead(s, es[0], d);
      DeadStaysOut(Step(s, es[0]), es[1..], d, a);
    }
  }

  /** No refresh token works any more, and no access token is good past `deadline`. */
  predicate Fading(s: State, d: DeviceId, deadline: int) {
    && d in s.owners
    && NoTokens(s, d)
    && forall a :: a in s.issued && a.device == d ==> a.exp <= deadline
  }

  /** Refreshes of the device that are under way answer early enough for the deadline. */
  predicate Prompt(s: State, e: Event, d: DeviceId, deadline: int) {
    e.RenewIssue? && e.req in s.refreshing && s.refreshing[e.req].device == d ==> s.now + ACCESS_LIFETIME <= deadline
  }

  predicate PromptRun(s: State, es: seq<Event>, d: DeviceId, deadline: int)
    decreases |es|
  {
    es == [] || (Prompt(s, es[0], d, deadline) && PromptRun(Step(s, es[0]), es[1..], d, deadline))
  }

  lemma StepKeepsFading(s: State, e: Event, d: DeviceId, deadline: int)
    requires Possible(s, e) && Prompt(s, e, d, deadline) && Fading(s, d, deadline)
    ensures Fading(Step(s, e), d, deadline)
  {}

  lemma {:induction false} FadingRunsOut(s: State, es: seq<Event>, d: DeviceId, deadline: int, a: Access)
    requires PossibleRun(s, es) && PromptRun(s, es, d, deadline) && Fading(s, d, deadline) && a.device == d
    ensures Accepts(Run(s, es), a) ==> Run(s, es).now < deadline
    decreases |es|
  {
    if es != [] {
      StepKeepsFading(s, es[0], d, deadline);
      FadingRunsOut(Step(s, es[0]), es[1..], d, deadline, a);
    }
  }

  /** Without a refresh under way the deadline is met by every run. */
  lemma {:induction false} NothingUnderWayIsPrompt(s: State, es: seq<Event>, d: DeviceId, deadline: int)
    requires PossibleRun(s, es) && d in s.owners && NoTokens(s, d) && !RefreshUnderWay(s, d)
    ensures PromptRun(s, es, d, deadline)
    decreases |es|
  {
    if es != [] {
      NothingStarts(s, es[0], d);
      assert Prompt(s, es[0], d, deadline);
      NothingUnderWayIsPrompt(Step(s, es[0]), es[1..], d, deadline);
    }
  }

  // ---------- exactly when a device is out for good ----------

  /** In no continuation is any request accepted as this device. */
  ghost predicate NeverAccepted(s: State, d: DeviceId) {
    forall after: seq<Event>, b: Access :: PossibleRun(s, after) && b.device == d ==> !Accepts(Run(s, after), b)
  }

  lemma OneMore(s: State, e: Event, es: seq<Event>)
    requires Possible(s, e) && PossibleRun(Step(s, e), es)
    ensures PossibleRun(s, [e] + es) && Run(s, [e] + es) == Run(Step(s, e), es)
  {
    assert ([e] + es)[1..] == es;
  }

  lemma {:induction false} Above(keys: set<ReqId>) returns (r: ReqId)
    ensures forall k :: k in keys ==> k < r
    decreases keys
  {
    r := 0;
    if keys != {} {
      var k :| k in keys;
      var q := Above(keys - {k});
      r := if q <= k then k + 1 else q;
      forall i | i in keys ensures i < r { assert i == k || i in keys - {k}; }
    }
  }

  /** Resets can bring the stored version up to that of any token ahead of it. */
  lemma {:induction false} VersionCatchesUp(s: State, a: Access) returns (es: seq<Event>)
    requires a in s.issued && s.now < a.exp && a.device in s.devices && s.devices[a.device] == a.user
    requires a.user in s.versions && s.versions[a.user] <= a.tv
    ensures PossibleRun(s, es) && Accepts(Run(s, es), a)
    decreases a.tv - s.versions[a.user]
  {
    es := [];
    if s.versions[a.user] < a.tv {
      var r := Above(s.evicting.Keys);
      var t := Step(s, ResetLoad(r, a.user));
      var u := Step(t, EvictCommit(r));
      assert u.versions[a.user] == s.versions[a.user] + 1;
      var rest := VersionCatchesUp(u, a);
      OneMore(t, EvictCommit(r), rest);
      OneMore(s, ResetLoad(r, a.user), [EvictCommit(r)] + rest);
      es := [ResetLoad(r, a.user)] + ([EvictCommit(r)] + rest);
    }
  }

  lemma UnspentReturns(s: State, a: Access) returns (es: seq<Event>)
    requires Inv(s) && a in s.issued && !Spent(s, a) && a.device in s.devices
    ensures PossibleRun(s, es) && Accepts(Run(s, es), a)
  {
    if s.versions[a.user] <= a.tv {
      es := VersionCatchesUp(s, a);
    } else {
      var r :| r in s.evicting && s.evicting[r].user == a.user && s.evicting[r].version < a.tv;
      var rest := VersionCatchesUp(Step(s, EvictCommit(r)), a);
      OneMore(s, EvictCommit(r), rest);
      es := [EvictCommit(r)] + rest;
    }
  }

  lemma RefreshReturns(s: State, r: ReqId, d: DeviceId)
    requires r in s.refreshing && s.refreshing[r].device == d && Standing(s, d)
    ensures !NeverAccepted(s, d)
  {
    var b := Mint(s, s.devices[d], d);
    OneMore(s, RenewIssue(r), []);
    assert Accepts(Run(s, [RenewIssue(r)] + []), b);
  }

  /** A device without refresh tokens is out for good exactly when none of its refreshes is under
      way and every access token of it is spent. */
  lemma OutForGoodIff(s: State, d: DeviceId)
    requires Inv(s) && Standing(s, d) && NoTokens(s, d)
    ensures NeverAccepted(s, d) <==> !RefreshUnderWay(s, d) && AllSpent(s, d)
  {
    if r :| r in s.refreshing && s.refreshing[r].device == d {
      RefreshReturns(s, r, d);
    } else if a :| a in s.issued && a.device == d && !Spent(s, a) {
      var es := UnspentReturns(s, a);
      assert PossibleRun(s, es) && a.device == d && Accepts(Run(s, es), a);
    } else {
      forall after: seq<Event>, b: Access | PossibleRun(s, after) && b.device == d ensures !Accepts(Run(s, after), b) {
        DeadStaysOut(s, after, d, b);
      }
    }
  }

  // ---------- evictions, over every run ----------

  /** The commit of request r evicts this device: of the user, and not the one spared. */
  predicate Evicts(s: State, r: ReqId, d: DeviceId) {
    && r in s.evicting && s.evicting[r].user in s.versions
    && d in s.devices && s.devices[d] == s.evicting[r].user && s.evicting[r].keep != Some(d)
  }

  /** No unexpired access token of the device is ahead of what some eviction of its user read. */
  predicate NoneAhead(s: State, u: UserId, d: DeviceId) {
    forall a :: a in s.issued && a.device == d && s.now < a.exp ==> ReadFrom(s, u, a.tv)
  }

  /** After a password change, recovery or reset commits, no request is ever accepted again as an
      evicted device row, over all later runs - exactly when, at the commit, none of its
      refreshes was between token check and answer, and none of its unexpired access tokens
      carried a version above one that an eviction still under way, this one included, had read. */
  lemma EvictionIsFinalIff(now: int, before: seq<Event>, r: ReqId, d: DeviceId)
    requires PossibleRun(Start(now), before) && Evicts(Run(Start(now), before), r, d)
    ensures var s := Run(Start(now), before);
            NeverAccepted(Step(s, EvictCommit(r)), d) <==>
            !RefreshUnderWay(s, d) && NoneAhead(s, s.evicting[r].user, d)
  {
    RunKeepsInv(Start(now), before);
    CommitIsFinalIff(Run(Start(now), before), r, d);
  }

  lemma CommitIsFinalIff(s: State, r: ReqId, d: DeviceId)
    requires Inv(s) && Evicts(s, r, d)
    ensures NeverAccepted(Step(s, EvictCommit(r)), d) <==>
            !RefreshUnderWay(s, d) && NoneAhead(s, s.evicting[r].user, d)
  {
    var t, u := Step(s, EvictCommit(r)), s.evicting[r].user;
    StepKeepsInv(s, EvictCommit(r));
    OutForGoodIff(t, d);
    forall a | a in s.issued && a.device == d && s.now < a.exp ensures Spent(t, a) <==> ReadFrom(s, u, a.tv) {
      assert a.user == u;
      if ReadFrom(s, u, a.tv) { assert a.tv <= s.evicting[r].version; }
      if Spent(t, a) {
        forall q | q in s.evicting && s.evicting[q].user == u ensures a.tv <= s.evicting[q].version {
          assert q != r ==> q in t.evicting && t.evicting[q] == s.evicting[q];
        }
      }
    }
  }

  /** And in any case an evicted device is accepted for less than the access lifetime, counted from
      the commit or from the last answer to a refresh that was under way then. */
  lemma EvictionIsBounded(now: int, before: seq<Event>, r: ReqId, d: DeviceId, after: seq<Event>, moment: int,
      b: Access)
    requires PossibleRun(Start(now), before) && Evicts(Run(Start(now), before), r, d) && b.device == d
    requires var s := Run(Start(now), before);
             && PossibleRun(Step(s, EvictCommit(r)), after) && moment >= s.now
             && PromptRun(Step(s, EvictCommit(r)), after, d, moment + ACCESS_LIFETIME)
    ensures var t := Run(Step(Run(Start(now), before), EvictCommit(r)), after);
            Accepts(t, b) ==> t.now < moment + ACCESS_LIFETIME
  {
    RunKeepsInv(Start(now), before);
    var s := Run(Start(now), before);
    StepKeepsInv(s, EvictCommit(r));
    FadingRunsOut(Step(s, EvictCommit(r)), after, d, moment + ACCESS_LIFETIME, b);
  }

  // ---------- evictions that do not overlap ----------

  /** A commit that finds the version it read, as it does when no other came in between. */
  predicate Untouched(s: State, e: Event) {
    e.EvictCommit? && e.req in s.evicting && s.evicting[e.req].user in s.versions ==>
      s.versions[s.evicting[e.req].user] == s.evicting[e.req].version
  }

  predicate UntouchedRun(s: State, es: seq<Event>)
    decreases |es|
  {
    es == [] || (Untouched(s, es[0]) && UntouchedRun(Step(s, es[0]), es[1..]))
  }

  /** Versions only grow, so no token is ahead of its user. */
  predicate VersionsLead(s: State) {
    forall a :: a in s.issued && a.user in s.versions ==> a.tv <= s.versions[a.user]
  }

  lemma StepKeepsLead(s: State, e: Event)
    requires Inv(s) && VersionsLead(s) && Possible(s, e) && Untouched(s, e)
    ensures VersionsLead(Step(s, e))
  {}

  lemma {:induction false} RunKeepsLead(s: State, es: seq<Event>)
    requires Inv(s) && VersionsLead(s) && PossibleRun(s, es) && UntouchedRun(s, es)
    ensures Inv(Run(s, es)) && VersionsLead(Run(s, es))
    decreases |es|
  {
    if es != [] {
      StepKeepsInv(s, es[0]);
      StepKeepsLead(s, es[0]);
      RunKeepsLead(Step(s, es[0]), es[1..]);
    }
  }

  /** Where evictions of a user do not overlap, only a refresh under way stands in the way: a
      password change from one device, loaded and committed, evicts every other device row for
      good exactly when none of its refreshes is under way. */
  lemma PasswordChangeEvictsOthers(now: int, before: seq<Event>, r: ReqId, a: Access, d: DeviceId)
    requires PossibleRun(Start(now), before) && UntouchedRun(Start(now), before)
    requires var s := Run(Start(now), before);
             && Accepts(s, a) && d in s.devices && s.devices[d] == a.user && d != a.device
             && (forall q :: q in s.evicting ==> s.evicting[q].user != a.user) && r !in s.evicting
    ensures var s := Run(Start(now), before);
            NeverAccepted(Step(Step(s, ChangeLoad(r, a, true)), EvictCommit(r)), d) <==> !RefreshUnderWay(s, d)
  {
    RunKeepsLead(Start(now), before);
    var s := Run(Start(now), before);
    WholeEviction(s, ChangeLoad(r, a, true), r, a.user, Some(a.device), d);
  }

  /** The same for recovery and an administrator's reset, for every device row of the user. */
  lemma ResetEvictsAll(now: int, before: seq<Event>, r: ReqId, user: UserId, d: DeviceId)
    requires PossibleRun(Start(now), before) && UntouchedRun(Start(now), before)
    requires var s := Run(Start(now), before);
             && user in s.versions && d in s.devices && s.devices[d] == user
             && (forall q :: q in s.evicting ==> s.evicting[q].user != user) && r !in s.evicting
    ensures var s := Run(Start(now), before);
            NeverAccepted(Step(Step(s, ResetLoad(r, user)), EvictCommit(r)), d) <==> !RefreshUnderWay(s, d)
  {
    RunKeepsLead(Start(now), before);
    var s := Run(Start(now), before);
    WholeEviction(s, ResetLoad(r, user), r, user, None, d);
  }

  lemma WholeEviction(s: State, load: Event, r: ReqId, user: UserId, keep: Option<DeviceId>, d: DeviceId)
    requires Inv(s) && VersionsLead(s) && Possible(s, load) && Step(s, load) == OnEvictLoad(s, r, user, keep)
    requires user in s.versions && d in s.devices && s.devices[d] == user && keep != Some(d)
    requires forall q :: q in s.evicting ==> s.evicting[q].user != user
    ensures NeverAccepted(Step(Step(s, load), EvictCommit(r)), d) <==> !RefreshUnderWay(s, d)
  {
    var t := Step(s, load);
    StepKeepsInv(s, load);
    CommitIsFinalIff(t, r, d);
    assert NoneAhead(t, user, d);
  }

  /** Overlap is real: a recovery that loaded the row before a password change committed stores the
      same version again, and the access token the first device renewed in between stays good. */
  lemma OverlappingEvictionsLeaveAToken(s: State, a: Access, t: TokenId, r: ReqId, q: ReqId, n: ReqId)
    requires Inv(s) && Accepts(s, a) && Renewable(s, t) && s.tokens[t].device == a.device && r != q
    ensures var s1 := Step(Step(s, ChangeLoad(r, a, true)), ResetLoad(q, a.user));
            var s2 := Step(s1, EvictCommit(r));
            var s3 := Step(Step(s2, RenewRead(n, t)), RenewIssue(n));
            Accepts(Step(s3, EvictCommit(q)), Mint(s2, a.user, a.device))
  {
    var s1 := Step(Step(s, ChangeLoad(r, a, true)), ResetLoad(q, a.user));
    var v := s.versions[a.user];
    assert s1.evicting[r] == Evicting(a.user, Some(a.device), v) && s1.evicting[q] == Evicting(a.user, None, v);
    var s2 := Step(s1, EvictCommit(r));
    assert s2.versions[a.user] == v + 1 && Renewable(s2, t) && s2.evicting[q] == Evicting(a.user, None, v);
    var s3 := Step(Step(s2, RenewRead(n, t)), RenewIssue(n));
    assert Mint(s2, a.user, a.device) in s3.issued && s3.evicting == s2.evicting;
  }

  // ---------- the other endings ----------

  /** After a factor enrolment the user's other devices are accepted for less than the 15-minute
      access lifetime, counted from the enrolment or from the last answer to a refresh that
      was under way then, whatever happens next. */
  lemma EnrolmentFadesOthers(now: int, before: seq<Event>, a: Access, after: seq<Event>, moment: int, b: Access)
    requires PossibleRun(Start(now), before)
    requires var s := Run(Start(now), before);
             && Accepts(s, a) && PossibleRun(Step(s, EnrolFactor(a)), after)
             && b.device in s.devices && s.devices[b.device] == a.user && b.device != a.device
             && moment >= s.now && PromptRun(Step(s, EnrolFactor(a)), after, b.device, moment + ACCESS_LIFETIME)
    ensures var t := Run(Step(Run(Start(now), before), EnrolFactor(a)), after);
            Accepts(t, b) ==> t.now < moment + ACCESS_LIFETIME
  {
    RunKeepsInv(Start(now), before);
    FadingRunsOut(Step(Run(Start(now), before), EnrolFactor(a)), after, b.device, moment + ACCESS_LIFETIME, b);
  }

  /** ... and until then nothing is cut off: enrolment leaves every access token as it was. */
  lemma EnrolmentKeepsAccessTokens(s: State, a: Access, b: Access)
    ensures Accepts(Step(s, EnrolFactor(a)), b) <==> Accepts(s, b)
  {}

  /** Signing out fades a device like an enrolment; deleting its row ends it at once, refreshes
      under way included. */
  lemma LogoutFades(now: int, before: seq<Event>, a: Access, after: seq<Event>, moment: int, b: Access)
    requires PossibleRun(Start(now), before) && Accepts(Run(Start(now), before), a) && b.device == a.device
    requires var s := Run(Start(now), before);
             && PossibleRun(Step(s, Logout(a)), after)
             && moment >= s.now && PromptRun(Step(s, Logout(a)), after, a.device, moment + ACCESS_LIFETIME)
    ensures var t := Run(Step(Run(Start(now), before), Logout(a)), after);
            Accepts(t, b) ==> t.now < moment + ACCESS_LIFETIME
  {
    RunKeepsInv(Start(now), before);
    FadingRunsOut(Step(Run(Start(now), before), Logout(a)), after, a.device, moment + ACCESS_LIFETIME, b);
  }

  lemma DeletedDeviceIsDead(now: int, before: seq<Event>, a: Access, d: DeviceId)
    requires PossibleRun(Start(now), before)
    requires var s := Run(Start(now), before); Accepts(s, a) && d in s.devices && s.devices[d] == a.user
    ensures NeverAccepted(Step(Run(Start(now), before), RevokeDevice(a, d)), d)
  {
    RunKeepsInv(Start(now), before);
    var s := Run(Start(now), before);
    var t := Step(s, RevokeDevice(a, d));
    StepKeepsInv(s, RevokeDevice(a, d));
    forall after: seq<Event>, b: Access | PossibleRun(t, after) && b.device == d ensures !Accepts(Run(t, after), b) {
      DeadStaysOut(t, after, d, b);
    }
  }

  /** The device that changed the password keeps its session: its access tokens up to the version
      read die, its refresh token still renews, and the renewed token is accepted. */
  lemma ChangingDeviceCanRenew(s: State, r: ReqId, t: TokenId, n: ReqId, a: Access)
    requires Inv(s) && r in s.evicting && Renewable(s, t) && s.evicting[r].keep == Some(s.tokens[t].device)
    requires s.devices[s.tokens[t].device] == s.evicting[r].user
    ensures var e, d := s.evicting[r], s.tokens[t].device;
            var c := Step(s, EvictCommit(r));
            && (a.device == d && a.tv <= e.version ==> !Accepts(c, a))
            && Renewable(c, t)
            && Accepts(Step(Step(c, RenewRead(n, t)), RenewIssue(n)), Mint(c, e.user, d))
  {}

  /** Evicting one user changes nothing for another. */
  lemma EvictionIsPerUser(s: State, r: ReqId, b: Access, t: TokenId)
    requires r in s.evicting && b.user != s.evicting[r].user
    requires t in s.tokens ==> s.tokens[t].device in s.devices && s.devices[s.tokens[t].device] != s.evicting[r].user
    ensures Accepts(Step(s, EvictCommit(r)), b) <==> Accepts(s, b)
    ensures Renewable(Step(s, EvictCommit(r)), t) <==> Renewable(s, t)
  {}
}
