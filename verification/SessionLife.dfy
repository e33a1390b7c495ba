/** How long a session lasts, and what alone can end it before: the session rules in their own
    numbers and columns. */
module SessionLife {
  import opened Common
  import opened Sessions

  // ---------- one request ----------

  /** A sign-in makes a device row, a refresh token good for 90 days and an access token good for 15
      minutes that carries the user's present version. */
  lemma LoginGives(s: State, u: UserId, d: DeviceId, k: TokenId)
    requires u in s.versions
    ensures var t := Step(s, Login(u, d, k));
            && t.devices == s.devices[d := u]
            && t.tokens == s.tokens[k := Refresh(d, s.now + 7776000, false)]
            && t.issued == s.issued + {Access(u, d, s.versions[u], s.now + 900)}
            && t.versions == s.versions && t.now == s.now
  {}

  /** A refresh goes on exactly with an unrevoked token that has not expired. */
  lemma RefreshGoesOnIff(s: State, r: ReqId, k: TokenId)
    ensures Step(s, RenewRead(r, k)) ==
            if k in s.tokens && !s.tokens[k].revoked && s.now < s.tokens[k].expires
            then s.(refreshing := s.refreshing[r := Refreshing(s.tokens[k].device, s.now)]) else s
  {}

  /** And is answered exactly when the device row and its user still exist, with an access token for
      15 minutes at the version the user has by then; no refresh token is made or prolonged. */
  lemma RefreshIsAnsweredIff(s: State, r: ReqId)
    requires r in s.refreshing
    ensures var d := s.refreshing[r].device;
            Step(s, RenewIssue(r)) ==
            if d in s.devices && s.devices[d] in s.versions
            then s.(refreshing := s.refreshing - {r},
                    issued := s.issued + {Access(s.devices[d], d, s.versions[s.devices[d]], s.now + 900)})
            else s.(refreshing := s.refreshing - {r})
  {}

  /** The acting device's access token is good at this moment. */
  predicate GoodNow(s: State, a: Access) {
    && a in s.issued && s.now < a.exp
    && a.device in s.devices && s.devices[a.device] == a.user
    && a.user in s.versions && s.versions[a.user] == a.tv
  }

  /** An eviction begins for a caller whose token is good and whose password verifies, sparing its own
      device, or for a recovery or reset, sparing none, and notes the version it read. */
  lemma EvictionNotesTheVersion(s: State, r: ReqId, a: Access, passwordOk: bool, u: UserId)
    ensures Step(s, ChangeLoad(r, a, passwordOk)) ==
            if GoodNow(s, a) && passwordOk
            then s.(evicting := s.evicting[r := Evicting(a.user, Some(a.device), s.versions[a.user])]) else s
    ensures Step(s, ResetLoad(r, u)) ==
            if u in s.versions then s.(evicting := s.evicting[r := Evicting(u, None, s.versions[u])]) else s
  {}

  /** Its commit stores that version plus one and revokes exactly the tokens of the user's devices
      other than the one spared. */
  lemma EvictionCommits(s: State, r: ReqId, k: TokenId)
    requires r in s.evicting && s.evicting[r].user in s.versions && k in s.tokens
    ensures var e, t := s.evicting[r], Step(s, EvictCommit(r));
            && t.versions == s.versions[e.user := e.version + 1]
            && t.issued == s.issued && t.devices == s.devices && t.evicting == s.evicting - {r}
            && k in t.tokens && t.tokens[k].device == s.tokens[k].device && t.tokens[k].expires == s.tokens[k].expires
            && (t.tokens[k].revoked <==>
                || s.tokens[k].revoked
                || (&& s.tokens[k].device in s.devices && s.devices[s.tokens[k].device] == e.user
                    && (e.keep.None? || e.keep.value != s.tokens[k].device)))
  {}

  // ---------- what ends a session ----------

  /** What ends the session of device d of user u, spelled out: its own sign-out or the deletion of its
      row by that user; a factor enrolled, or an eviction committed, that spares another device
      or none; and the deletion of the account. */
  predicate Ends(s: State, e: Event, u: UserId, d: DeviceId) {
    match e
    case Logout(a) => GoodNow(s, a) && a.device == d
    case RevokeDevice(a, gone) => GoodNow(s, a) && a.user == u && gone == d
    case EnrolFactor(a) => GoodNow(s, a) && a.user == u && a.device != d
    case EvictCommit(r) =>
      && r in s.evicting && s.evicting[r].user == u && u in s.versions
      && (s.evicting[r].keep.None? || s.evicting[r].keep.value != d)
    case DeleteUser(v) => v == u && u in s.versions
    case _ => false
  }

  /** A refresh token that still works goes on working across a step exactly when the step is none of
      these - sweeps, other devices and other users included. */
  lemma TokenSurvivesIff(s: State, e: Event, k: TokenId)
    requires Inv(s) && Possible(s, e) && !e.Tick?
    requires k in s.tokens && !s.tokens[k].revoked && s.now < s.tokens[k].expires
    ensures var t := Step(s, e);
            var d := s.tokens[k].device;
            (k in t.tokens && t.tokens[k] == s.tokens[k]) <==> !Ends(s, e, s.devices[d], d)
  {}

  /** Time alone takes nothing before its expiry. */
  lemma TimeOnlyPasses(s: State, n: nat)
    ensures Step(s, Tick(n)) == s.(now := s.now + n)
  {}

  // ---------- how long a session can last ----------

  /** Every refresh answers within so many seconds of its token check. */
  predicate Swift(s: State, e: Event, slack: nat) {
    e.RenewIssue? && e.req in s.refreshing ==> s.now <= s.refreshing[e.req].at + slack
  }

  predicate SwiftRun(s: State, es: seq<Event>, slack: nat)
    decreases |es|
  {
    es == [] || (Swift(s, es[0], slack) && SwiftRun(Step(s, es[0]), es[1..], slack))
  }

  /** Nothing of the device outlives `end` by more than one answer and one access token. */
  predicate Ageing(s: State, d: DeviceId, end: int, slack: nat) {
    && d in s.owners
    && (forall k :: k in s.tokens && s.tokens[k].device == d ==> s.tokens[k].expires <= end)
    && (forall r :: r in s.refreshing && s.refreshing[r].device == d ==> s.refreshing[r].at < end)
    && (forall a :: a in s.issued && a.device == d ==> a.exp <= end + slack + 900)
  }

  lemma StepAges(s: State, e: Event, d: DeviceId, end: int, slack: nat)
    requires Ageing(s, d, end, slack) && Possible(s, e) && Swift(s, e, slack)
    ensures Ageing(Step(s, e), d, end, slack)
  {}

  lemma {:induction false} RunAges(s: State, es: seq<Event>, d: DeviceId, end: int, slack: nat, b: Access)
    requires Ageing(s, d, end, slack) && PossibleRun(s, es) && SwiftRun(s, es, slack) && b.device == d
    ensures Accepts(Run(s, es), b) ==> Run(s, es).now < end + slack + 900
    decreases |es|
  {
    if es != [] {
      StepAges(s, es[0], d, end, slack);
      RunAges(Step(s, es[0]), es[1..], d, end, slack, b);
    }
  }

  /** In every run a device is accepted for less than 90 days and 15 minutes after it signed in, plus
      what a refresh may take to answer: refreshing never prolongs a session. */
  lemma SessionsEndIn90Days(
    now: int, before: seq<Event>, u: UserId, d: DeviceId, k: TokenId, after: seq<Event>, slack: nat, b: Access)
    requires PossibleRun(Start(now), before)
    requires var s := Run(Start(now), before);
             && u in s.versions && Possible(s, Login(u, d, k)) && b.device == d
             && PossibleRun(Step(s, Login(u, d, k)), after) && SwiftRun(Step(s, Login(u, d, k)), after, slack)
    ensures var s := Run(Start(now), before);
            var t := Run(Step(s, Login(u, d, k)), after);
            Accepts(t, b) ==> t.now < s.now + 7776000 + slack + 900
  {
    RunKeepsInv(Start(now), before);
    var s := Run(Start(now), before);
    assert Ageing(Step(s, Login(u, d, k)), d, s.now + 7776000, slack);
    RunAges(Step(s, Login(u, d, k)), after, d, s.now + 7776000, slack, b);
  }
}
