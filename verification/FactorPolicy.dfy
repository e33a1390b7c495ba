/** Changing second factors under the "require 2FA" policy, which every worker reads through its
    own 30-second cache. No request locks the user row: it loads the row, decides, and later
    commits the columns it changed; other requests may commit in between. */
module FactorPolicy {
  type UserId = nat
  type CredId = nat
  type Worker = nat
  type ReqId = nat

  const CACHE_TTL := 30

  /** The factor columns of a user and the ids of its credential rows. */
  datatype Factors = Factors(totp: bool, hasPasskey: bool, creds: set<CredId>)

  datatype Cached = Cached(at: int, value: bool)

  /** One value of the policy row, in force from `time` until the next change. */
  datatype Change = Change(time: int, value: bool)

  datatype Kind =
    | Verify                      // POST /2fa/totp/verify
    | Register(cred: CredId)      // POST /2fa/passkey/register/verify
    | DropTotp                    // DELETE /2fa/totp
    | DropAll                     // DELETE /2fa
    | DropPasskey(cred: CredId)   // DELETE /2fa/passkey/{id}

  /** A request that will commit: what it saw of the user, and when. */
  datatype Pending = Pending(user: UserId, kind: Kind, seen: Factors, at: int)

  datatype State = State(
    now: int,
    caches: map<Worker, Cached>,
    history: seq<Change>,            // the last entry is the row's current value
    users: map<UserId, Factors>,
    pending: map<ReqId, Pending>)

  datatype Event =
    | SetPolicy(worker: Worker, value: bool)
    | RequireEnrolled(worker: Worker, user: UserId)   // the gate on content requests
    | Load(req: ReqId, worker: Worker, user: UserId, kind: Kind)
    | Commit(req: ReqId)
    | Tick(seconds: nat)

  predicate Enrolled(u: Factors) { u.totp || u.hasPasskey }

  predicate EnrolledIn(s: State, u: UserId) { u in s.users && Enrolled(s.users[u]) }

  function Policy(s: State): bool { s.history != [] && s.history[|s.history| - 1].value }

  /** get_require_2fa on one worker: the value, and the cache afterwards. */
  function Read(s: State, w: Worker): (bool, map<Worker, Cached>) {
    if w in s.caches && s.now - s.caches[w].at < CACHE_TTL then (s.caches[w].value, s.caches)
    else (Policy(s), s.caches[w := Cached(s.now, Policy(s))])
  }

  // ---------- one request ----------

  /** Whether the handler consults the policy: it sees no factor that would be left. */
  predicate Asks(kind: Kind, f: Factors) {
    match kind
    case DropTotp => !f.hasPasskey
    case DropAll => true
    case DropPasskey(c) => f.creds - {c} == {} && !f.totp
    case _ => false
  }

  predicate Found(kind: Kind, f: Factors) { kind.DropPasskey? ==> kind.cred in f.creds }

  function Begun(s: State, r: ReqId, u: UserId, kind: Kind): State
    requires u in s.users
  {
    s.(pending := s.pending[r := Pending(u, kind, s.users[u], s.now)])
  }

  function OnLoad(s: State, r: ReqId, w: Worker, u: UserId, kind: Kind): State {
    if u !in s.users || !Found(kind, s.users[u]) then s
    else if !Asks(kind, s.users[u]) then Begun(s, r, u, kind)
    else
      var (required, caches) := Read(s, w);
      if required then s.(caches := caches) else Begun(s.(caches := caches), r, u, kind)
  }

  /** A column is written only when the handler gave it another value than the one it loaded. */
  function Column(loaded: bool, given: bool, stored: bool): bool {
    if given == loaded then stored else given
  }

  /** The row after the commit of a request that saw `seen`, when `f` is stored by then. */
  function Written(kind: Kind, seen: Factors, f: Factors): Factors {
    match kind
    case Verify => f.(totp := Column(seen.totp, true, f.totp))
    case Register(c) => f.(creds := f.creds + {c}, hasPasskey := Column(seen.hasPasskey, true, f.hasPasskey))
    case DropTotp => f.(totp := Column(seen.totp, false, f.totp))
    case DropAll => Factors(Column(seen.totp, false, f.totp), Column(seen.hasPasskey, false, f.hasPasskey), {})
    case DropPasskey(c) =>
      f.(creds := f.creds - {c}, hasPasskey := Column(seen.hasPasskey, seen.creds - {c} != {}, f.hasPasskey))
  }

  function OnCommit(s: State, r: ReqId): State {
    if r !in s.pending then s
    else
      var p, s' := s.pending[r], s.(pending := s.pending - {r});
      if p.user !in s.users then s' else s'.(users := s.users[p.user := Written(p.kind, p.seen, s.users[p.user])])
  }

  function Step(s: State, e: Event): State {
    match e
    case SetPolicy(w, v) => s.(history := s.history + [Change(s.now, v)], caches := s.caches[w := Cached(s.now, v)])
    case RequireEnrolled(w, u) =>
      if u in s.users && !Enrolled(s.users[u]) then s.(caches := Read(s, w).1) else s
    case Load(r, w, u, kind) => OnLoad(s, r, w, u, kind)
    case Commit(r) => OnCommit(s, r)
    case Tick(n) => s.(now := s.now + n)
  }

  function Run(s: State, es: seq<Event>): State
    decreases |es|
  {
    if es == [] then s else Run(Step(s, es[0]), es[1..])
  }

  /** No policy row yet (off), no factors, cold caches. */
  function Start(now: int, users: set<UserId>): State {
    State(now, map[], [Change(now, false)], map u | u in users :: Factors(false, false, {}), map[])
  }

  // ---------- the handlers as they are written ----------

  class Server {
    var now: int
    var row: bool
    var caches: map<Worker, Cached>
    var users: map<UserId, Factors>
    var pending: map<ReqId, Pending>
    ghost var history: seq<Change>

    ghost function View(): State reads this { State(now, caches, history, users, pending) }

    ghost predicate Valid() reads this { row == Policy(View()) }

    constructor (now: int, ids: set<UserId>)
      ensures Valid() && View() == Start(now, ids)
    {
      this.now, row, caches, pending := now, false, map[], map[];
      users := map u | u in ids :: Factors(false, false, {});
      history := [Change(now, false)];
    }

    method GetRequire2fa(w: Worker) returns (value: bool)
      requires Valid()
      modifies `caches
      ensures Valid() && (value, caches) == old(Read(View(), w))
    {
      if w in caches && now - caches[w].at < CACHE_TTL {
        value := caches[w].value;
        return;
      }
      value := row;
      caches := caches[w := Cached(now, value)];
    }

    method SetRequire2fa(w: Worker, value: bool)
      requires Valid()
      modifies this
      ensures Valid() && View() == Step(old(View()), SetPolicy(w, value))
    {
      row := value;
      history := history + [Change(now, value)];
      caches := caches[w := Cached(now, value)];
    }

    /** disable_totp up to its commit. */
    method RemoveTotp(r: ReqId, w: Worker, u: UserId) returns (done: bool)
      requires Valid() && u in users
      modifies `caches, `pending
      ensures Valid() && View() == OnLoad(old(View()), r, w, u, DropTotp)
      ensures done <==> users[u].hasPasskey || !old(Read(View(), w)).0
    {
      done := false;
      if !users[u].hasPasskey {
        var required := GetRequire2fa(w);
        if required {
          return;
        }
      }
      pending := pending[r := Pending(u, DropTotp, users[u], now)];
      done := true;
    }

    /** disable_all_2fa up to its commit. */
    method RemoveAll(r: ReqId, w: Worker, u: UserId) returns (done: bool)
      requires Valid() && u in users
      modifies `caches, `pending
      ensures Valid() && View() == OnLoad(old(View()), r, w, u, DropAll)
      ensures done <==> !old(Read(View(), w)).0
    {
      var required := GetRequire2fa(w);
      done := !required;
      if done {
        pending := pending[r := Pending(u, DropAll, users[u], now)];
      }
    }

    /** delete_passkey up to its commit. */
    method RemovePasskey(r: ReqId, w: Worker, u: UserId, cred: CredId) returns (done: bool)
      requires Valid() && u in users
      modifies `caches, `pending
      ensures Valid() && View() == OnLoad(old(View()), r, w, u, DropPasskey(cred))
      ensures done <==> cred in users[u].creds && (users[u].totp || users[u].creds != {cred} || !old(Read(View(), w)).0)
    {
      done := false;
      if cred !in users[u].creds {
        return;
      }
      var remaining := users[u].creds - {cred};
      if remaining == {} && !users[u].totp {
        var required := GetRequire2fa(w);
        if required {
          return;
        }
      }
      pending := pending[r := Pending(u, DropPasskey(cred), users[u], now)];
      done := true;
    }

    /** The commit writes the changed columns over whatever is stored by then. */
    method CommitChange(r: ReqId)
      requires Valid() && r in pending && pending[r].user in users
      modifies `users, `pending
      ensures Valid() && View() == OnCommit(old(View()), r)
    {
      var p := pending[r];
      pending := pending - {r};
      users := users[p.user := Written(p.kind, p.seen, users[p.user])];
    }
  }

  // ---------- invariants ----------

  /** Entry i of the history was in force at instant t. */
  predicate InForce(h: seq<Change>, i: nat, t: int) {
    i < |h| && h[i].time <= t && (i + 1 < |h| ==> t <= h[i + 1].time)
  }

  ghost predicate HadValue(h: seq<Change>, t: int, v: bool) {
    exists i: nat :: InForce(h, i, t) && h[i].value == v
  }

  /** The policy was off at some instant of the 30 seconds before. */
  ghost predicate RecentlyOff(h: seq<Change>, at: int) { exists t :: at - CACHE_TTL < t <= at && HadValue(h, t, false) }

  predicate InTime(h: seq<Change>, now: int) {
    && h != [] && h[|h| - 1].time <= now
    && forall i, j :: 0 <= i < j < |h| ==> h[i].time <= h[j].time
  }

  ghost predicate CachesTrue(h: seq<Change>, now: int, caches: map<Worker, Cached>) {
    forall w :: w in caches ==> caches[w].at <= now && HadValue(h, caches[w].at, caches[w].value)
  }

  /** A request that consulted the policy was told it was off. */
  ghost predicate PendingTrue(h: seq<Change>, now: int, pending: map<ReqId, Pending>) {
    forall r :: r in pending ==>
      pending[r].at <= now && (Asks(pending[r].kind, pending[r].seen) ==> RecentlyOff(h, pending[r].at))
  }

  ghost predicate Inv(s: State) {
    InTime(s.history, s.now) && CachesTrue(s.history, s.now, s.caches) && PendingTrue(s.history, s.now, s.pending)
  }

  lemma CurrentValue(s: State)
    requires InTime(s.history, s.now)
    ensures HadValue(s.history, s.now, Policy(s))
  {
    assert InForce(s.history, |s.history| - 1, s.now);
  }

  lemma HistoryAppend(h: seq<Change>, c: Change, t: int, v: bool)
    requires HadValue(h, t, v) && t <= c.time
    ensures HadValue(h + [c], t, v)
  {
    var i: nat :| InForce(h, i, t) && h[i].value == v;
    assert InForce(h + [c], i, t);
  }

  /** What a worker reads was the policy at some instant of the last 30 seconds. */
  lemma ReadWasRecent(s: State, w: Worker)
    requires Inv(s)
    ensures var (v, caches) := Read(s, w);
            && (exists t :: s.now - CACHE_TTL < t <= s.now && HadValue(s.history, t, v))
            && CachesTrue(s.history, s.now, caches)
  {
    CurrentValue(s);
    var (v, caches) := Read(s, w);
    if w in s.caches && s.now - s.caches[w].at < CACHE_TTL {
      var t := s.caches[w].at;
      assert s.now - CACHE_TTL < t <= s.now && HadValue(s.history, t, v);
    } else {
      assert s.now - CACHE_TTL < s.now <= s.now && HadValue(s.history, s.now, v);
    }
  }

  lemma SetPolicyKeepsInv(s: State, w: Worker, v: bool)
    requires Inv(s)
    ensures Inv(Step(s, SetPolicy(w, v)))
  {
    var t, c := Step(s, SetPolicy(w, v)), Change(s.now, v);
    assert InForce(t.history, |s.history|, s.now);
    forall x | x in t.caches ensures t.caches[x].at <= t.now && HadValue(t.history, t.caches[x].at, t.caches[x].value) {
      if x != w { HistoryAppend(s.history, c, s.caches[x].at, s.caches[x].value); }
    }
    forall r | r in t.pending && Asks(t.pending[r].kind, t.pending[r].seen)
      ensures RecentlyOff(t.history, t.pending[r].at) {
      var at := s.pending[r].at;
      var x :| at - CACHE_TTL < x <= at && HadValue(s.history, x, false);
      HistoryAppend(s.history, c, x, false);
    }
  }

  lemma BegunKeepsInv(s: State, r: ReqId, u: UserId, kind: Kind)
    requires Inv(s) && u in s.users && (Asks(kind, s.users[u]) ==> RecentlyOff(s.history, s.now))
    ensures Inv(Begun(s, r, u, kind))
  {
    forall x | x in s.pending && Asks(s.pending[x].kind, s.pending[x].seen)
      ensures RecentlyOff(s.history, s.pending[x].at)
    {}
  }

  lemma LoadKeepsInv(s: State, r: ReqId, w: Worker, u: UserId, kind: Kind)
    requires Inv(s)
    ensures Inv(OnLoad(s, r, w, u, kind))
  {
    if u in s.users && Found(kind, s.users[u]) {
      if !Asks(kind, s.users[u]) {
        BegunKeepsInv(s, r, u, kind);
      } else {
        var (required, caches) := Read(s, w);
        ReadWasRecent(s, w);
        if !required { BegunKeepsInv(s.(caches := caches), r, u, kind); }
      }
    }
  }

  lemma StepKeepsInv(s: State, e: Event)
    requires Inv(s)
    ensures Inv(Step(s, e))
  {
    match e
    case SetPolicy(w, v) => SetPolicyKeepsInv(s, w, v);
    case RequireEnrolled(w, _) => ReadWasRecent(s, w);
    case Load(r, w, u, kind) => LoadKeepsInv(s, r, w, u, kind);
    case Commit(_) =>
    case Tick(_) =>
  }

  lemma {:induction false} RunKeepsInv(s: State, es: seq<Event>)
    requires Inv(s)
    ensures Inv(Run(s, es))
    decreases |es|
  {
    if es != [] {
      StepKeepsInv(s, es[0]);
      RunKeepsInv(Step(s, es[0]), es[1..]);
    }
  }

  lemma StartInv(now: int, users: set<UserId>)
    ensures Inv(Start(now, users))
  {
    assert InForce([Change(now, false)], 0, now);
  }

  // ---------- the passkey flag ----------

  predicate Accurate(f: Factors) { f.hasPasskey <==> f.creds != {} }

  predicate AllAccurate(s: State) { forall u :: u in s.users ==> Accurate(s.users[u]) }

  predicate SeenAccurate(s: State) {
    forall r :: r in s.pending ==> Accurate(s.pending[r].seen) && Found(s.pending[r].kind, s.pending[r].seen)
  }

  /** Whether the credentials stored at the commit still allow what the request concluded: a
      registration that saw passkeys finds some; a deletion of the last finds no other, and one
      of several finds another; dropping everything finds no passkey it did not know of. */
  predicate FlagFits(kind: Kind, seen: Factors, f: Factors) {
    match kind
    case Register(_) => seen.hasPasskey ==> f.hasPasskey
    case DropPasskey(c) => if seen.creds == {c} then f.creds <= {c} else f.creds != {c}
    case DropAll => f.hasPasskey ==> seen.hasPasskey
    case _ => true
  }

  lemma WrittenAccurateIff(kind: Kind, seen: Factors, f: Factors)
    requires Accurate(seen) && Accurate(f) && Found(kind, seen)
    ensures Accurate(Written(kind, seen, f)) <==> FlagFits(kind, seen, f)
  {
    if kind.DropPasskey? {
      assert seen.creds - {kind.cred} == {} <==> seen.creds == {kind.cred};
      assert f.creds - {kind.cred} == {} <==> f.creds <= {kind.cred};
    }
  }

  predicate CommitFits(s: State, e: Event) {
    e.Commit? && e.req in s.pending && s.pending[e.req].user in s.users ==>
      FlagFits(s.pending[e.req].kind, s.pending[e.req].seen, s.users[s.pending[e.req].user])
  }

  predicate AllCommitsFit(s: State, es: seq<Event>)
    decreases |es|
  {
    es == [] || (CommitFits(s, es[0]) && AllCommitsFit(Step(s, es[0]), es[1..]))
  }

  predicate AlwaysAccurate(s: State, es: seq<Event>)
    decreases |es|
  {
    AllAccurate(s) && (es == [] || AlwaysAccurate(Step(s, es[0]), es[1..]))
  }

  lemma StepAccurateIff(s: State, e: Event)
    requires AllAccurate(s) && SeenAccurate(s)
    ensures AllAccurate(Step(s, e)) <==> CommitFits(s, e)
    ensures SeenAccurate(Step(s, e))
  {
    if e.Commit? && e.req in s.pending && s.pending[e.req].user in s.users {
      var p := s.pending[e.req];
      assert Accurate(p.seen) && Found(p.kind, p.seen);
      WrittenAccurateIff(p.kind, p.seen, s.users[p.user]);
      assert Step(s, e).users[p.user] == Written(p.kind, p.seen, s.users[p.user]);
    }
  }

  lemma {:induction false} AccurateIffFits(s: State, es: seq<Event>)
    requires AllAccurate(s) && SeenAccurate(s)
    ensures AlwaysAccurate(s, es) <==> AllCommitsFit(s, es)
    decreases |es|
  {
    if es != [] {
      StepAccurateIff(s, es[0]);
      if CommitFits(s, es[0]) { AccurateIffFits(Step(s, es[0]), es[1..]); }
    }
  }

  /** In every run the passkey flag of every user says at every moment exactly whether a credential
      row exists - if and only if every commit fits the credentials it finds. */
  lemma FlagMeansCredential(now: int, users: set<UserId>, es: seq<Event>)
    ensures AlwaysAccurate(Start(now, users), es) <==> AllCommitsFit(Start(now, users), es)
  {
    AccurateIffFits(Start(now, users), es);
  }

  /** A commit that finds the row as it was loaded fits. */
  lemma UntouchedFits(kind: Kind, f: Factors)
    requires Found(kind, f)
    ensures FlagFits(kind, f, f)
  {}

  // ---------- the last factor ----------

  /** The factor a removal counted on when it did not consult the policy has gone since. */
  predicate OtherGone(p: Pending, f: Factors) {
    || (p.kind.DropTotp? && p.seen.hasPasskey && !f.hasPasskey)
    || (p.kind.DropPasskey? && p.seen.totp && !f.totp)
  }

  /** On any worker, after any run, an enrolled account loses its last factor only at the commit of a
      removal, and then only if the policy was off at some instant of the 30 seconds before that
      request decided, or the factor it counted on has gone in between. */
  lemma LastFactorNeedsRecentOff(now: int, users: set<UserId>, es: seq<Event>, e: Event, u: UserId)
    requires EnrolledIn(Run(Start(now, users), es), u) && !EnrolledIn(Step(Run(Start(now, users), es), e), u)
    ensures var s := Run(Start(now, users), es);
            && e.Commit? && e.req in s.pending
            && (RecentlyOff(s.history, s.pending[e.req].at) || OtherGone(s.pending[e.req], s.users[u]))
  {
    StartInv(now, users);
    RunKeepsInv(Start(now, users), es);
    var s := Run(Start(now, users), es);
    UnenrolsAtCommit(s, e, u);
  }

  lemma UnenrolsAtCommit(s: State, e: Event, u: UserId)
    requires Inv(s) && EnrolledIn(s, u) && !EnrolledIn(Step(s, e), u)
    ensures e.Commit? && e.req in s.pending
    ensures RecentlyOff(s.history, s.pending[e.req].at) || OtherGone(s.pending[e.req], s.users[u])
  {
    assert e.Commit? && e.req in s.pending;
    var p := s.pending[e.req];
    assert Step(s, e).users[u] == Written(p.kind, p.seen, s.users[u]);
  }

  /** A removal that did not consult the policy takes the last factor exactly when the other one has
      gone since and the removed one was seen as set. */
  lemma UnaskedRemovalUnenrolsIff(p: Pending, f: Factors)
    requires (p.kind.DropTotp? || p.kind.DropPasskey?) && Found(p.kind, p.seen) && !Asks(p.kind, p.seen) && Enrolled(f)
    ensures !Enrolled(Written(p.kind, p.seen, f)) <==>
            && OtherGone(p, f)
            && (if p.kind.DropTotp? then p.seen.totp else p.seen.hasPasskey && p.seen.creds == {p.kind.cred})
  {
    if p.kind.DropPasskey? { assert p.seen.creds - {p.kind.cred} == {} <==> p.seen.creds == {p.kind.cred}; }
  }

  /** It happens with the policy on: two removals that each see the other factor, on any workers. */
  lemma OverlappingRemovalsDropTheLast(s: State, v: Worker, w: Worker, u: UserId, c: CredId, q: ReqId, r: ReqId)
    requires u in s.users && s.users[u] == Factors(true, true, {c}) && q != r
    ensures var t := Step(Step(s, Load(q, v, u, DropTotp)), Load(r, w, u, DropPasskey(c)));
            EnrolledIn(t, u) && !EnrolledIn(Step(Step(t, Commit(q)), Commit(r)), u)
  {
    var t := Step(Step(s, Load(q, v, u, DropTotp)), Load(r, w, u, DropPasskey(c)));
    assert t.pending[q] == Pending(u, DropTotp, s.users[u], s.now) &&
        t.pending[r] == Pending(u, DropPasskey(c), s.users[u], s.now);
    var t1 := Step(t, Commit(q));
    assert t1.users[u] == Factors(false, true, {c}) && t1.pending[r] == t.pending[r];
  }

  lemma SettledMeansOn(h: seq<Change>, since: nat, t: int)
    requires since < |h| && h[since].time < t
    requires forall i, j :: 0 <= i < j < |h| ==> h[i].time <= h[j].time
    requires forall i :: since <= i < |h| ==> h[i].value
    ensures !HadValue(h, t, false)
  {
    forall i: nat | InForce(h, i, t) ensures h[i].value {}
  }

  /** Once the policy has been on for 30 seconds, no removal that decides from then on takes a last
      factor, unless it counted on another that another request removed in between. */
  lemma SettledPolicyProtects(now: int, users: set<UserId>, es: seq<Event>, since: nat, e: Event, u: UserId)
    requires var s := Run(Start(now, users), es);
             && since < |s.history| && (forall i :: since <= i < |s.history| ==> s.history[i].value)
             && EnrolledIn(s, u)
             && (e.Commit? && e.req in s.pending ==>
                   s.history[since].time <= s.pending[e.req].at - CACHE_TTL && !OtherGone(s.pending[e.req], s.users[u]))
    ensures EnrolledIn(Step(Run(Start(now, users), es), e), u)
  {
    StartInv(now, users);
    RunKeepsInv(Start(now, users), es);
    SettledHere(Run(Start(now, users), es), since, e, u);
  }

  lemma SettledHere(s: State, since: nat, e: Event, u: UserId)
    requires Inv(s) && EnrolledIn(s, u)
    requires since < |s.history| && forall i :: since <= i < |s.history| ==> s.history[i].value
    requires e.Commit? && e.req in s.pending ==>
               s.history[since].time <= s.pending[e.req].at - CACHE_TTL && !OtherGone(s.pending[e.req], s.users[u])
    ensures EnrolledIn(Step(s, e), u)
  {
    if !EnrolledIn(Step(s, e), u) {
      UnenrolsAtCommit(s, e, u);
      var at := s.pending[e.req].at;
      var t :| at - CACHE_TTL < t <= at && HadValue(s.history, t, false);
      SettledMeansOn(s.history, since, t);
    }
  }

  /** The 30 seconds are real: a worker that cached "off" less than 30 seconds ago lets the
      last factor go although the policy is on now, and from then on it does not. */
  lemma StaleCacheDecides(s: State, r: ReqId, w: Worker, u: UserId)
    requires u in s.users && s.users[u].totp && !s.users[u].hasPasskey && r !in s.pending
    requires w in s.caches && !s.caches[w].value && Policy(s)
    ensures EnrolledIn(Step(Step(s, Load(r, w, u, DropTotp)), Commit(r)), u) <==> s.now - s.caches[w].at >= CACHE_TTL
  {}

  // ---------- the value that is read, and what a request stores ----------

  predicate NoPolicyChange(es: seq<Event>) { forall i :: 0 <= i < |es| ==> !es[i].SetPolicy? }

  /** Since the policy was set at `since` by worker w: the row holds it, w's cache too, and any cache
      that disagrees is older. */
  predicate Settling(s: State, w: Worker, value: bool, since: int) {
    && since <= s.now && s.history != [] && s.history[|s.history| - 1].value == value
    && w in s.caches && s.caches[w].value == value
    && forall x :: x in s.caches ==> s.caches[x].at <= s.now && (s.caches[x].value == value || s.caches[x].at <= since)
  }

  lemma StepSettles(s: State, e: Event, w: Worker, value: bool, since: int)
    requires Settling(s, w, value, since) && !e.SetPolicy?
    ensures Settling(Step(s, e), w, value, since)
  {}

  lemma {:induction false} RunSettles(s: State, es: seq<Event>, w: Worker, value: bool, since: int)
    requires Settling(s, w, value, since) && NoPolicyChange(es)
    ensures Settling(Run(s, es), w, value, since)
    decreases |es|
  {
    if es != [] {
      assert !es[0].SetPolicy?;
      StepSettles(s, es[0], w, value, since);
      RunSettles(Step(s, es[0]), es[1..], w, value, since);
    }
  }

  /** What an administrator sets is what is read: at once on the worker that set it, and on every worker
      from 30 seconds on, until the next change. */
  lemma SetPolicyIsRead(
    now: int, users: set<UserId>, before: seq<Event>, w: Worker, value: bool, after: seq<Event>, x: Worker)
    requires NoPolicyChange(after)
    ensures var s := Run(Start(now, users), before);
            var t := Run(Step(s, SetPolicy(w, value)), after);
            && Read(t, w).0 == value
            && (t.now >= s.now + 30 ==> Read(t, x).0 == value)
  {
    StartInv(now, users);
    RunKeepsInv(Start(now, users), before);
    var s := Run(Start(now, users), before);
    RunSettles(Step(s, SetPolicy(w, value)), after, w, value, s.now);
  }

  /** A worker asks the row again exactly when its answer is 30 seconds old. */
  lemma CacheIsUsedIff(s: State, w: Worker)
    ensures Read(s, w) == if w in s.caches && s.now < s.caches[w].at + 30 then (s.caches[w].value, s.caches)
                          else (Policy(s), s.caches[w := Cached(s.now, Policy(s))])
  {}

  /** What a request that commits on the row it loaded leaves: an enrolment code turns TOTP on, a new
      passkey is there, and a removal takes what it names; nothing else changes. */
  lemma WholeRequestStores(kind: Kind, f: Factors)
    requires Accurate(f) && Found(kind, f)
    ensures Written(kind, f, f) ==
            match kind
            case Verify => Factors(true, f.hasPasskey, f.creds)
            case Register(c) => Factors(f.totp, true, f.creds + {c})
            case DropTotp => Factors(false, f.hasPasskey, f.creds)
            case DropAll => Factors(false, false, {})
            case DropPasskey(c) => Factors(f.totp, f.creds != {c}, f.creds - {c})
  {
    if kind.DropPasskey? { assert f.creds - {kind.cred} == {} <==> f.creds == {kind.cred}; }
  }

  /** And over whatever is stored by then: credential rows come and go as named, and a flag changes
      only to what the request concluded, when that is not what it loaded. */
  lemma CommitStores(s: State, r: ReqId)
    requires r in s.pending && s.pending[r].user in s.users
    ensures var p, t := s.pending[r], Step(s, Commit(r));
            var f, seen := s.users[p.user], p.seen;
            && t == s.(users := t.users, pending := s.pending - {r})
            && t.users == s.users[p.user := t.users[p.user]]
            && t.users[p.user] ==
               match p.kind
               case Verify => f.(totp := f.totp || !seen.totp)
               case Register(c) => f.(creds := f.creds + {c}, hasPasskey := f.hasPasskey || !seen.hasPasskey)
               case DropTotp => f.(totp := f.totp && !seen.totp)
               case DropAll => Factors(f.totp && !seen.totp, f.hasPasskey && !seen.hasPasskey, {})
               case DropPasskey(c) => f.(creds := f.creds - {c}, hasPasskey :=
                                          if seen.creds <= {c} then f.hasPasskey && !seen.hasPasskey
                                          else f.hasPasskey || !seen.hasPasskey)
  {
    var p := s.pending[r];
    if p.kind.DropPasskey? { assert p.seen.creds - {p.kind.cred} == {} <==> p.seen.creds <= {p.kind.cred}; }
  }

  /** A removal is begun exactly when a factor other than the removed one is seen, or the policy read is
      off; dropping everything always asks. An enrolment never asks. */
  lemma RequestBeginsIff(s: State, r: ReqId, w: Worker, u: UserId, kind: Kind)
    requires u in s.users && r !in s.pending
    ensures var f, t := s.users[u], Step(s, Load(r, w, u, kind));
            && (r in t.pending <==>
                match kind
                case Verify => true
                case Register(_) => true
                case DropTotp => f.hasPasskey || !Read(s, w).0
                case DropAll => !Read(s, w).0
                case DropPasskey(c) => c in f.creds && (f.totp || f.creds != {c} || !Read(s, w).0))
            && (r in t.pending ==> t.pending == s.pending[r := Pending(u, kind, f, s.now)])
            && t.users == s.users && t.history == s.history
  {
    if kind.DropPasskey? && kind.cred in s.users[u].creds {
      assert s.users[u].creds - {kind.cred} == {} <==> s.users[u].creds == {kind.cred};
    }
  }
}
