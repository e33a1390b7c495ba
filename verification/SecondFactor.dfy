/** Completing a pending sign-in with a second factor: the single-use claim on the pending
    token, TOTP replay protection, and the row lock that serialises TOTP completions.

    A completion runs in three steps that interleave freely with other requests: decode the
    pending token, check the factor, claim the token and issue the session. A TOTP check
    takes the user's row lock and keeps it until its claim commits or rolls back; a passkey
    check takes no lock. An enrolment code is verified in two steps without the lock: it reads
    the row, and its commit waits only for a lock held at that moment. */
module SecondFactor {
  import opened Common
  import RateLimit

  type UserId = nat
  type Jti = nat
  type ReqId = nat
  type Secret = nat

  const PENDING_LIFETIME := 300
  const USED_TTL := 600
  const STEP_SECONDS := 30

  datatype Backup = Backup(hash: nat, used: bool)

  /** The second-factor columns of a user row. */
  datatype Account = Account(
    secret: Option<Secret>, totp: bool, passkey: bool, lastStep: Option<int>, backup: seq<Backup>)

  datatype Pending = Pending(user: UserId, iat: int)

  datatype Kind = Totp | Passkey

  /** `after` is the account as the open transaction has changed it; nothing is committed yet. */
  datatype Req =
    | Decoded(jti: Jti, kind: Kind, decodedAt: int)
    | Checked(jti: Jti, kind: Kind, decodedAt: int, after: Account, step: Option<int>)

  /** An enrolment verification that has accepted a code: what it read, and the step it will store. */
  datatype Verifying = Verifying(user: UserId, totp: bool, hasCodes: bool, lastStep: Option<int>, step: int)

  datatype Session = Session(jti: Jti, user: UserId, at: int, step: Option<int>)

  datatype Accepted = Accepted(user: UserId, step: int)

  datatype State = State(
    now: int,
    accounts: map<UserId, Account>,
    locks: map<UserId, ReqId>,              // FOR UPDATE on the user row
    pending: map<Jti, Pending>,             // pending tokens signed so far
    used: map<Jti, int>,                    // 2fa_used:{jti} and when it expires
    fails: map<UserId, RateLimit.Window>,   // 2fa_fail:{user}
    reqs: map<ReqId, Req>,
    verifying: map<ReqId, Verifying>,
    sessions: seq<Session>,
    accepted: seq<Accepted>)                // TOTP steps accepted and committed, in order

  datatype Event =
    | Password(user: UserId, jti: Jti)                         // password verified, factor required
    | Decode(req: ReqId, jti: Jti, kind: Kind)
    | CheckTotp(req: ReqId, code: string)
    | CheckPasskey(req: ReqId, assertionOk: bool)
    | Claim(req: ReqId)
    | Setup(user: UserId, secret: Secret)                      // POST /2fa/totp/setup
    | VerifyLoad(req: ReqId, user: UserId, code: string)       // POST /2fa/totp/verify
    | VerifyCommit(req: ReqId, codes: seq<Backup>)             // ... codes: freshly generated
    | Disable(user: UserId)                                    // DELETE /2fa/totp
    | Tick(seconds: nat)

  /** The code of a secret at a time step, and the stored hash of a backup code. */
  datatype Codes = Codes(at: (Secret, int) -> string, hash: string -> nat)

  // ---------- TOTP ----------

  /** The typed code without spaces and dashes. */
  function Stripped(code: string): string {
    if code == "" then "" else (if code[0] == ' ' || code[0] == '-' then "" else [code[0]]) + Stripped(code[1..])
  }

  predicate Blank(c: char) { c == ' ' || c == '\t' || c == '\n' || c == '\r' }

  /** The enrolment code without surrounding blanks. */
  function Trimmed(code: string): string {
    if code != "" && Blank(code[0]) then Trimmed(code[1..])
    else if code != "" && Blank(code[|code| - 1]) then Trimmed(code[..|code| - 1])
    else code
  }

  predicate IsDigits(code: string) { code != "" && forall i :: 0 <= i < |code| ==> '0' <= code[i] <= '9' }

  /** The first of the steps from offset `o` to +1 whose code matches. */
  function MatchFrom(f: Codes, secret: Secret, now: int, o: int, code: string): Option<int>
    decreases 2 - o
  {
    var k := now / STEP_SECONDS + o;
    if o > 1 then None
    else if f.at(secret, k) == code then Some(k)
    else MatchFrom(f, secret, now, o + 1, code)
  }

  /** consume_totp looks at the previous, the current and the next step, in that order. */
  function FirstMatch(f: Codes, secret: Secret, now: int, code: string): Option<int> {
    MatchFrom(f, secret, now, -1, code)
  }

  /** The match is the least step of the three with this code. */
  lemma FirstMatchIsLeast(f: Codes, secret: Secret, now: int, code: string, m: int)
    ensures FirstMatch(f, secret, now, code) == Some(m) <==>
            && now / STEP_SECONDS - 1 <= m <= now / STEP_SECONDS + 1 && f.at(secret, m) == code
            && forall k :: now / STEP_SECONDS - 1 <= k < m ==> f.at(secret, k) != code
  {
    var k := now / STEP_SECONDS;
    assert MatchFrom(f, secret, now, 1, code) == if f.at(secret, k + 1) == code then Some(k + 1) else None;
    assert MatchFrom(f, secret, now, 0, code) ==
           if f.at(secret, k + 0) == code then Some(k + 0) else MatchFrom(f, secret, now, 1, code);
    assert f.at(secret, k + -1) == f.at(secret, k - 1) && f.at(secret, k + 0) == f.at(secret, k);
  }

  /** The step consume_totp accepts, if any. */
  function TotpStep(f: Codes, a: Account, now: int, code: string): Option<int> {
    if a.secret.None? || !IsDigits(code) then None
    else
      var m := FirstMatch(f, a.secret.value, now, code);
      if m.Some? && a.lastStep.Some? && m.value <= a.lastStep.value then None else m
  }

  class UserRow {
    var secret: Option<Secret>
    var totp: bool
    var passkey: bool
    var lastStep: Option<int>
    var backup: seq<Backup>

    ghost function View(): Account reads this { Account(secret, totp, passkey, lastStep, backup) }

    constructor (a: Account)
      ensures View() == a
    {
      secret, totp, passkey, lastStep, backup := a.secret, a.totp, a.passkey, a.lastStep, a.backup;
    }

    method ConsumeTotp(f: Codes, now: int, code: string) returns (ok: bool)
      modifies `lastStep
      ensures ok <==> TotpStep(f, old(View()), now, code).Some?
      ensures lastStep == if ok then TotpStep(f, old(View()), now, code) else old(lastStep)
    {
      ok := false;
      if secret.None? || !IsDigits(code) {
        return;
      }
      var matched: Option<int> := None;
      var offset := -1;
      while offset <= 1 && matched.None?
        invariant offset <= 2
        invariant FirstMatch(f, secret.value, now, code) ==
                  if matched.Some? then matched else MatchFrom(f, secret.value, now, offset, code)
        decreases 2 - offset, matched.None?
      {
        var step := now / STEP_SECONDS + offset;
        if f.at(secret.value, step) == code {
          matched := Some(step);
        } else {
          offset := offset + 1;
        }
      }
      if matched.None? {
        return;
      }
      if lastStep.Some? && matched.value <= lastStep.value {
        return;
      }
      lastStep := matched;
      ok := true;
    }

    /** The backup-code loop of complete_2fa: the first unused entry with this hash. */
    method UseBackup(h: nat) returns (ok: bool)
      modifies `backup
      ensures ok <==> BackupIndex(old(backup), h) < |old(backup)|
      ensures backup == if ok then MarkUsed(old(backup), h) else old(backup)
    {
      ok := false;
      var i := 0;
      while i < |backup|
        invariant i <= |backup| && backup == old(backup) && !ok
        invariant BackupIndex(backup, h) == i + BackupIndex(backup[i..], h)
      {
        assert backup[i..][1..] == backup[i + 1..];
        if !backup[i].used && backup[i].hash == h {
          backup := backup[i := Backup(h, true)];
          ok := true;
          return;
        }
        i := i + 1;
      }
    }
  }

  /** Index of the first unused entry with this hash, or the length when there is none. */
  function BackupIndex(codes: seq<Backup>, h: nat): (i: nat)
    ensures i <= |codes|
  {
    if codes == [] then 0
    else if !codes[0].used && codes[0].hash == h then 0
    else 1 + BackupIndex(codes[1..], h)
  }

  function MarkUsed(codes: seq<Backup>, h: nat): seq<Backup>
    requires BackupIndex(codes, h) < |codes|
  {
    codes[BackupIndex(codes, h) := Backup(h, true)]
  }

  function Unused(codes: seq<Backup>): nat {
    if codes == [] then 0 else (if codes[0].used then 0 else 1) + Unused(codes[1..])
  }

  /** Using a backup code spends exactly one unused entry. */
  lemma {:induction false} BackupSpendsOne(codes: seq<Backup>, h: nat)
    requires BackupIndex(codes, h) < |codes|
    ensures Unused(MarkUsed(codes, h)) == Unused(codes) - 1
    ensures |MarkUsed(codes, h)| == |codes|
  {
    var i := BackupIndex(codes, h);
    if i == 0 {
      assert MarkUsed(codes, h)[1..] == codes[1..];
    } else {
      BackupSpendsOne(codes[1..], h);
      assert MarkUsed(codes, h)[1..] == MarkUsed(codes[1..], h);
    }
  }

  // ---------- steps ----------

  predicate UsedLive(s: State, jti: Jti) { jti in s.used && s.now < s.used[jti] }

  predicate Locked(s: State, u: UserId) {
    u in s.fails && RateLimit.Live(s.fails[u], s.now) >= RateLimit.MAX_FAILS
  }

  function Failed(s: State, u: UserId): State {
    var w := if u in s.fails then s.fails[u] else RateLimit.Window(0, s.now);
    s.(fails := s.fails[u := RateLimit.Incr(w, s.now, RateLimit.FAIL_WINDOW)])
  }

  function OnDecode(s: State, r: ReqId, jti: Jti, kind: Kind): State {
    if jti in s.pending && s.now < s.pending[jti].iat + PENDING_LIFETIME
    then s.(reqs := s.reqs[r := Decoded(jti, kind, s.now)]) else s
  }

  /** What the factor check makes of the account: the changed row and the TOTP step used. */
  function TotpOrBackup(f: Codes, a: Account, now: int, code: string): Option<(Account, Option<int>)> {
    var step := TotpStep(f, a, now, Stripped(code));
    if step.Some? then Some((a.(lastStep := step), step))
    else if BackupIndex(a.backup, f.hash(code)) < |a.backup|
    then Some((a.(backup := MarkUsed(a.backup, f.hash(code))), None))
    else None
  }

  predicate Enrolled(a: Account) { a.totp || a.passkey }

  function OnCheckTotp(f: Codes, s: State, r: ReqId, code: string): State {
    if !(r in s.reqs && s.reqs[r].Decoded? && s.reqs[r].kind.Totp? && s.reqs[r].jti in s.pending) then s
    else
      var q := s.reqs[r];
      var u := s.pending[q.jti].user;
      if u in s.locks then s                                        // waits for the row lock
      else if u !in s.accounts || !Enrolled(s.accounts[u]) || Locked(s, u) || UsedLive(s, q.jti)
      then s.(reqs := s.reqs - {r})
      else
        match TotpOrBackup(f, s.accounts[u], s.now, code)
        case None => Failed(s.(reqs := s.reqs - {r}), u)
        case Some(done) => s.(reqs := s.reqs[r := Checked(q.jti, Totp, q.decodedAt, done.0, done.1)],
                              locks := s.locks[u := r])
  }

  function OnCheckPasskey(s: State, r: ReqId, ok: bool): State {
    if !(r in s.reqs && s.reqs[r].Decoded? && s.reqs[r].kind.Passkey? && s.reqs[r].jti in s.pending) then s
    else
      var q := s.reqs[r];
      var u := s.pending[q.jti].user;
      if u !in s.accounts || Locked(s, u) || UsedLive(s, q.jti) then s.(reqs := s.reqs - {r})
      else if !ok then Failed(s.(reqs := s.reqs - {r}), u)
      else s.(reqs := s.reqs[r := Checked(q.jti, Passkey, q.decodedAt, s.accounts[u], None)])
  }

  /** SET NX on the used marker; the loser rolls back, the winner commits and gets a session. */
  function OnClaim(s: State, r: ReqId): State {
    if !(r in s.reqs && s.reqs[r].Checked? && s.reqs[r].jti in s.pending) then s
    else
      var q := s.reqs[r];
      var u := s.pending[q.jti].user;
      var released := s.(reqs := s.reqs - {r}, locks := if q.kind.Totp? then s.locks - {u} else s.locks);
      if UsedLive(s, q.jti) then released
      else Issued(released.(used := s.used[q.jti := s.now + USED_TTL]), q, u)
  }

  function Issued(s: State, q: Req, u: UserId): State
    requires q.Checked?
  {
    s.(fails := s.fails - {u},
       accounts := if q.kind.Totp? then s.accounts[u := q.after] else s.accounts,
       sessions := s.sessions + [Session(q.jti, u, s.now, q.step)],
       accepted := if q.step.Some? then s.accepted + [Accepted(u, q.step.value)] else s.accepted)
  }

  function OnVerifyLoad(f: Codes, s: State, r: ReqId, u: UserId, code: string): State {
    if u !in s.accounts then s
    else
      var a := s.accounts[u];
      match TotpStep(f, a, s.now, Trimmed(code))
      case None => s
      case Some(step) => s.(verifying := s.verifying[r := Verifying(u, a.totp, a.backup != [], a.lastStep, step)])
  }

  /** Only the columns the handler changed are written, over whatever the row holds by then. */
  function Enrol(a: Account, v: Verifying, codes: seq<Backup>): Account {
    a.(lastStep := Some(v.step), totp := if v.totp then a.totp else true, backup := if v.hasCodes
        then a.backup else codes)
  }

  function OnVerifyCommit(s: State, r: ReqId, codes: seq<Backup>): State {
    if r !in s.verifying || s.verifying[r].user in s.locks || s.verifying[r].user !in s.accounts then s
    else
      var v := s.verifying[r];
      s.(accounts := s.accounts[v.user := Enrol(s.accounts[v.user], v, codes)],
         verifying := s.verifying - {r},
         accepted := s.accepted + [Accepted(v.user, v.step)])
  }

  function OnSetup(s: State, u: UserId, secret: Secret): State {
    if u in s.accounts && u !in s.locks && !s.accounts[u].totp
    then s.(accounts := s.accounts[u := s.accounts[u].(secret := Some(secret))]) else s
  }

  function OnDisable(s: State, u: UserId): State {
    if u in s.accounts && u !in s.locks
    then s.(accounts := s.accounts[u :=
              s.accounts[u].(secret := None, totp := false, backup := if s.accounts[u].passkey
                  then s.accounts[u].backup else [])])
    else s
  }

  function Step(f: Codes, s: State, e: Event): State {
    match e
    case Password(u, jti) =>
      if u in s.accounts && Enrolled(s.accounts[u]) then s.(pending := s.pending[jti := Pending(u, s.now)]) else s
    case Decode(r, jti, kind) => OnDecode(s, r, jti, kind)
    case CheckTotp(r, code) => OnCheckTotp(f, s, r, code)
    case CheckPasskey(r, ok) => OnCheckPasskey(s, r, ok)
    case Claim(r) => OnClaim(s, r)
    case Setup(u, secret) => OnSetup(s, u, secret)
    case VerifyLoad(r, u, code) => OnVerifyLoad(f, s, r, u, code)
    case VerifyCommit(r, codes) => OnVerifyCommit(s, r, codes)
    case Disable(u) => OnDisable(s, u)
    case Tick(n) => s.(now := s.now + n)
  }

  /** Token ids and requests are fresh. */
  predicate Possible(s: State, e: Event) {
    && (e.Password? ==> e.jti !in s.pending)
    && (e.Decode? ==> e.req !in s.reqs)
    && (e.VerifyLoad? ==> e.req !in s.verifying)
  }

  /** A request claims within 300 seconds of decoding its token. */
  predicate Timely(s: State, e: Event) {
    e.Claim? && e.req in s.reqs ==> s.now <= s.reqs[e.req].decodedAt + 300
  }

  function Run(f: Codes, s: State, es: seq<Event>): State
    decreases |es|
  {
    if es == [] then s else Run(f, Step(f, s, es[0]), es[1..])
  }

  predicate PossibleRun(f: Codes, s: State, es: seq<Event>)
    decreases |es|
  {
    es == [] || (Possible(s, es[0]) && PossibleRun(f, Step(f, s, es[0]), es[1..]))
  }

  predicate TimelyRun(f: Codes, s: State, es: seq<Event>)
    decreases |es|
  {
    es == [] || (Timely(s, es[0]) && TimelyRun(f, Step(f, s, es[0]), es[1..]))
  }

  function Start(now: int, accounts: map<UserId, Account>): State {
    State(now, accounts, map[], map[], map[], map[], map[], map[], [], [])
  }

  // ---------- the handlers as they are written ----------

  class Server {
    var now: int
    var accounts: map<UserId, Account>
    var locks: map<UserId, ReqId>
    var pending: map<Jti, Pending>
    var used: map<Jti, int>
    var fails: map<UserId, RateLimit.Window>
    var reqs: map<ReqId, Req>
    var verifying: map<ReqId, Verifying>
    var sessions: seq<Session>
    ghost var accepted: seq<Accepted>

    ghost function View(): State reads this {
      State(now, accounts, locks, pending, used, fails, reqs, verifying, sessions, accepted)
    }

    constructor (now: int, accounts: map<UserId, Account>)
      ensures View() == Start(now, accounts)
    {
      this.now, this.accounts := now, accounts;
      locks, pending, used, fails, reqs, verifying := map[], map[], map[], map[], map[], map[];
      sessions, accepted := [], [];
    }

    method AssertNotLocked(u: UserId) returns (ok: bool)
      ensures ok <==> !Locked(View(), u)
    {
      ok := true;
      if u in fails {
        var n := if now < fails[u].until then fails[u].count else 0;
        ok := n < RateLimit.MAX_FAILS;
      }
    }

    method RecordFailure(u: UserId)
      modifies `fails
      ensures View() == Failed(old(View()), u)
    {
      var w := RateLimit.Bump(if u in fails then Some(fails[u]) else None, now, RateLimit.FAIL_WINDOW);
      fails := fails[u := w];
    }

    method AssertPendingUnused(jti: Jti) returns (ok: bool)
      ensures ok <==> !UsedLive(View(), jti)
    {
      ok := !(jti in used && now < used[jti]);
    }

    /** SET NX with the marker's time to live. */
    method ConsumePending(jti: Jti) returns (claimed: bool)
      modifies `used
      ensures claimed <==> !old(UsedLive(View(), jti))
      ensures used == if claimed then old(used)[jti := now + USED_TTL] else old(used)
    {
      claimed := !(jti in used && now < used[jti]);
      if claimed {
        used := used[jti := now + USED_TTL];
      }
    }

    /** complete_2fa from the row lock to the factor check. */
    method CheckCode(f: Codes, r: ReqId, code: string)
      requires r in reqs && reqs[r].Decoded? && reqs[r].kind.Totp? && reqs[r].jti in pending
      modifies this
      ensures View() == OnCheckTotp(f, old(View()), r, code)
    {
      var q := reqs[r];
      var u := pending[q.jti].user;
      if u in locks {
        return;
      }
      if u !in accounts || !(accounts[u].totp || accounts[u].passkey) {
        reqs := reqs - {r};
        return;
      }
      var unlocked := AssertNotLocked(u);
      var unused := AssertPendingUnused(q.jti);
      if !unlocked || !unused {
        reqs := reqs - {r};
        return;
      }
      var row := new UserRow(accounts[u]);
      var ok := row.ConsumeTotp(f, now, Stripped(code));
      var step: Option<int> := None;
      if ok {
        step := row.lastStep;
      } else {
        ok := row.UseBackup(f.hash(code));
      }
      if !ok {
        reqs := reqs - {r};
        RecordFailure(u);
        return;
      }
      locks := locks[u := r];
      reqs := reqs[r := Checked(q.jti, Totp, q.decodedAt,
                                Account(row.secret, row.totp, row.passkey, row.lastStep, row.backup), step)];
    }

    /** totp_verify up to its commit: the code is checked on the row as read. */
    method LoadVerify(f: Codes, r: ReqId, u: UserId, code: string) returns (ok: bool)
      requires u in accounts
      modifies `verifying
      ensures View() == OnVerifyLoad(f, old(View()), r, u, code)
      ensures ok <==> TotpStep(f, accounts[u], now, Trimmed(code)).Some?
    {
      var a := accounts[u];
      var row := new UserRow(a);
      ok := row.ConsumeTotp(f, now, Trimmed(code));
      if ok {
        verifying := verifying[r := Verifying(u, a.totp, a.backup != [], a.lastStep, row.lastStep.value)];
      }
    }

    /** ... and its commit. */
    method CommitVerify(r: ReqId, codes: seq<Backup>)
      requires r in verifying && verifying[r].user in accounts && verifying[r].user !in locks
      modifies this
      ensures View() == OnVerifyCommit(old(View()), r, codes)
    {
      var v := verifying[r];
      var a := accounts[v.user];
      if !v.totp { a := a.(totp := true); }
      if !v.hasCodes { a := a.(backup := codes); }
      accounts := accounts[v.user := a.(lastStep := Some(v.step))];
      verifying := verifying - {r};
      accepted := accepted + [Accepted(v.user, v.step)];
    }

    /** The claim, and then either rollback or commit with a fresh session. */
    method ClaimAndIssue(r: ReqId) returns (issued: bool)
      requires r in reqs && reqs[r].Checked? && reqs[r].jti in pending
      modifies this
      ensures View() == OnClaim(old(View()), r)
      ensures issued <==> !old(UsedLive(View(), reqs[r].jti))
    {
      ghost var s := View();
      var q := reqs[r];
      var u := pending[q.jti].user;
      reqs := reqs - {r};
      issued := ConsumePending(q.jti);
      if q.kind.Totp? {
        locks := locks - {u};
      }
      assert View() == s.(reqs := reqs, locks := locks, used := used);
      if issued {
        Commit(q, u);
      }
    }

    /** The transaction commits and _login_device issues the session. */
    method Commit(q: Req, u: UserId)
      requires q.Checked?
      modifies this
      ensures View() == Issued(old(View()), q, u)
    {
      fails := fails - {u};
      if q.kind.Totp? {
        accounts := accounts[u := q.after];
      }
      sessions := sessions + [Session(q.jti, u, now, q.step)];
      if q.step.Some? {
        accepted := accepted + [Accepted(u, q.step.value)];
      }
    }
  }

  // ---------- one pending sign-in, at most one session ----------

  /** Requests come from tokens that were decoded in time; every session's token has a used
      marker set no earlier than the token was minted; no token has two sessions. */
  ghost predicate Claims(s: State) {
    && (forall j :: j in s.pending ==> s.pending[j].iat <= s.now)
    && (forall r :: r in s.reqs ==> InTime(s.pending, s.reqs[r]))
    && (forall i :: 0 <= i < |s.sessions| ==> Backed(s.pending, s.used, s.sessions[i]))
    && (forall i, j :: 0 <= i < j < |s.sessions| ==> s.sessions[i].jti != s.sessions[j].jti)
  }

  predicate InTime(pending: map<Jti, Pending>, q: Req) {
    q.jti in pending && q.decodedAt < pending[q.jti].iat + PENDING_LIFETIME
  }

  predicate Backed(pending: map<Jti, Pending>, used: map<Jti, int>, x: Session) {
    x.jti in pending && x.jti in used && used[x.jti] >= pending[x.jti].iat + USED_TTL
  }

  lemma ClaimKeepsClaims(s: State, r: ReqId)
    requires Claims(s) && Timely(s, Claim(r))
    ensures Claims(OnClaim(s, r))
  {
    var t := OnClaim(s, r);
    if r in s.reqs && s.reqs[r].Checked? && !UsedLive(s, s.reqs[r].jti) {
      assert InTime(s.pending, s.reqs[r]);
      var jti := s.reqs[r].jti;
      forall i | 0 <= i < |s.sessions| ensures s.sessions[i].jti != jti && Backed(t.pending, t.used, s.sessions[i]) {
        assert Backed(s.pending, s.used, s.sessions[i]);
      }
    }
  }

  /** What a factor check can change: its own request, the row lock and the failure counter. */
  lemma CheckTotpShape(f: Codes, s: State, r: ReqId, code: string)
    ensures var t := OnCheckTotp(f, s, r, code);
            && t == s.(fails := t.fails, reqs := t.reqs, locks := t.locks)
            && (forall x :: x in t.reqs && x != r ==> x in s.reqs && t.reqs[x] == s.reqs[x])
            && (forall u :: u in s.locks ==> u in t.locks && t.locks[u] == s.locks[u])
            && (r in t.reqs ==>
                  r in s.reqs && t.reqs[r].jti == s.reqs[r].jti && t.reqs[r].decodedAt == s.reqs[r].decodedAt)
            && (r in t.reqs && t.reqs[r] != s.reqs[r] ==>
                  && t.reqs[r].Checked? && t.reqs[r].kind.Totp? && s.reqs[r].jti in s.pending
                  && var u := s.pending[s.reqs[r].jti].user;
                     && u in s.accounts && u in t.locks && t.locks[u] == r
                     && TotpOrBackup(f, s.accounts[u], s.now, code) == Some((t.reqs[r].after, t.reqs[r].step)))
  {}

  lemma CheckPasskeyShape(s: State, r: ReqId, ok: bool)
    ensures var t := OnCheckPasskey(s, r, ok);
            && t == s.(fails := t.fails, reqs := t.reqs)
            && (forall x :: x in t.reqs && x != r ==> x in s.reqs && t.reqs[x] == s.reqs[x])
            && (r in t.reqs ==>
                  r in s.reqs && t.reqs[r].jti == s.reqs[r].jti && t.reqs[r].decodedAt == s.reqs[r].decodedAt)
            && (r in t.reqs && t.reqs[r] != s.reqs[r] ==>
                  && t.reqs[r].Checked? && t.reqs[r].kind.Passkey? && t.reqs[r].step.None?
                  && s.reqs[r].jti in s.pending && s.pending[s.reqs[r].jti].user in s.accounts)
  {}

  lemma SameTokensKeepClaims(s: State, t: State)
    requires Claims(s) && t == s.(fails := t.fails, reqs := t.reqs, locks := t.locks)
    requires forall x :: x in t.reqs ==>
               x in s.reqs && t.reqs[x].jti == s.reqs[x].jti && t.reqs[x].decodedAt == s.reqs[x].decodedAt
    ensures Claims(t)
  {
    forall x | x in t.reqs ensures InTime(t.pending, t.reqs[x]) { assert InTime(s.pending, s.reqs[x]); }
  }

  lemma PasswordKeepsClaims(f: Codes, s: State, u: UserId, jti: Jti)
    requires Claims(s) && jti !in s.pending
    ensures Claims(Step(f, s, Password(u, jti)))
  {
    var t := Step(f, s, Password(u, jti));
    forall x | x in t.reqs ensures InTime(t.pending, t.reqs[x]) { assert InTime(s.pending, s.reqs[x]); }
    forall i | 0 <= i < |t.sessions| ensures Backed(t.pending, t.used, t.sessions[i]) {
      assert Backed(s.pending, s.used, s.sessions[i]);
    }
  }

  lemma StepKeepsClaims(f: Codes, s: State, e: Event)
    requires Claims(s) && Possible(s, e) && Timely(s, e)
    ensures Claims(Step(f, s, e))
  {
    match e
    case Password(u, jti) => PasswordKeepsClaims(f, s, u, jti);
    case Decode(r, jti, kind) =>
    case CheckTotp(r, code) => CheckTotpShape(f, s, r, code); SameTokensKeepClaims(s, Step(f, s, e));
    case CheckPasskey(r, ok) => CheckPasskeyShape(s, r, ok); SameTokensKeepClaims(s, Step(f, s, e));
    case Claim(r) => ClaimKeepsClaims(s, r);
    case Setup(u, secret) =>
    case VerifyLoad(r, u, code) =>
    case VerifyCommit(r, codes) =>
    case Disable(u) =>
    case Tick(n) =>
  }

  lemma {:induction false} RunKeepsClaims(f: Codes, s: State, es: seq<Event>)
    requires Claims(s) && PossibleRun(f, s, es) && TimelyRun(f, s, es)
    ensures Claims(Run(f, s, es))
    decreases |es|
  {
    if es != [] {
      StepKeepsClaims(f, s, es[0]);
      RunKeepsClaims(f, Step(f, s, es[0]), es[1..]);
    }
  }

  /** Whatever the interleaving of TOTP and passkey completions, one pending token yields at
      most one session, as long as every request claims within 300 s of decoding. */
  lemma OneSessionPerPendingLogin(f: Codes, now: int, accounts: map<UserId, Account>, es: seq<Event>, i: nat, j: nat)
    requires PossibleRun(f, Start(now, accounts), es) && TimelyRun(f, Start(now, accounts), es)
    requires i < j < |Run(f, Start(now, accounts), es).sessions|
    ensures var xs := Run(f, Start(now, accounts), es).sessions; xs[i].jti != xs[j].jti
  {
    RunKeepsClaims(f, Start(now, accounts), es);
  }

  /** A claim issues a session exactly when no live used marker stands in its way; so a
      request that sleeps past the marker's 600 s would be issued a second one. */
  lemma ClaimIssuesIff(s: State, r: ReqId)
    requires r in s.reqs && s.reqs[r].Checked? && s.reqs[r].jti in s.pending
    ensures |OnClaim(s, r).sessions| > |s.sessions| <==> s.reqs[r].jti !in s.used || s.used[s.reqs[r].jti] <= s.now
  {}

  // ---------- TOTP steps ----------

  /** What every step keeps, whatever the interleaving. */
  ghost predicate Sound(s: State) {
    && (forall r :: r in s.reqs ==> Ready(s.pending, s.accounts, s.locks, r, s.reqs[r]))
    && (forall r :: r in s.verifying ==> NewerThanRead(s.accounts, s.verifying[r]))
  }

  /** What holds as long as no enrolment has committed a stale step. */
  ghost predicate InOrder(accounts: map<UserId, Account>, accepted: seq<Accepted>, verifying: map<ReqId, Verifying>) {
    && (forall i :: 0 <= i < |accepted| ==> Covered(accounts, accepted[i]))
    && Increasing(accepted)
    && (forall r :: r in verifying ==> Current(accounts, accepted, verifying[r]))
  }

  ghost predicate StepsInv(s: State) { Sound(s) && InOrder(s.accounts, s.accepted, s.verifying) }

  predicate Increasing(xs: seq<Accepted>) {
    forall i, j :: 0 <= i < j < |xs| && xs[i].user == xs[j].user ==> xs[i].step < xs[j].step
  }

  predicate Covered(accounts: map<UserId, Account>, x: Accepted) {
    x.user in accounts && accounts[x.user].lastStep.Some? && x.step <= accounts[x.user].lastStep.value
  }

  /** An open TOTP transaction holds the lock and moves the last step only forward. */
  predicate Ready(pending: map<Jti, Pending>, accounts: map<UserId, Account>, locks: map<UserId, ReqId>, r: ReqId,
      q: Req) {
    q.Checked? ==>
      && q.jti in pending
      && var u := pending[q.jti].user;
         && u in accounts
         && (q.kind.Passkey? ==> q.step.None?)
         && (q.kind.Totp? ==>
               && u in locks && locks[u] == r
               && (if q.step.Some?
                   then q.after.lastStep == q.step && Newer(accounts[u], q.step.value)
                   else q.after.lastStep == accounts[u].lastStep))
  }

  /** A pending enrolment step is newer than what was read. */
  predicate NewerThanRead(accounts: map<UserId, Account>, v: Verifying) {
    v.user in accounts && (v.lastStep.Some? ==> v.lastStep.value < v.step)
  }

  /** What an enrolment read is still stored unless a step has been accepted since. */
  predicate Current(accounts: map<UserId, Account>, accepted: seq<Accepted>, v: Verifying) {
    v.user in accounts && (accounts[v.user].lastStep == v.lastStep ||
        Recorded(accounts[v.user].lastStep, accepted, v.user))
  }

  predicate Recorded(step: Option<int>, accepted: seq<Accepted>, u: UserId) {
    step.Some? && Accepted(u, step.value) in accepted
  }

  predicate Newer(a: Account, step: int) { a.lastStep.Some? ==> a.lastStep.value < step }

  /** Accepting a newer step for u keeps the history increasing and covered. */
  lemma AcceptKeepsOrder(xs: seq<Accepted>, accounts: map<UserId, Account>, u: UserId, a: Account, step: int)
    requires u in accounts && Newer(accounts[u], step) && a.lastStep == Some(step)
    requires Increasing(xs) && forall i :: 0 <= i < |xs| ==> Covered(accounts, xs[i])
    ensures var ys := xs + [Accepted(u, step)];
            Increasing(ys) && forall i :: 0 <= i < |ys| ==> Covered(accounts[u := a], ys[i])
  {
    var ys := xs + [Accepted(u, step)];
    forall i | 0 <= i < |ys| ensures Covered(accounts[u := a], ys[i]) {
      if i < |xs| { assert Covered(accounts, xs[i]); }
    }
    forall i, j | 0 <= i < j < |ys| && ys[i].user == ys[j].user ensures ys[i].step < ys[j].step {
      assert Covered(accounts, xs[i]);
    }
  }

  // ---------- what every step keeps ----------

  /** A change to a user nobody has locked disturbs no transaction. */
  lemma UnlockedChange(s: State, u: UserId, a: Account)
    requires Sound(s) && u in s.accounts && u !in s.locks
    ensures Sound(s.(accounts := s.accounts[u := a]))
  {
    forall r | r in s.reqs ensures Ready(s.pending, s.accounts[u := a], s.locks, r, s.reqs[r]) {
      assert Ready(s.pending, s.accounts, s.locks, r, s.reqs[r]);
    }
  }

  lemma ClaimKeepsSound(s: State, r: ReqId)
    requires Sound(s)
    ensures Sound(OnClaim(s, r))
  {
    var t := OnClaim(s, r);
    if r in s.reqs && s.reqs[r].Checked? && s.reqs[r].jti in s.pending {
      assert Ready(s.pending, s.accounts, s.locks, r, s.reqs[r]);
      forall x | x in t.reqs ensures Ready(t.pending, t.accounts, t.locks, x, t.reqs[x]) {
        assert Ready(s.pending, s.accounts, s.locks, x, s.reqs[x]);
      }
    }
  }

  lemma VerifyKeepsSound(f: Codes, s: State, r: ReqId, u: UserId, code: string, codes: seq<Backup>)
    requires Sound(s)
    ensures Sound(OnVerifyLoad(f, s, r, u, code)) && Sound(OnVerifyCommit(s, r, codes))
  {
    if r in s.verifying && s.verifying[r].user !in s.locks {
      var v := s.verifying[r];
      assert NewerThanRead(s.accounts, v);
      UnlockedChange(s, v.user, Enrol(s.accounts[v.user], v, codes));
    }
  }

  lemma CheckKeepsSound(s: State, t: State, r: ReqId)
    requires Sound(s) && t == s.(fails := t.fails, reqs := t.reqs, locks := t.locks)
    requires forall x :: x in t.reqs && x != r ==> x in s.reqs && t.reqs[x] == s.reqs[x]
    requires forall u :: u in s.locks ==> u in t.locks && t.locks[u] == s.locks[u]
    requires r in t.reqs ==> Ready(t.pending, t.accounts, t.locks, r, t.reqs[r])
    ensures Sound(t)
  {
    forall x | x in t.reqs ensures Ready(t.pending, t.accounts, t.locks, x, t.reqs[x]) {
      if x != r { assert Ready(s.pending, s.accounts, s.locks, x, s.reqs[x]); }
    }
  }

  lemma CheckTotpKeepsSound(f: Codes, s: State, r: ReqId, code: string)
    requires Sound(s)
    ensures Sound(OnCheckTotp(f, s, r, code))
  {
    CheckTotpShape(f, s, r, code);
    if r in s.reqs { assert Ready(s.pending, s.accounts, s.locks, r, s.reqs[r]); }
    CheckKeepsSound(s, OnCheckTotp(f, s, r, code), r);
  }

  lemma CheckPasskeyKeepsSound(s: State, r: ReqId, ok: bool)
    requires Sound(s)
    ensures Sound(OnCheckPasskey(s, r, ok))
  {
    CheckPasskeyShape(s, r, ok);
    if r in s.reqs { assert Ready(s.pending, s.accounts, s.locks, r, s.reqs[r]); }
    CheckKeepsSound(s, OnCheckPasskey(s, r, ok), r);
  }

  lemma DecodeKeepsSound(f: Codes, s: State, e: Event)
    requires Sound(s) && Possible(s, e) && (e.Decode? || e.Password? || e.Tick?)
    ensures Sound(Step(f, s, e))
  {
    var t := Step(f, s, e);
    forall x | x in t.reqs ensures Ready(t.pending, t.accounts, t.locks, x, t.reqs[x]) {
      if x in s.reqs { assert Ready(s.pending, s.accounts, s.locks, x, s.reqs[x]); }
    }
  }

  lemma StepKeepsSound(f: Codes, s: State, e: Event)
    requires Sound(s) && Possible(s, e)
    ensures Sound(Step(f, s, e))
  {
    match e
    case CheckTotp(r, code) => CheckTotpKeepsSound(f, s, r, code);
    case CheckPasskey(r, ok) => CheckPasskeyKeepsSound(s, r, ok);
    case Claim(r) => ClaimKeepsSound(s, r);
    case VerifyLoad(r, u, code) => VerifyKeepsSound(f, s, r, u, code, []);
    case VerifyCommit(r, codes) => VerifyKeepsSound(f, s, r, 0, "", codes);
    case Setup(u, _) => if Step(f, s, e) != s { UnlockedChange(s, u, Step(f, s, e).accounts[u]); }
    case Disable(u) => if Step(f, s, e) != s { UnlockedChange(s, u, Step(f, s, e).accounts[u]); }
    case _ => DecodeKeepsSound(f, s, e);
  }

  lemma {:induction false} RunKeepsSound(f: Codes, s: State, es: seq<Event>)
    requires Sound(s) && PossibleRun(f, s, es)
    ensures Sound(Run(f, s, es))
    decreases |es|
  {
    if es != [] {
      StepKeepsSound(f, s, es[0]);
      RunKeepsSound(f, Step(f, s, es[0]), es[1..]);
    }
  }

  // ---------- the order of accepted steps ----------

  /** Whatever is accepted is recorded, so pending enrolments stay current. */
  lemma StayCurrent(s: State, u: UserId, a: Account, accepted: seq<Accepted>)
    requires InOrder(s.accounts, s.accepted, s.verifying) && u in s.accounts && s.accepted <= accepted
    requires a.lastStep == s.accounts[u].lastStep || Recorded(a.lastStep, accepted, u)
    ensures forall r :: r in s.verifying ==> Current(s.accounts[u := a], accepted, s.verifying[r])
  {
    forall r | r in s.verifying ensures Current(s.accounts[u := a], accepted, s.verifying[r]) {
      assert Current(s.accounts, s.accepted, s.verifying[r]);
    }
  }

  /** Changing columns other than the last step. */
  lemma ColumnsKeepOrder(s: State, u: UserId, a: Account)
    requires InOrder(s.accounts, s.accepted, s.verifying) && u in s.accounts && a.lastStep == s.accounts[u].lastStep
    ensures InOrder(s.accounts[u := a], s.accepted, s.verifying)
  {
    StayCurrent(s, u, a, s.accepted);
    forall i | 0 <= i < |s.accepted| ensures Covered(s.accounts[u := a], s.accepted[i]) {
      assert Covered(s.accounts, s.accepted[i]);
    }
  }

  /** Accepting a step newer than the stored one. */
  lemma AcceptKeepsInOrder(s: State, u: UserId, a: Account, step: int)
    requires InOrder(s.accounts, s.accepted, s.verifying)
    requires u in s.accounts && Newer(s.accounts[u], step) && a.lastStep == Some(step)
    ensures InOrder(s.accounts[u := a], s.accepted + [Accepted(u, step)], s.verifying)
  {
    AcceptKeepsOrder(s.accepted, s.accounts, u, a, step);
    StayCurrent(s, u, a, s.accepted + [Accepted(u, step)]);
  }

  lemma ClaimKeepsOrder(s: State, r: ReqId)
    requires StepsInv(s)
    ensures var t := OnClaim(s, r); InOrder(t.accounts, t.accepted, t.verifying)
  {
    if r in s.reqs && s.reqs[r].Checked? && s.reqs[r].jti in s.pending && !UsedLive(s, s.reqs[r].jti) {
      var q := s.reqs[r];
      assert Ready(s.pending, s.accounts, s.locks, r, q);
      if q.step.Some? {
        AcceptKeepsInOrder(s, s.pending[q.jti].user, q.after, q.step.value);
      } else if q.kind.Totp? {
        ColumnsKeepOrder(s, s.pending[q.jti].user, q.after);
      }
    }
  }

  /** The commit of an enrolment writes a step newer than the one stored by then. */
  predicate FreshCommit(s: State, e: Event) {
    e.VerifyCommit? && e.req in s.verifying && s.verifying[e.req].user in s.accounts &&
        s.verifying[e.req].user !in s.locks ==>
      Newer(s.accounts[s.verifying[e.req].user], s.verifying[e.req].step)
  }

  lemma VerifyCommitKeepsOrder(s: State, r: ReqId, codes: seq<Backup>)
    requires StepsInv(s) && FreshCommit(s, VerifyCommit(r, codes))
    ensures var t := OnVerifyCommit(s, r, codes); InOrder(t.accounts, t.accepted, t.verifying)
  {
    if r in s.verifying && s.verifying[r].user !in s.locks {
      var v := s.verifying[r];
      assert NewerThanRead(s.accounts, v);
      AcceptKeepsInOrder(s, v.user, Enrol(s.accounts[v.user], v, codes), v.step);
    }
  }

  /** A stale commit puts the stored step back, behind a step already accepted. */
  lemma StaleCommitBreaksOrder(s: State, r: ReqId, codes: seq<Backup>)
    requires StepsInv(s) && !FreshCommit(s, VerifyCommit(r, codes))
    ensures !Increasing(OnVerifyCommit(s, r, codes).accepted)
  {
    var v := s.verifying[r];
    assert NewerThanRead(s.accounts, v) && Current(s.accounts, s.accepted, v);
    var last := s.accounts[v.user].lastStep;
    var i :| 0 <= i < |s.accepted| && s.accepted[i] == Accepted(v.user, last.value);
    var ys := OnVerifyCommit(s, r, codes).accepted;
    assert ys[i] == s.accepted[i] && ys[|s.accepted|] == Accepted(v.user, v.step);
  }

  lemma StepKeepsSteps(f: Codes, s: State, e: Event)
    requires StepsInv(s) && Possible(s, e) && FreshCommit(s, e)
    ensures StepsInv(Step(f, s, e))
  {
    StepKeepsSound(f, s, e);
    match e
    case CheckTotp(r, code) => CheckTotpShape(f, s, r, code);
    case CheckPasskey(r, ok) => CheckPasskeyShape(s, r, ok);
    case Claim(r) => ClaimKeepsOrder(s, r);
    case VerifyCommit(r, codes) => VerifyCommitKeepsOrder(s, r, codes);
    case Setup(u, _) => if Step(f, s, e) != s { ColumnsKeepOrder(s, u, Step(f, s, e).accounts[u]); }
    case Disable(u) => if Step(f, s, e) != s { ColumnsKeepOrder(s, u, Step(f, s, e).accounts[u]); }
    case _ =>
  }

  predicate FreshCommits(f: Codes, s: State, es: seq<Event>)
    decreases |es|
  {
    es == [] || (FreshCommit(s, es[0]) && FreshCommits(f, Step(f, s, es[0]), es[1..]))
  }

  lemma StepGrows(f: Codes, s: State, e: Event)
    ensures s.accepted <= Step(f, s, e).accepted
  {
    match e
    case CheckTotp(r, code) => CheckTotpShape(f, s, r, code);
    case CheckPasskey(r, ok) => CheckPasskeyShape(s, r, ok);
    case _ =>
  }

  lemma {:induction false} AcceptedGrows(f: Codes, s: State, es: seq<Event>)
    ensures s.accepted <= Run(f, s, es).accepted
    decreases |es|
  {
    if es != [] {
      StepGrows(f, s, es[0]);
      AcceptedGrows(f, Step(f, s, es[0]), es[1..]);
    }
  }

  lemma {:induction false} IncreasingIffFresh(f: Codes, s: State, es: seq<Event>)
    requires StepsInv(s) && PossibleRun(f, s, es)
    ensures Increasing(Run(f, s, es).accepted) <==> FreshCommits(f, s, es)
    decreases |es|
  {
    if es != [] {
      var t := Step(f, s, es[0]);
      if FreshCommit(s, es[0]) {
        StepKeepsSteps(f, s, es[0]);
        IncreasingIffFresh(f, t, es[1..]);
      } else {
        StaleCommitBreaksOrder(s, es[0].req, es[0].codes);
        AcceptedGrows(f, t, es[1..]);
      }
    }
  }

  /** Over every run, the time steps accepted for one user strictly increase, sign-ins and
      enrolments together, even across a new secret - exactly when every enrolment commits a
      step newer than the one stored by then, which it does not check again. */
  lemma AcceptedStepsIncrease(f: Codes, now: int, accounts: map<UserId, Account>, es: seq<Event>)
    requires PossibleRun(f, Start(now, accounts), es)
    ensures Increasing(Run(f, Start(now, accounts), es).accepted) <==> FreshCommits(f, Start(now, accounts), es)
  {
    IncreasingIffFresh(f, Start(now, accounts), es);
  }

  /** In every run, no acceptance between an enrolment's read and its commit is enough. */
  lemma UntouchedCommitIsFresh(f: Codes, now: int, accounts: map<UserId, Account>, es: seq<Event>, r: ReqId,
      codes: seq<Backup>)
    requires PossibleRun(f, Start(now, accounts), es)
    requires var s := Run(f, Start(now, accounts), es);
             r in s.verifying && s.verifying[r].user in s.accounts
             && s.accounts[s.verifying[r].user].lastStep == s.verifying[r].lastStep
    ensures FreshCommit(Run(f, Start(now, accounts), es), VerifyCommit(r, codes))
  {
    RunKeepsSound(f, Start(now, accounts), es);
    var s := Run(f, Start(now, accounts), es);
    assert NewerThanRead(s.accounts, s.verifying[r]);
  }

  lemma Unroll(f: Codes, s: State, es: seq<Event>, i: nat)
    requires i < |es|
    ensures Run(f, s, es[i..]) == Run(f, Step(f, s, es[i]), es[i + 1..])
  {
    assert es[i..][1..] == es[i + 1..];
  }

  /** An enrolment reads the row, a sign-in with the next code commits, the enrolment commits. */
  function Straddle(u: UserId, older: string, newer: string): seq<Event> {
    [Password(u, 0), Decode(0, 0, Totp), VerifyLoad(0, u, older)] + StraddleEnd(newer)
  }

  function StraddleEnd(newer: string): seq<Event> { [CheckTotp(0, newer), Claim(0), VerifyCommit(0, [])] }

  function Halfway(now: int, u: UserId, a: Account, x: int): State {
    State(now, map[u := a], map[], map[0 := Pending(u, now)], map[], map[], map[0 := Decoded(0, Totp, now)],
          map[0 := Verifying(u, a.totp, a.backup != [], a.lastStep, x)], [], [])
  }

  lemma StraddleBegins(f: Codes, now: int, u: UserId, a: Account, older: string, newer: string)
    requires a.passkey && TotpStep(f, a, now, Trimmed(older)).Some?
    ensures Run(f, Start(now, map[u := a]), Straddle(u, older, newer)) ==
            Run(f, Halfway(now, u, a, TotpStep(f, a, now, Trimmed(older)).value), StraddleEnd(newer))
  {
    var es, s0 := Straddle(u, older, newer), Start(now, map[u := a]);
    assert es[0..] == es;
    Unroll(f, s0, es, 0); var s1 := Step(f, s0, es[0]);
    Unroll(f, s1, es, 1); var s2 := Step(f, s1, es[1]);
    Unroll(f, s2, es, 2);
    assert Step(f, s2, es[2]) == Halfway(now, u, a, TotpStep(f, a, now, Trimmed(older)).value);
    assert es[3..] == StraddleEnd(newer);
  }

  /** The sign-in, given what it does to the row. */
  lemma StraddleSignsIn(f: Codes, s: State, now: int, u: UserId, a: Account, newer: string, x: int, y: int)
    requires s == Halfway(now, u, a, x) && a.passkey && TotpStep(f, a, now, Stripped(newer)) == Some(y)
    ensures var t := Step(f, Step(f, s, CheckTotp(0, newer)), Claim(0));
            t.accepted == [Accepted(u, y)] && t.verifying == s.verifying && t.locks == map[]
            && t.accounts == map[u := a.(lastStep := Some(y))]
  {
    var c := Step(f, s, CheckTotp(0, newer));
    assert c == s.(reqs := map[0 := Checked(0, Totp, now, a.(lastStep := Some(y)), Some(y))], locks := map[u := 0]);
    assert map[u := 0] - {u} == map[];
  }

  lemma StraddleEnds(f: Codes, s: State, newer: string)
    ensures Run(f, s, StraddleEnd(newer)) ==
            Step(f, Step(f, Step(f, s, CheckTotp(0, newer)), Claim(0)), VerifyCommit(0, []))
  {
    var es := StraddleEnd(newer);
    assert es[0..] == es && es[3..] == [];
    Unroll(f, s, es, 0);
    Unroll(f, Step(f, s, es[0]), es, 1);
    Unroll(f, Step(f, Step(f, s, es[0]), es[1]), es, 2);
  }

  lemma OutOfOrder(u: UserId, y: int, x: int)
    requires x <= y
    ensures !Increasing([Accepted(u, y), Accepted(u, x)])
  {
    var xs := [Accepted(u, y), Accepted(u, x)];
    assert xs[0].user == xs[1].user && xs[0].step >= xs[1].step;
  }

  /** It happens: for any passkey account with an authenticator secret set up, and codes of two
      steps in the window, that run leaves the older step stored, so the newer code would pass again. */
  lemma StraddlingEnrolmentGoesBack(f: Codes, now: int, u: UserId, a: Account, older: string, newer: string)
    requires a.passkey && TotpStep(f, a, now, Trimmed(older)).Some? && TotpStep(f, a, now, Stripped(newer)).Some?
    requires TotpStep(f, a, now, Trimmed(older)).value < TotpStep(f, a, now, Stripped(newer)).value
    ensures var t := Run(f, Start(now, map[u := a]), Straddle(u, older, newer));
            && !Increasing(t.accepted)
            && u in t.accounts && t.accounts[u].lastStep == TotpStep(f, a, now, Trimmed(older))
  {
    var x, y := TotpStep(f, a, now, Trimmed(older)).value, TotpStep(f, a, now, Stripped(newer)).value;
    var es, s := StraddleEnd(newer), Halfway(now, u, a, x);
    StraddleBegins(f, now, u, a, older, newer);
    StraddleSignsIn(f, s, now, u, a, newer, x, y);
    StraddleEnds(f, s, newer);
    var s2 := Step(f, Step(f, s, CheckTotp(0, newer)), Claim(0));
    assert Step(f, s2, VerifyCommit(0, [])).accepted == [Accepted(u, y), Accepted(u, x)];
    OutOfOrder(u, y, x);
  }

  /** One step moves the stored last step of u only together with an accepted step: one that a
      session just issued to u was signed in with, or one of an enrolment code. */
  ghost predicate MovesWithAcceptance(s: State, e: Event, t: State, u: UserId) {
    u in s.accounts ==>
      && u in t.accounts
      && (t.accounts[u].lastStep != s.accounts[u].lastStep ==>
            && t.accounts[u].lastStep.Some?
            && t.accepted == s.accepted + [Accepted(u, t.accounts[u].lastStep.value)]
            && if e.Claim?
               then |t.sessions| == |s.sessions| + 1
                    && t.sessions[|s.sessions|].user == u
                    && t.sessions[|s.sessions|].step == t.accounts[u].lastStep
               else e.VerifyCommit? && e.req in s.verifying && s.verifying[e.req].user == u && t.sessions == s.sessions)
  }

  lemma StepMovesWithAcceptance(f: Codes, s: State, e: Event, u: UserId)
    requires Sound(s) && Possible(s, e)
    ensures MovesWithAcceptance(s, e, Step(f, s, e), u)
  {
    match e
    case CheckTotp(r, code) => CheckTotpShape(f, s, r, code);
    case CheckPasskey(r, ok) => CheckPasskeyShape(s, r, ok);
    case Claim(r) => if r in s.reqs { assert Ready(s.pending, s.accounts, s.locks, r, s.reqs[r]); }
    case _ =>
  }

  /** After any run, stale enrolments included, the stored last step moves only when a session is
      issued with that step or an enrolment code is committed; a completion that loses its
      claim leaves it alone. */
  lemma LastStepMovesOnlyWithAcceptance(
    f: Codes, now: int, accounts: map<UserId, Account>, es: seq<Event>, e: Event, u: UserId)
    requires PossibleRun(f, Start(now, accounts), es) && Possible(Run(f, Start(now, accounts), es), e)
    ensures var s := Run(f, Start(now, accounts), es); MovesWithAcceptance(s, e, Step(f, s, e), u)
  {
    RunKeepsSound(f, Start(now, accounts), es);
    StepMovesWithAcceptance(f, Run(f, Start(now, accounts), es), e, u);
  }

  /** Once a step has been accepted, a code is accepted later exactly when the first step of the
      later window that has this code is newer: never for the accepted step or an older one. */
  lemma ReplayIsRefused(f: Codes, a: Account, now: int, code: string, later: int, again: string)
    requires TotpStep(f, a, now, code).Some? && IsDigits(again)
    ensures var done := TotpStep(f, a, now, code);
            var k := later / STEP_SECONDS;
            TotpStep(f, a.(lastStep := done), later, again).Some? <==>
            exists m :: && k - 1 <= m <= k + 1 && done.value < m && f.at(a.secret.value, m) == again
                        && forall j :: k - 1 <= j < m ==> f.at(a.secret.value, j) != again
  {
    var k := later / STEP_SECONDS;
    forall m ensures FirstMatch(f, a.secret.value, later, again) == Some(m) <==>
                     && k - 1 <= m <= k + 1 && f.at(a.secret.value, m) == again
                     && forall j :: k - 1 <= j < m ==> f.at(a.secret.value, j) != again
    {
      FirstMatchIsLeast(f, a.secret.value, later, again, m);
    }
    var first := FirstMatch(f, a.secret.value, later, again);
    if first.Some? { assert f.at(a.secret.value, first.value) == again; }
  }
}
