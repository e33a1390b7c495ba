/** What a completed sign-in presupposes, over every run of the second-factor protocol and in the
    rows' own columns: which codes and assertions get through a check, what a refusal costs, and that
    every session rests on such a check. */
module SignIn {
  import opened Common
  import opened SecondFactor
  import RateLimit

  // ---------- which codes are good ----------

  /** Spaces and dashes go, everything else stays in place. */
  lemma {:induction false} StrippedJoins(a: string, b: string)
    ensures Stripped(a + b) == Stripped(a) + Stripped(b)
  {
    if a == "" {
      assert a + b == b;
    } else {
      var head := if a[0] == ' ' || a[0] == '-' then "" else [a[0]];
      StrippedJoins(a[1..], b);
      assert (a + b)[1..] == a[1..] + b && (a + b)[0] == a[0];
      assert Stripped(a + b) == head + (Stripped(a[1..]) + Stripped(b));
      assert head + (Stripped(a[1..]) + Stripped(b)) == (head + Stripped(a[1..])) + Stripped(b);
    }
  }

  lemma StrippedChar(c: char)
    ensures Stripped([c]) == if c == ' ' || c == '-' then "" else [c]
  {
    assert Stripped("") == "";
  }

  /** Blanks go at both ends only. */
  lemma {:induction false} TrimmedMeans(code: string) returns (before: string, after: string)
    ensures code == before + Trimmed(code) + after
    ensures forall c :: c in before || c in after ==> c in {' ', '\t', '\n', '\r'}
    ensures var t := Trimmed(code);
            t != "" ==> t[0] !in {' ', '\t', '\n', '\r'} && t[|t| - 1] !in {' ', '\t', '\n', '\r'}
    decreases |code|
  {
    before, after := "", "";
    if code != "" && Blank(code[0]) {
      before, after := TrimmedMeans(code[1..]);
      before := [code[0]] + before;
    } else if code != "" && Blank(code[|code| - 1]) {
      before, after := TrimmedMeans(code[..|code| - 1]);
      after := after + [code[|code| - 1]];
    }
  }

  /** Step m is the first of the previous, the current and the next 30 seconds whose code this is. */
  predicate FirstOf(f: Codes, secret: Secret, now: int, code: string, m: int) {
    && now / 30 - 1 <= m <= now / 30 + 1
    && f.at(secret, m) == code
    && forall k :: now / 30 - 1 <= k < m ==> f.at(secret, k) != code
  }

  /** An authenticator code of a step newer than any accepted before. */
  ghost predicate FreshTotp(f: Codes, a: Account, now: int, code: string) {
    && a.secret.Some?
    && code != "" && (forall i :: 0 <= i < |code| ==> '0' <= code[i] <= '9')
    && exists m :: FirstOf(f, a.secret.value, now, code, m) && (a.lastStep.Some? ==> a.lastStep.value < m)
  }

  /** A backup code that has not been used. */
  predicate FreshBackup(f: Codes, a: Account, code: string) {
    exists i :: 0 <= i < |a.backup| && !a.backup[i].used && a.backup[i].hash == f.hash(code)
  }

  ghost predicate GoodCode(f: Codes, a: Account, now: int, typed: string) {
    FreshTotp(f, a, now, Stripped(typed)) || FreshBackup(f, a, typed)
  }

  lemma FreshTotpMeans(f: Codes, a: Account, now: int, code: string)
    ensures FreshTotp(f, a, now, code) <==> TotpStep(f, a, now, code).Some?
    ensures forall m :: TotpStep(f, a, now, code) == Some(m) ==>
              FirstOf(f, a.secret.value, now, code, m) && (a.lastStep.Some? ==> a.lastStep.value < m)
  {
    if a.secret.Some? {
      var secret := a.secret.value;
      forall m ensures FirstMatch(f, secret, now, code) == Some(m) <==> FirstOf(f, secret, now, code, m) {
        FirstMatchIsLeast(f, a.secret.value, now, code, m);
      }
    }
  }

  lemma {:induction false} FreshBackupMeans(codes: seq<Backup>, h: nat)
    ensures (exists i :: 0 <= i < |codes| && !codes[i].used && codes[i].hash == h) <==> BackupIndex(codes, h) < |codes|
    ensures var n := BackupIndex(codes, h);
            n < |codes| ==> !codes[n].used && codes[n].hash == h && MarkUsed(codes, h) == codes[n := Backup(h, true)]
  {
    if codes != [] && (codes[0].used || codes[0].hash != h) {
      FreshBackupMeans(codes[1..], h);
      if i :| 0 <= i < |codes| && !codes[i].used && codes[i].hash == h {
        assert codes[1..][i - 1] == codes[i];
      }
      assert codes == [codes[0]] + codes[1..];
    }
  }

  lemma GoodCodeMeans(f: Codes, a: Account, now: int, typed: string)
    ensures GoodCode(f, a, now, typed) <==> TotpOrBackup(f, a, now, typed).Some?
  {
    FreshTotpMeans(f, a, now, Stripped(typed));
    FreshBackupMeans(a.backup, f.hash(typed));
  }

  // ---------- one check ----------

  /** Ten failed checks within their window of 900 seconds. */
  predicate LockedOut(s: State, u: UserId) { u in s.fails && s.now < s.fails[u].until && s.fails[u].count >= 10 }

  /** The pending token has been claimed, less than 600 seconds ago. */
  predicate Used(s: State, jti: Jti) { jti in s.used && s.now < s.used[jti] }

  function LiveFails(s: State, u: UserId): nat {
    if u in s.fails && s.now < s.fails[u].until then s.fails[u].count else 0
  }

  /** A request of this kind with a decoded token, whose user row exists. */
  predicate Asking(s: State, r: ReqId, kind: Kind) {
    && r in s.reqs && s.reqs[r].Decoded? && s.reqs[r].kind == kind
    && s.reqs[r].jti in s.pending && s.pending[s.reqs[r].jti].user in s.accounts
  }

  function UserOf(s: State, r: ReqId): UserId
    requires r in s.reqs && s.reqs[r].jti in s.pending
  {
    s.pending[s.reqs[r].jti].user
  }

  predicate Passed(t: State, r: ReqId) { r in t.reqs && t.reqs[r].Checked? }

  /** A refusal ends the request, adds one live failure to that user's count and changes no more. */
  predicate RefusedAndCounted(s: State, t: State, r: ReqId, u: UserId) {
    && t == s.(reqs := s.reqs - {r}, fails := t.fails)
    && LiveFails(t, u) == LiveFails(s, u) + 1
    && (LiveFails(s, u) == 0 ==> t.fails[u].until == s.now + 900)
    && t.fails.Keys == s.fails.Keys + {u} && forall v :: v in s.fails && v != u ==> t.fails[v] == s.fails[v]
  }

  /** A code passes exactly when it is good; any other is refused and counted. */
  lemma CodePassesIff(f: Codes, s: State, r: ReqId, code: string)
    requires Asking(s, r, Totp)
    requires var u := UserOf(s, r);
             && u !in s.locks && (s.accounts[u].totp || s.accounts[u].passkey)
             && !LockedOut(s, u) && !Used(s, s.reqs[r].jti)
    ensures var u, t := UserOf(s, r), Step(f, s, CheckTotp(r, code));
            if GoodCode(f, s.accounts[u], s.now, code)
            then Passed(t, r) && t == s.(reqs := t.reqs, locks := s.locks[u := r]) && t.reqs == s.reqs[r := t.reqs[r]]
            else RefusedAndCounted(s, t, r, u)
  {
    GoodCodeMeans(f, s.accounts[UserOf(s, r)], s.now, code);
  }

  /** What the open transaction has changed: the stored step becomes that of the code, or one unused
      backup entry with its hash is marked; nothing else. */
  lemma CodeIsSpent(f: Codes, s: State, r: ReqId, code: string)
    requires Asking(s, r, Totp) && Passed(Step(f, s, CheckTotp(r, code)), r)
    ensures var a, q := s.accounts[UserOf(s, r)], Step(f, s, CheckTotp(r, code)).reqs[r];
            && q.jti == s.reqs[r].jti && q.decodedAt == s.reqs[r].decodedAt
            && if q.step.Some?
               then a.secret.Some? && FirstOf(f, a.secret.value, s.now, Stripped(code), q.step.value)
                    && (a.lastStep.Some? ==> a.lastStep.value < q.step.value) && q.after == a.(lastStep := q.step)
               else exists i :: 0 <= i < |a.backup| && !a.backup[i].used && a.backup[i].hash == f.hash(code)
                                && q.after == a.(backup := a.backup[i := Backup(f.hash(code), true)])
  {
    var a := s.accounts[UserOf(s, r)];
    FreshTotpMeans(f, a, s.now, Stripped(code));
    FreshBackupMeans(a.backup, f.hash(code));
  }

  /** An assertion passes exactly when it verifies; any other is refused and counted. */
  lemma AssertionPassesIff(f: Codes, s: State, r: ReqId, ok: bool)
    requires Asking(s, r, Passkey) && !LockedOut(s, UserOf(s, r)) && !Used(s, s.reqs[r].jti)
    ensures var t := Step(f, s, CheckPasskey(r, ok));
            if ok then Passed(t, r) && t == s.(reqs := t.reqs) && t.reqs == s.reqs[r := t.reqs[r]]
            else RefusedAndCounted(s, t, r, UserOf(s, r))
  {}

  /** Before either: a locked-out account, a claimed token, and for codes an account without factors,
      end the request uncounted; a code waits while another completion holds the row. */
  lemma ChecksNotMade(f: Codes, s: State, r: ReqId, code: string, ok: bool)
    ensures Asking(s, r, Totp) && UserOf(s, r) in s.locks ==> Step(f, s, CheckTotp(r, code)) == s
    ensures Asking(s, r, Totp) && UserOf(s, r) !in s.locks
            && (LockedOut(s, UserOf(s, r)) || Used(s, s.reqs[r].jti)
                || !(s.accounts[UserOf(s, r)].totp || s.accounts[UserOf(s, r)].passkey)) ==>
              Step(f, s, CheckTotp(r, code)) == s.(reqs := s.reqs - {r})
    ensures Asking(s, r, Passkey) && (LockedOut(s, UserOf(s, r)) || Used(s, s.reqs[r].jti)) ==>
              Step(f, s, CheckPasskey(r, ok)) == s.(reqs := s.reqs - {r})
  {}

  /** A pending token is given for a verified password to a user with a factor, and decodes for 300
      seconds; a claim marks it for 600 and forgives the failures. */
  lemma TokenLife(f: Codes, s: State, u: UserId, jti: Jti, r: ReqId, kind: Kind)
    ensures Step(f, s, Password(u, jti)) ==
            if u in s.accounts && (s.accounts[u].totp || s.accounts[u].passkey)
            then s.(pending := s.pending[jti := Pending(u, s.now)]) else s
    ensures Step(f, s, Decode(r, jti, kind)) ==
            if jti in s.pending && s.now < s.pending[jti].iat + 300
            then s.(reqs := s.reqs[r := Decoded(jti, kind, s.now)]) else s
  {}

  /** A claim on an unclaimed token, exactly: the marker, the forgiven failures, the committed row
      and the session. */
  lemma ClaimCommits(f: Codes, s: State, r: ReqId)
    requires r in s.reqs && s.reqs[r].Checked? && s.reqs[r].jti in s.pending
    ensures var q, u, t := s.reqs[r], UserOf(s, r), Step(f, s, Claim(r));
            && t.reqs == s.reqs - {r}
            && t.locks == (if q.kind == Totp then s.locks - {u} else s.locks)
            && if Used(s, q.jti)
               then t == s.(reqs := t.reqs, locks := t.locks)
               else t.used == s.used[q.jti := s.now + 600] && t.fails == s.fails - {u}
                    && t.accounts == (if q.kind == Totp then s.accounts[u := q.after] else s.accounts)
                    && t.sessions == s.sessions + [Session(q.jti, u, s.now, q.step)]
  {}

  // ---------- enrolment ----------

  /** An enrolment code is accepted exactly when it is good for the row as read, and remembers the
      step it is of; nothing is stored yet. */
  lemma EnrolmentAcceptsIff(f: Codes, s: State, r: ReqId, u: UserId, code: string)
    requires u in s.accounts && r !in s.verifying
    ensures var a, t := s.accounts[u], Step(f, s, VerifyLoad(r, u, code));
            && t == s.(verifying := t.verifying)
            && (r in t.verifying <==> FreshTotp(f, a, s.now, Trimmed(code)))
            && (r in t.verifying ==>
                  && FirstOf(f, a.secret.value, s.now, Trimmed(code), t.verifying[r].step)
                  && t.verifying ==
                     s.verifying[r := Verifying(u, a.totp, a.backup != [], a.lastStep, t.verifying[r].step)])
  {
    FreshTotpMeans(f, s.accounts[u], s.now, Trimmed(code));
  }

  /** Its commit stores the step, turns TOTP on if it was read off, and gives backup codes if there
      were none; other columns keep what is stored by then. */
  lemma EnrolmentCommits(f: Codes, s: State, r: ReqId, codes: seq<Backup>)
    requires r in s.verifying && s.verifying[r].user in s.accounts && s.verifying[r].user !in s.locks
    ensures var v, t := s.verifying[r], Step(f, s, VerifyCommit(r, codes));
            var a := s.accounts[v.user];
            && t.accounts == s.accounts[v.user := Account(a.secret, a.totp || !v.totp, a.passkey, Some(v.step),
                                                          if v.hasCodes then a.backup else codes)]
            && t.accepted == s.accepted + [Accepted(v.user, v.step)]
            && t == s.(accounts := t.accounts, accepted := t.accepted, verifying := s.verifying - {r})
  {}

  /** A new secret is taken only while TOTP is off; turning TOTP off clears the secret, and the backup
      codes unless a passkey is left. */
  lemma SecretComesAndGoes(f: Codes, s: State, u: UserId, secret: Secret)
    requires u in s.accounts && u !in s.locks
    ensures var a := s.accounts[u];
            && Step(f, s, Setup(u, secret)).accounts ==
               (if a.totp then s.accounts else s.accounts[u := a.(secret := Some(secret))])
            && Step(f, s, Disable(u)).accounts ==
               s.accounts[u := Account(None, false, a.passkey, a.lastStep, if a.passkey then a.backup else [])]
  {}

  // ---------- every session rests on a check ----------

  /** Event k of the run is a check of request r, on this token, that was rightly passed: a good code
      against the row as it stood then, or a verified assertion. */
  ghost predicate Evidence(f: Codes, s0: State, es: seq<Event>, k: nat, r: ReqId, jti: Jti) {
    && k < |es|
    && var s := Run(f, s0, es[..k]);
       && r in s.reqs && s.reqs[r].jti == jti
       && match es[k]
          case CheckTotp(q, code) => q == r && Asking(s, r, Totp) && GoodCode(f, s.accounts[UserOf(s, r)], s.now, code)
          case CheckPasskey(q, ok) => q == r && Asking(s, r, Passkey) && ok
          case _ => false
  }

  ghost predicate Shown(f: Codes, s0: State, es: seq<Event>, jti: Jti) {
    exists k: nat, r :: Evidence(f, s0, es, k, r, jti)
  }

  /** Some event of the run is the verified password this token was given for. */
  predicate PasswordGiven(es: seq<Event>, u: UserId, jti: Jti) {
    exists k :: 0 <= k < |es| && es[k] == Password(u, jti)
  }

  ghost predicate AllShown(f: Codes, s0: State, es: seq<Event>, s: State) {
    && (forall r :: r in s.reqs && s.reqs[r].Checked? ==> Shown(f, s0, es, s.reqs[r].jti))
    && (forall i :: 0 <= i < |s.sessions| ==> Shown(f, s0, es, s.sessions[i].jti))
  }

  predicate AllGiven(es: seq<Event>, s: State) {
    && (forall jti :: jti in s.pending ==> PasswordGiven(es, s.pending[jti].user, jti))
    && (forall i :: 0 <= i < |s.sessions| ==> PasswordGiven(es, s.sessions[i].user, s.sessions[i].jti))
  }

  lemma {:induction false} RunThenStep(f: Codes, s: State, es: seq<Event>, e: Event)
    ensures Run(f, s, es + [e]) == Step(f, Run(f, s, es), e)
    decreases |es|
  {
    if es == [] {
      assert es + [e] == [e] && [e][1..] == [];
      assert Run(f, Step(f, s, e), []) == Step(f, s, e);
    } else {
      assert (es + [e])[1..] == es[1..] + [e];
      RunThenStep(f, Step(f, s, es[0]), es[1..], e);
    }
  }

  lemma EvidenceStays(f: Codes, s0: State, es: seq<Event>, e: Event, k: nat, r: ReqId, jti: Jti)
    requires Evidence(f, s0, es, k, r, jti)
    ensures Evidence(f, s0, es + [e], k, r, jti)
  {
    assert (es + [e])[..k] == es[..k];
  }

  lemma ShownStays(f: Codes, s0: State, es: seq<Event>, e: Event, jti: Jti)
    requires Shown(f, s0, es, jti)
    ensures Shown(f, s0, es + [e], jti)
  {
    var k: nat, r :| Evidence(f, s0, es, k, r, jti);
    EvidenceStays(f, s0, es, e, k, r, jti);
  }

  lemma GivenStays(es: seq<Event>, e: Event, u: UserId, jti: Jti)
    requires PasswordGiven(es, u, jti)
    ensures PasswordGiven(es + [e], u, jti)
  {
    var k :| 0 <= k < |es| && es[k] == Password(u, jti);
    assert (es + [e])[k] == es[k];
  }

  /** A request becomes checked only by a check that was rightly passed. */
  lemma PassingShows(f: Codes, s0: State, es: seq<Event>, s: State, e: Event, r: ReqId)
    requires s == Run(f, s0, es)
    requires Passed(Step(f, s, e), r) && !Passed(s, r)
    ensures Step(f, s, e).reqs[r].jti in s.pending && Evidence(f, s0, es + [e], |es|, r, Step(f, s, e).reqs[r].jti)
  {
    assert (es + [e])[..|es|] == es;
    match e {
      case CheckTotp(q, code) =>
        CheckTotpShape(f, s, q, code);
        assert q == r;
        GoodCodeMeans(f, s.accounts[UserOf(s, r)], s.now, code);
      case CheckPasskey(q, ok) =>
        CheckPasskeyShape(s, q, ok);
        assert q == r;
      case _ =>
    }
  }

  /** A request that stays checked keeps its token. */
  lemma CheckedStays(f: Codes, s: State, e: Event, r: ReqId)
    requires Passed(s, r) && Passed(Step(f, s, e), r) && Possible(s, e)
    ensures Step(f, s, e).reqs[r].jti == s.reqs[r].jti
  {
    match e {
      case CheckTotp(q, code) => CheckTotpShape(f, s, q, code);
      case CheckPasskey(q, ok) => CheckPasskeyShape(s, q, ok);
      case _ =>
    }
  }

  /** A session appears only at the claim of a checked request, for its token and the token's user. */
  lemma SessionsComeFromClaims(f: Codes, s: State, e: Event)
    ensures var t := Step(f, s, e);
            || t.sessions == s.sessions
            || (&& e.Claim? && Passed(s, e.req) && s.reqs[e.req].jti in s.pending
                && t.sessions == s.sessions + [Session(s.reqs[e.req].jti, UserOf(s, e.req), s.now, s.reqs[e.req].step)])
  {
    match e {
      case CheckTotp(q, code) => CheckTotpShape(f, s, q, code);
      case CheckPasskey(q, ok) => CheckPasskeyShape(s, q, ok);
      case _ =>
    }
  }

  lemma PendingOnlyGrows(f: Codes, s: State, e: Event)
    ensures var t := Step(f, s, e);
            forall jti :: jti in t.pending ==>
              (jti in s.pending && t.pending[jti] == s.pending[jti]) || e == Password(t.pending[jti].user, jti)
  {
    match e {
      case CheckTotp(q, code) => CheckTotpShape(f, s, q, code);
      case CheckPasskey(q, ok) => CheckPasskeyShape(s, q, ok);
      case _ =>
    }
  }

  lemma StepShows(f: Codes, s0: State, es: seq<Event>, s: State, e: Event)
    requires s == Run(f, s0, es) && Possible(s, e) && AllShown(f, s0, es, s)
    ensures AllShown(f, s0, es + [e], Step(f, s, e))
  {
    var t := Step(f, s, e);
    forall r | r in t.reqs && t.reqs[r].Checked? ensures Shown(f, s0, es + [e], t.reqs[r].jti) {
      if Passed(s, r) {
        CheckedStays(f, s, e, r);
        ShownStays(f, s0, es, e, s.reqs[r].jti);
      } else {
        PassingShows(f, s0, es, s, e, r);
      }
    }
    SessionsComeFromClaims(f, s, e);
    forall i | 0 <= i < |t.sessions| ensures Shown(f, s0, es + [e], t.sessions[i].jti) {
      if i < |s.sessions| {
        ShownStays(f, s0, es, e, s.sessions[i].jti);
      } else {
        ShownStays(f, s0, es, e, s.reqs[e.req].jti);
      }
    }
  }

  lemma StepGives(f: Codes, es: seq<Event>, s: State, e: Event)
    requires AllGiven(es, s)
    ensures AllGiven(es + [e], Step(f, s, e))
  {
    var t := Step(f, s, e);
    PendingOnlyGrows(f, s, e);
    SessionsComeFromClaims(f, s, e);
    forall jti | jti in t.pending ensures PasswordGiven(es + [e], t.pending[jti].user, jti) {
      if jti in s.pending && t.pending[jti] == s.pending[jti] {
        GivenStays(es, e, t.pending[jti].user, jti);
      } else {
        assert (es + [e])[|es|] == Password(t.pending[jti].user, jti);
      }
    }
    forall i | 0 <= i < |t.sessions| ensures PasswordGiven(es + [e], t.sessions[i].user, t.sessions[i].jti) {
      if i < |s.sessions| {
        GivenStays(es, e, s.sessions[i].user, s.sessions[i].jti);
      } else {
        GivenStays(es, e, UserOf(s, e.req), s.reqs[e.req].jti);
      }
    }
  }

  lemma {:induction false} PossiblePrefix(f: Codes, s: State, es: seq<Event>, e: Event)
    requires PossibleRun(f, s, es + [e])
    ensures PossibleRun(f, s, es) && Possible(Run(f, s, es), e)
    decreases |es|
  {
    if es == [] {
      assert es + [e] == [e];
    } else {
      assert (es + [e])[1..] == es[1..] + [e];
      PossiblePrefix(f, Step(f, s, es[0]), es[1..], e);
    }
  }

  lemma {:induction false} RunShows(f: Codes, s0: State, es: seq<Event>)
    requires PossibleRun(f, s0, es) && s0.reqs == map[] && s0.sessions == [] && s0.pending == map[]
    ensures AllShown(f, s0, es, Run(f, s0, es)) && AllGiven(es, Run(f, s0, es))
    decreases |es|
  {
    if es != [] {
      var init, e := es[..|es| - 1], es[|es| - 1];
      assert es == init + [e];
      PossiblePrefix(f, s0, init, e);
      RunShows(f, s0, init);
      RunThenStep(f, s0, init, e);
      StepShows(f, s0, init, Run(f, s0, init), e);
      StepGives(f, init, Run(f, s0, init), e);
    }
  }

  /** In every run, each session was preceded by the verified password of its user and by a check on
      its pending token that was rightly passed: a good code against the row as it stood, or a
      verified assertion. */
  lemma EverySessionRestsOnAFactor(f: Codes, now: int, accounts: map<UserId, Account>, es: seq<Event>, i: nat)
    requires PossibleRun(f, Start(now, accounts), es) && i < |Run(f, Start(now, accounts), es).sessions|
    ensures var x := Run(f, Start(now, accounts), es).sessions[i];
            Shown(f, Start(now, accounts), es, x.jti) && PasswordGiven(es, x.user, x.jti)
  {
    RunShows(f, Start(now, accounts), es);
  }
}
