/** Devices of one user racing through their first sign-in: each fetches the identity, or
    creates one and publishes it; the server keeps the first writer.

    A key pair is named by a number; the public and the private half carry the same one.
    Requests are not atomic here: the PUT handler loads the row, and only later runs its
    compare-and-set and re-reads the row. */
module FirstIdentity {
  import opened Common

  type DeviceId = nat
  type Key = nat
  type Password = nat

  /** The private key, wrapped under a key derived from a password. */
  datatype Blob = Blob(priv: Key, password: Password)

  /** identity_public_key and encrypted_private_key. */
  datatype Row = Row(pub: Option<Key>, blob: Option<Blob>)

  datatype Phase =
    | SigningIn                          // signed in, no identity yet
    | Fetched(row: Row)                  // GET answered with an identity
    | Created(mine: Key)                 // GET answered with none; own key pair generated
    | Loaded(mine: Key, row: Row)        // PUT handler has loaded the user row
    | Answered(mine: Key, row: Row)      // PUT answered
    | Done(pub: Key, priv: Key)
    | Failed                             // the wrapped key did not open

  datatype Device = Device(password: Password, phase: Phase)

  datatype State = State(row: Row, devices: map<DeviceId, Device>)

  datatype Event =
    | SignIn(device: DeviceId, password: Password)
    | Get(device: DeviceId, pair: Key)         // `pair` is the key pair generated when there is none
    | Adopt(device: DeviceId)
    | PutLoad(device: DeviceId)
    | PutCommit(device: DeviceId)
    | Conclude(device: DeviceId)
    | Rewrap(device: DeviceId, password: Password)   // password change or recovery on a finished device

  function Recover(row: Row, typed: Password): Phase {
    if row.pub.Some? && row.blob.Some? && row.blob.value.password == typed
    then Done(row.pub.value, row.blob.value.priv) else Failed
  }

  function With(s: State, d: DeviceId, p: Phase): State
    requires d in s.devices
  {
    s.(devices := s.devices[d := s.devices[d].(phase := p)])
  }

  function CompareAndSet(row: Row, pub: Key, blob: Blob): Row {
    if row.pub.None? then Row(Some(pub), Some(blob)) else row
  }

  function Step(s: State, e: Event): State {
    if e.SignIn? then
      if e.device in s.devices then s else s.(devices := s.devices[e.device := Device(e.password, SigningIn)])
    else if e.device !in s.devices then s
    else
      var d := e.device;
      var typed, phase := s.devices[d].password, s.devices[d].phase;
      match e
      case Get(_, pair) =>
        if !phase.SigningIn? then s
        else if s.row.pub.Some? && s.row.blob.Some? then With(s, d, Fetched(s.row))
        else With(s, d, Created(pair))
      case Adopt(_) => if phase.Fetched? then With(s, d, Recover(phase.row, typed)) else s
      case PutLoad(_) => if phase.Created? then With(s, d, Loaded(phase.mine, s.row)) else s
      case PutCommit(_) =>
        if !phase.Loaded? then s
        else if phase.row.pub.Some? then With(s, d, Answered(phase.mine, phase.row))
        else
          var row := CompareAndSet(s.row, phase.mine, Blob(phase.mine, typed));
          With(s.(row := row), d, Answered(phase.mine, row))
      case Conclude(_) =>
        if !phase.Answered? then s
        else if phase.row.pub.Some? && phase.row.blob.Some? && phase.row.pub.value != phase.mine
        then With(s, d, Recover(phase.row, typed))
        else With(s, d, Done(phase.mine, phase.mine))
      case Rewrap(_, p) => if phase.Done? then s.(row := s.row.(blob := Some(Blob(phase.priv, p)))) else s
      case SignIn(_, _) => s
  }

  function Run(s: State, es: seq<Event>): State
    decreases |es|
  {
    if es == [] then s else Run(Step(s, es[0]), es[1..])
  }

  const START := State(Row(None, None), map[])

  // ---------- the handler as it is written ----------

  class UserRow {
    var pub: Option<Key>
    var blob: Option<Blob>

    ghost function View(): Row reads this { Row(pub, blob) }

    constructor ()
      ensures View() == Row(None, None)
    {
      pub, blob := None, None;
    }

    /** set_my_identity, given the row the request had loaded. */
    method SetMyIdentity(loaded: Row, newPub: Key, newBlob: Blob) returns (answer: Row)
      modifies this
      ensures loaded.pub.Some? ==> answer == loaded && View() == old(View())
      ensures loaded.pub.None? ==> View() == CompareAndSet(old(View()), newPub, newBlob) && answer == View()
    {
      answer := loaded;
      if loaded.pub.None? {
        if pub.None? {
          pub, blob := Some(newPub), Some(newBlob);
        }
        answer := Row(pub, blob);
      }
    }
  }

  // ---------- every run ----------

  predicate Whole(r: Row) { r.pub.Some? && r.blob.Some? && r.blob.value.priv == r.pub.value }

  /** A row a device has seen is the one identity of the account, or the empty row. */
  predicate Agrees(server: Row, seen: Row) { Whole(seen) && server.pub == seen.pub }

  predicate PhaseOk(row: Row, p: Phase) {
    match p
    case SigningIn => true
    case Fetched(seen) => Agrees(row, seen)
    case Created(_) => true
    case Loaded(_, seen) => seen.pub.Some? ==> Agrees(row, seen)
    case Answered(_, seen) => Agrees(row, seen)
    case Done(pub, priv) => row.pub == Some(pub) && priv == pub
    case Failed => true
  }

  predicate Inv(s: State) {
    && (Whole(s.row) || s.row == Row(None, None))
    && forall d :: d in s.devices ==> PhaseOk(s.row, s.devices[d].phase)
  }

  lemma StepKeepsInv(s: State, e: Event)
    requires Inv(s)
    ensures Inv(Step(s, e))
    ensures s.row.pub.Some? ==> Step(s, e).row.pub == s.row.pub
  {
    var t := Step(s, e);
    if e.device in s.devices { assert PhaseOk(s.row, s.devices[e.device].phase); }
    forall d | d in t.devices ensures PhaseOk(t.row, t.devices[d].phase) {
      if d in s.devices { assert PhaseOk(s.row, s.devices[d].phase); }
    }
  }

  lemma {:induction false} RunKeepsInv(s: State, es: seq<Event>)
    requires Inv(s)
    ensures Inv(Run(s, es))
    ensures s.row.pub.Some? ==> Run(s, es).row.pub == s.row.pub
    decreases |es|
  {
    if es != [] {
      StepKeepsInv(s, es[0]);
      RunKeepsInv(Step(s, es[0]), es[1..]);
    }
  }

  /** Whatever the interleaving, every device that finishes holds the same key pair, it is the
      server's, and the server's public key and wrapped key belong together. */
  lemma FinishedDevicesAgree(es: seq<Event>, d: DeviceId)
    requires d in Run(START, es).devices && Run(START, es).devices[d].phase.Done?
    ensures var s := Run(START, es);
            var p := s.devices[d].phase;
            && p.priv == p.pub && s.row.pub == Some(p.pub)
            && s.row.blob.Some? && s.row.blob.value.priv == p.priv
  {
    RunKeepsInv(START, es);
    assert PhaseOk(Run(START, es).row, Run(START, es).devices[d].phase);
  }

  /** Once set, the public key never changes again. */
  lemma PublicKeyIsForever(before: seq<Event>, after: seq<Event>)
    requires Run(START, before).row.pub.Some?
    ensures Run(Run(START, before), after).row.pub == Run(START, before).row.pub
  {
    RunKeepsInv(START, before);
    RunKeepsInv(Run(START, before), after);
  }

  /** A device that lost the race fails exactly when it typed another password than the one
      the wrapped key it was shown is under. */
  lemma AdoptionFailsIff(es: seq<Event>, d: DeviceId)
    requires d in Run(START, es).devices
    requires var p := Run(START, es).devices[d].phase; p.Fetched? || (p.Answered? && p.row.pub != Some(p.mine))
    ensures var s := Run(START, es);
            var p := s.devices[d].phase;
            var t := Step(s, if p.Fetched? then Adopt(d) else Conclude(d));
            && p.row.blob.Some?
            && (t.devices[d].phase.Failed? <==> p.row.blob.value.password != s.devices[d].password)
            && (t.devices[d].phase.Failed? || t.devices[d].phase.Done?)
  {
    RunKeepsInv(START, es);
    assert PhaseOk(Run(START, es).row, Run(START, es).devices[d].phase);
  }

  // ---------- one password everywhere ----------

  /** Nobody re-wraps the key, and every device signs in with password p. */
  predicate OnePassword(es: seq<Event>, p: Password) {
    forall i :: 0 <= i < |es| ==> !es[i].Rewrap? && (es[i].SignIn? ==> es[i].password == p)
  }

  predicate Under(row: Row, p: Password) { row.blob.Some? ==> row.blob.value.password == p }

  predicate AllUnder(s: State, p: Password) {
    && Under(s.row, p)
    && forall d :: d in s.devices ==>
         && s.devices[d].password == p
         && match s.devices[d].phase
            case Fetched(seen) => Under(seen, p)
            case Loaded(_, seen) => Under(seen, p)
            case Answered(_, seen) => Under(seen, p)
            case Failed => false
            case _ => true
  }

  lemma StepKeepsUnder(s: State, e: Event, p: Password)
    requires Inv(s) && AllUnder(s, p) && !e.Rewrap? && (e.SignIn? ==> e.password == p)
    ensures AllUnder(Step(s, e), p)
  {
    if e.device in s.devices { assert PhaseOk(s.row, s.devices[e.device].phase); }
  }

  lemma {:induction false} RunKeepsUnder(s: State, es: seq<Event>, p: Password)
    requires Inv(s) && AllUnder(s, p) && OnePassword(es, p)
    ensures AllUnder(Run(s, es), p)
    decreases |es|
  {
    if es != [] {
      StepKeepsInv(s, es[0]);
      StepKeepsUnder(s, es[0], p);
      RunKeepsUnder(Step(s, es[0]), es[1..], p);
    }
  }

  /** As long as every device signs in with the same password and nobody changes it, no device ever
      fails, and the stored key is wrapped under that password. */
  lemma OnePasswordNeverFails(es: seq<Event>, p: Password, d: DeviceId)
    requires OnePassword(es, p)
    ensures var s := Run(START, es);
            && (d in s.devices ==> !s.devices[d].phase.Failed?)
            && (s.row.blob.Some? ==> s.row.blob.value.password == p)
  {
    RunKeepsUnder(START, es, p);
  }

  // ---------- one request ----------

  /** The compare-and-set stores the caller's pair exactly while there is no public key, and answers with
      what is stored then; a row loaded with a key is answered as it was loaded. */
  lemma PutStoresIff(s: State, d: DeviceId)
    requires d in s.devices && s.devices[d].phase.Loaded?
    ensures var ph, t := s.devices[d].phase, Step(s, PutCommit(d));
            if ph.row.pub.Some?
            then t.row == s.row && t.devices[d].phase == Answered(ph.mine, ph.row)
            else t.devices[d].phase == Answered(ph.mine, t.row)
                 && t.row == if s.row.pub.Some? then s.row
                             else Row(Some(ph.mine), Some(Blob(ph.mine, s.devices[d].password)))
  {}

  /** A device adopts what it fetched when both halves are there, and otherwise makes its own pair; one
      answered with its own public key keeps its own pair. */
  lemma DeviceDecides(s: State, d: DeviceId, pair: Key)
    requires d in s.devices
    ensures s.devices[d].phase.SigningIn? ==>
              Step(s, Get(d, pair)).devices[d].phase ==
              (if s.row.pub.Some? && s.row.blob.Some? then Fetched(s.row) else Created(pair))
    ensures var ph := s.devices[d].phase;
            ph.Answered? && ph.row.pub == Some(ph.mine) ==>
              Step(s, Conclude(d)).devices[d].phase == Done(ph.mine, ph.mine)
  {}
}
