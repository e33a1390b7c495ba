/** Secret-link call signalling for one thread: the pairing record and the buffered offer
    in Redis (both with a 90-second TTL), the sockets of the thread on every worker, and
    the thread channel. The channel is the list of everything published so far; each
    worker delivers it in order, at its own pace. */
module GuestCalls {
  import opened Common
  import Hub

  type Src = nat
  type Worker = nat

  const OFFER_TTL := 90

  datatype Kind = Offer | Answer | Ice | Hangup | Decline | Busy

  datatype Envelope = Envelope(kind: Kind, src: Option<Src>, to: Option<Src>, payload: nat)

  datatype Pairing = Pairing(guest: Option<Src>, host: Option<Src>)

  const NOBODY := Pairing(None, None)

  /** A Redis value with its expiry instant; it is gone from that instant on. */
  datatype Expiring<T> = Expiring(value: T, until: int)

  datatype Conn = Conn(isHost: bool, worker: Worker)

  /** One published envelope, with the pairing the sender's handler had read and its own side. */
  datatype Published = Published(env: Envelope, relayedFor: Pairing, byHost: bool)

  datatype Delivery = Delivery(index: nat, to: Src)

  datatype Handed = Handed(host: Src, env: Envelope, recorded: Pairing)

  datatype State = State(
    now: int,
    active: bool,                      // the thread exists and has not expired
    call: Option<Expiring<Pairing>>,   // call_state:{thread}
    offer: Option<Expiring<Envelope>>, // call_offer:{thread}
    conns: map<Src, Conn>,             // running endpoint handlers
    subscribed: set<Src>,              // sockets in the hub's thread table
    everSeen: set<Src>,
    channel: seq<Published>,
    offsets: map<Worker, nat>,         // next channel index each worker delivers
    deliveries: set<Delivery>,
    handed: set<Handed>)               // buffered offers given to a host on connect

  datatype Event =
    | Connect(src: Src, isHost: bool, worker: Worker)
    | Frame(sender: Src, kind: Kind, payload: nat)
    | Leave(src: Src)      // the handler's receive loop ends
    | DropSub(src: Src)    // the hub drops a stalled socket
    | Deliver(worker: Worker)
    | Tick(seconds: nat)
    | Revoke               // the link is revoked or expires

  function Live<T>(v: Option<Expiring<T>>, now: int): Option<T> {
    if v.Some? && now < v.value.until then Some(v.value.value) else None
  }

  /** What `json.loads(await _rget(call_key) or "{}")` reads. */
  function Paired(s: State): Pairing {
    match Live(s.call, s.now) case Some(p) => p case None => NOBODY
  }

  function PutCall(s: State, p: Pairing): State { s.(call := Some(Expiring(p, s.now + OFFER_TTL))) }

  function Publish(s: State, env: Envelope, p: Pairing, byHost: bool): State {
    s.(channel := s.channel + [Published(env, p, byHost)])
  }

  // ---------- the endpoint handler ----------

  function OnConnect(s: State, src: Src, isHost: bool, w: Worker): State {
    if !s.active then s
    else
      var s1 := s.(conns := s.conns[src := Conn(isHost, w)], subscribed := s.subscribed + {src},
                   everSeen := s.everSeen + {src});
      if !isHost then s1
      else
        var s2 := PutCall(s1, Paired(s1).(host := Some(src)));
        match Live(s2.offer, s2.now)
        case None => s2
        case Some(env) => s2.(handed := s2.handed + {Handed(src, env, Paired(s2))})
  }

  /** The connection a relayed frame is addressed to, if its peer is recorded. */
  function Addressee(isHost: bool, p: Pairing): Option<Src> { if isHost then p.guest else p.host }

  /** Frames the handler drops without relaying them. */
  predicate Ignored(isHost: bool, p: Pairing, src: Src, kind: Kind) {
    || (kind.Answer? && !isHost)
    || (!isHost && p.guest.Some? && p.guest != Some(src))
  }

  function OnFrame(s: State, src: Src, kind: Kind, payload: nat): State {
    if src !in s.conns then s
    else if !s.active then OnLeave(s, src)
    else
      var p, isHost := Paired(s), s.conns[src].isHost;
      if Ignored(isHost, p, src, kind) then s
      else
        var env := Envelope(kind, Some(src), Addressee(isHost, p), payload);
        match kind
        case Offer =>
          if isHost then Publish(s, env, p, isHost)
          else
            var s' := PutCall(s, Pairing(Some(src), p.host));
            Publish(s'.(offer := Some(Expiring(env, s.now + OFFER_TTL))), env, p, isHost)
        case Answer => Publish(PutCall(s, Pairing(p.guest, Some(src))).(offer := None), env, p, isHost)
        case Ice => Publish(s, env, p, isHost)
        case Busy => Publish(s, env, p, isHost)
        case Hangup => Publish(s, env, p, isHost).(offer := None, call := None)
        case Decline => Publish(s, env, p, isHost).(offer := None, call := None)
  }

  function OnLeave(s: State, src: Src): State {
    if src !in s.conns then s
    else
      var s1 := s.(conns := s.conns - {src}, subscribed := s.subscribed - {src});
      if !s.conns[src].isHost && Paired(s1).guest == Some(src)
      then Publish(s1.(offer := None, call := None), Envelope(Hangup, None, None, 0), NOBODY, false)
      else s1
  }

  // ---------- the hub ----------

  function Receivers(s: State, w: Worker, env: Envelope): set<Src> {
    set c | c in s.conns && c in s.subscribed && s.conns[c].worker == w && Hub.Admits(Some(c), env.src, env.to)
  }

  function OnDeliver(s: State, w: Worker): State {
    if w in s.offsets && s.offsets[w] < |s.channel| then
      var i := s.offsets[w];
      s.(offsets := s.offsets[w := i + 1],
         deliveries := s.deliveries + set c | c in Receivers(s, w, s.channel[i].env) :: Delivery(i, c))
    else s
  }

  function Step(s: State, e: Event): State {
    match e
    case Connect(src, isHost, w) => OnConnect(s, src, isHost, w)
    case Frame(src, kind, payload) => OnFrame(s, src, kind, payload)
    case Leave(src) => OnLeave(s, src)
    case DropSub(src) => s.(subscribed := s.subscribed - {src})
    case Deliver(w) => OnDeliver(s, w)
    case Tick(n) => s.(now := s.now + n)
    case Revoke => s.(active := false)
  }

  /** Connection ids are fresh (uuid4). */
  predicate Possible(s: State, e: Event) { e.Connect? ==> e.src !in s.everSeen }

  function Run(s: State, es: seq<Event>): State
    decreases |es|
  {
    if es == [] then s else Run(Step(s, es[0]), es[1..])
  }

  predicate PossibleRun(s: State, es: seq<Event>)
    decreases |es|
  {
    es == [] || (Possible(s, es[0]) && PossibleRun(Step(s, es[0]), es[1..]))
  }

  function Start(now: int, workers: set<Worker>): State {
    State(now, true, None, None, map[], {}, {}, [], map w | w in workers :: 0, {}, {})
  }

  // ---------- the handler as it is written ----------

  class Endpoint {
    var now: int
    var active: bool
    var call: Option<Expiring<Pairing>>
    var offer: Option<Expiring<Envelope>>
    var conns: map<Src, Conn>
    var subscribed: set<Src>
    var channel: seq<Published>
    var offsets: map<Worker, nat>
    ghost var everSeen: set<Src>
    ghost var deliveries: set<Delivery>
    ghost var handed: set<Handed>

    ghost function View(): State reads this {
      State(now, active, call, offer, conns, subscribed, everSeen, channel, offsets, deliveries, handed)
    }

    constructor (now: int, workers: set<Worker>)
      ensures View() == Start(now, workers)
    {
      this.now, active, call, offer := now, true, None, None;
      conns, subscribed, channel := map[], {}, [];
      offsets := map w | w in workers :: 0;
      everSeen, deliveries, handed := {}, {}, {};
    }

    method ReadCall() returns (p: Pairing)
      ensures p == Paired(View())
    {
      p := NOBODY;
      if call.Some? && now < call.value.until {
        p := call.value.value;
      }
    }

    method WriteCall(p: Pairing)
      modifies `call
      ensures View() == PutCall(old(View()), p)
    {
      call := Some(Expiring(p, now + OFFER_TTL));
    }

    method PublishThread(env: Envelope, relayedFor: Pairing, byHost: bool)
      modifies `channel
      ensures View() == Publish(old(View()), env, relayedFor, byHost)
    {
      channel := channel + [Published(env, relayedFor, byHost)];
    }

    /** Accepting a socket; the buffered offer handed over, if any, is returned. */
    method Accept(src: Src, isHost: bool, worker: Worker) returns (sent: Option<Envelope>)
      modifies this
      ensures View() == OnConnect(old(View()), src, isHost, worker)
      ensures sent == if isHost && active then Live(offer, now) else None
    {
      sent := None;
      if !active {
        return;
      }
      conns, subscribed := conns[src := Conn(isHost, worker)], subscribed + {src};
      everSeen := everSeen + {src};
      if isHost {
        var st := ReadCall();
        WriteCall(Pairing(st.guest, Some(src)));
        if offer.Some? && now < offer.value.until {
          sent := Some(offer.value.value);
          handed := handed + {Handed(src, offer.value.value, Pairing(st.guest, Some(src)))};
        }
      }
    }

    /** One pass of the receive loop; `rings` says whether the host is to be rung. */
    method Receive(src: Src, kind: Kind, payload: nat) returns (rings: bool)
      requires src in conns
      modifies this
      ensures View() == OnFrame(old(View()), src, kind, payload)
      ensures rings <==> kind.Offer? && old(active) && !old(conns)[src].isHost
                         && !Ignored(false, Paired(old(View())), src, kind)
    {
      rings := false;
      var isHost := conns[src].isHost;
      if !active {
        Finish(src);
        return;
      }
      var state := ReadCall();
      if kind.Answer? && !isHost {
        return;
      }
      if !isHost && !kind.Offer? && state.guest.Some? && Some(src) != state.guest {
        return;
      }
      var to: Option<Src> := None;
      if isHost && state.guest.Some? {
        to := state.guest;
      } else if !isHost && state.host.Some? {
        to := state.host;
      }
      var env := Envelope(kind, Some(src), to, payload);
      if kind.Offer? && !isHost {
        if state.guest.Some? && state.guest != Some(src) {
          return;
        }
        WriteCall(Pairing(Some(src), state.host));
        offer := Some(Expiring(env, now + OFFER_TTL));
        PublishThread(env, state, isHost);
        rings := true;
        return;
      }
      if kind.Answer? && isHost {
        WriteCall(Pairing(state.guest, Some(src)));
        offer := None;
      }
      PublishThread(env, state, isHost);
      if kind.Hangup? || kind.Decline? {
        offer, call := None, None;
      }
    }

    /** The handler's finally block. */
    method Finish(src: Src)
      requires src in conns
      modifies this
      ensures View() == OnLeave(old(View()), src)
    {
      var isHost := conns[src].isHost;
      conns, subscribed := conns - {src}, subscribed - {src};
      var state := ReadCall();
      if !isHost && state.guest == Some(src) {
        offer, call := None, None;
        PublishThread(Envelope(Hangup, None, None, 0), NOBODY, false);
      }
    }
  }

  // ---------- what every step keeps ----------

  /** A stored guest is a connected link holder for as long as the record is live. */
  predicate GuestConnected(s: State) {
    Paired(s).guest.Some? ==> Paired(s).guest.value in s.conns && !s.conns[Paired(s).guest.value].isHost
  }

  /** A live buffered offer implies a live pairing that outlasts it, names the offer's sender
      as guest, and that sender is still connected. */
  predicate OfferBacked(s: State) {
    Live(s.offer, s.now).Some? ==>
      && s.call.Some? && s.offer.value.until <= s.call.value.until
      && Live(s.offer, s.now).value.kind.Offer?
      && Live(s.offer, s.now).value.src.Some?
      && Paired(s).guest == Live(s.offer, s.now).value.src
      && Paired(s).guest.value in s.conns
  }

  /** The sender's peer on record: the guest for the host, the host for a link holder. The hangup a
      leaving guest's handler publishes itself has no sender and is for everyone. */
  function Peer(pub: Published): Option<Src> {
    if pub.env.src.None? then None else if pub.byHost then pub.relayedFor.guest else pub.relayedFor.host
  }

  predicate Addressed(pub: Published) { pub.env.to == Peer(pub) }

  predicate Justified(channel: seq<Published>, d: Delivery) {
    d.index < |channel| && Hub.Admits(Some(d.to), channel[d.index].env.src, channel[d.index].env.to)
  }

  predicate FromPairedGuest(h: Handed) {
    h.env.kind.Offer? && h.env.src.Some? && h.recorded == Pairing(h.env.src, Some(h.host))
  }

  ghost predicate Inv(s: State) {
    && s.conns.Keys <= s.everSeen
    && (s.call.Some? ==> s.call.value.until <= s.now + OFFER_TTL)
    && GuestConnected(s)
    && OfferBacked(s)
    && (forall i :: 0 <= i < |s.channel| ==> Addressed(s.channel[i]))
    && (forall w :: w in s.offsets ==> s.offsets[w] <= |s.channel|)
    && (forall d :: d in s.deliveries ==> Justified(s.channel, d))
    && (forall h :: h in s.handed ==> FromPairedGuest(h))
  }

  lemma ConnectKeepsInv(s: State, src: Src, isHost: bool, w: Worker)
    requires Inv(s) && src !in s.everSeen
    ensures Inv(OnConnect(s, src, isHost, w))
  {}

  lemma LeaveKeepsInv(s: State, src: Src)
    requires Inv(s)
    ensures Inv(OnLeave(s, src))
  {}

  lemma FrameKeepsInv(s: State, src: Src, kind: Kind, payload: nat)
    requires Inv(s)
    ensures Inv(OnFrame(s, src, kind, payload))
  {
    if src in s.conns && !s.active { LeaveKeepsInv(s, src); }
  }

  lemma StepKeepsInv(s: State, e: Event)
    requires Inv(s) && Possible(s, e)
    ensures Inv(Step(s, e))
  {
    match e
    case Connect(src, isHost, w) => ConnectKeepsInv(s, src, isHost, w);
    case Frame(src, kind, payload) => FrameKeepsInv(s, src, kind, payload);
    case Leave(src) => LeaveKeepsInv(s, src);
    case DropSub(src) =>
    case Deliver(w) =>
    case Tick(n) =>
    case Revoke =>
  }

  lemma {:induction false} RunKeepsInv(s: State, es: seq<Event>)
    requires Inv(s) && PossibleRun(s, es)
    ensures Inv(Run(s, es))
    decreases |es|
  {
    if es != [] {
      StepKeepsInv(s, es[0]);
      RunKeepsInv(Step(s, es[0]), es[1..]);
    }
  }

  // ---------- every run ----------

  /** In every run, a frame a socket relayed while guest and host were both recorded is
      delivered, on any worker and however late, only to a connection that is one of those
      two, and never back to its sender. */
  lemma RelayedFramesReachOnlyThePair(now: int, workers: set<Worker>, es: seq<Event>, d: Delivery)
    requires PossibleRun(Start(now, workers), es)
    requires d in Run(Start(now, workers), es).deliveries
    ensures var s := Run(Start(now, workers), es);
            && d.index < |s.channel|
            && var pub := s.channel[d.index];
               pub.env.src.Some? && pub.relayedFor.guest.Some? && pub.relayedFor.host.Some? ==>
                 (Some(d.to) == pub.relayedFor.guest || Some(d.to) == pub.relayedFor.host)
                 && Some(d.to) != pub.env.src
  {
    RunKeepsInv(Start(now, workers), es);
    var s := Run(Start(now, workers), es);
    assert Addressed(s.channel[d.index]);
  }

  /** In every run, a live buffered offer comes from the guest still paired and connected. */
  lemma LiveOfferIsFromPairedGuest(now: int, workers: set<Worker>, es: seq<Event>)
    requires PossibleRun(Start(now, workers), es)
    ensures OfferBacked(Run(Start(now, workers), es))
  {
    RunKeepsInv(Start(now, workers), es);
  }

  /** Every offer ever handed to a late host came from the guest recorded at that moment. */
  lemma LateHostGetsPairedGuestsOffer(now: int, workers: set<Worker>, es: seq<Event>, h: Handed)
    requires PossibleRun(Start(now, workers), es)
    requires h in Run(Start(now, workers), es).handed
    ensures FromPairedGuest(h)
  {
    RunKeepsInv(Start(now, workers), es);
  }

  /** One step never swaps the paired guest for another: it keeps it or clears it. */
  lemma GuestIsOnlyCleared(s: State, e: Event)
    requires Paired(s).guest.Some?
    ensures Paired(Step(s, e)).guest == Paired(s).guest || Paired(Step(s, e)).guest.None?
  {}

  /** So in a run that ends with another guest there is a moment with none. */
  lemma {:induction false} GuestChangesOnlyThroughNone(s: State, es: seq<Event>) returns (k: nat)
    requires Paired(s).guest.Some? && Paired(Run(s, es)).guest.Some?
    requires Paired(s).guest != Paired(Run(s, es)).guest
    ensures k <= |es| && Paired(Run(s, es[..k])).guest.None?
    decreases |es|
  {
    GuestIsOnlyCleared(s, es[0]);
    var t := Step(s, es[0]);
    if Paired(t).guest.None? {
      k := 1;
      assert es[..1][1..] == [];
    } else {
      var j := GuestChangesOnlyThroughNone(t, es[1..]);
      k := j + 1;
      assert es[..k][1..] == es[1..][..j];
    }
  }

  /** A link holder other than the paired guest. */
  predicate OutsiderFrame(s: State, e: Event) {
    e.Frame? && s.active && e.sender in s.conns && !s.conns[e.sender].isHost
    && Paired(s).guest.Some? && Paired(s).guest != Some(e.sender)
  }

  function WithoutOutsiders(s: State, es: seq<Event>): seq<Event>
    decreases |es|
  {
    if es == [] then []
    else (if OutsiderFrame(s, es[0]) then [] else [es[0]]) + WithoutOutsiders(Step(s, es[0]), es[1..])
  }

  /** While a guest is paired, frames of other link holders change nothing: erasing them
      from any run leads to the same state, channel and deliveries included. */
  lemma {:induction false} OutsidersDoNotInterfere(s: State, es: seq<Event>)
    ensures Run(s, WithoutOutsiders(s, es)) == Run(s, es)
    decreases |es|
  {
    if es != [] {
      var t := Step(s, es[0]);
      OutsidersDoNotInterfere(t, es[1..]);
      var rest := WithoutOutsiders(t, es[1..]);
      if OutsiderFrame(s, es[0]) {
        assert t == s;
        assert [] + rest == rest;
      } else {
        assert ([es[0]] + rest)[1..] == rest;
      }
    }
  }

  // ---------- exactly when a frame is targeted ----------

  /** A frame the handler relays is addressed to a single connection exactly when the
      sender's peer is recorded at that moment. */
  lemma RelayedFrameIsTargetedIff(s: State, src: Src, kind: Kind, payload: nat)
    requires s.active && src in s.conns && !Ignored(s.conns[src].isHost, Paired(s), src, kind)
    ensures var t := OnFrame(s, src, kind, payload);
            && |t.channel| == |s.channel| + 1 && t.channel[..|s.channel|] == s.channel
            && var env := t.channel[|s.channel|].env;
               && env.kind == kind && env.src == Some(src) && env.payload == payload
               && (env.to.Some? <==> if s.conns[src].isHost then Paired(s).guest.Some? else Paired(s).host.Some?)
  {}

  /** The record is not refreshed by ICE frames: ninety seconds after the last offer, answer
      or host connect it lapses, and what either party then sends goes to every socket of
      the thread, not only to the paired peer. */
  lemma QuietCallLapses(s: State, src: Src, wait: nat, payload: nat)
    requires Inv(s) && s.active && src in s.conns && wait >= OFFER_TTL
    ensures Run(s, [Tick(wait), Frame(src, Ice, payload)]).channel ==
            s.channel + [Published(Envelope(Ice, Some(src), None, payload), NOBODY, s.conns[src].isHost)]
  {
    var es := [Tick(wait), Frame(src, Ice, payload)];
    var t := Step(s, es[0]);
    assert Paired(t) == NOBODY;
    var u := Step(t, es[1]);
    assert u.channel == s.channel + [Published(Envelope(Ice, Some(src), None, payload), NOBODY, s.conns[src].isHost)];
    assert es[1..] == [es[1]] && es[1..][1..] == [];
    assert Run(u, []) == u;
    assert Run(t, es[1..]) == u;
  }

  // ---------- what a frame does, in the record's own columns ----------

  /** The pairing on record: what was written, until ninety seconds after. */
  lemma RecordIsLiveUntil(s: State)
    ensures Paired(s) == if s.call.Some? && s.now < s.call.value.until then s.call.value.value else Pairing(None, None)
  {}

  /** A frame is relayed exactly from a connected socket of a live link: any of the host's, and of
      other link holders all but answers as long as nobody else is the paired guest. It is
      addressed to the sender's peer: the recorded guest for the host, the recorded host for others. */
  lemma FrameIsRelayedIff(s: State, src: Src, kind: Kind, payload: nat)
    requires s.active && src in s.conns
    ensures var p, isHost, t := Paired(s), s.conns[src].isHost, OnFrame(s, src, kind, payload);
            if isHost || (kind != Answer && (p.guest.None? || p.guest == Some(src)))
            then var peer := if isHost then p.guest else p.host;
                 t.channel == s.channel + [Published(Envelope(kind, Some(src), peer, payload), p, isHost)]
            else t == s
  {}

  /** And this is what it does to the record and the buffered offer. */
  lemma FrameWritesTheRecord(s: State, src: Src, kind: Kind, payload: nat)
    requires s.active && src in s.conns
    requires s.conns[src].isHost || (kind != Answer && (Paired(s).guest.None? || Paired(s).guest == Some(src)))
    ensures var p, isHost, t := Paired(s), s.conns[src].isHost, OnFrame(s, src, kind, payload);
            && (kind == Offer && !isHost ==>
                  && t.call == Some(Expiring(Pairing(Some(src), p.host), s.now + 90))
                  && t.offer == Some(Expiring(Envelope(Offer, Some(src), p.host, payload), s.now + 90)))
            && (kind == Answer ==> t.call == Some(Expiring(Pairing(p.guest, Some(src)), s.now + 90)) && t.offer == None)
            && (kind == Hangup || kind == Decline ==> t.call == None && t.offer == None)
            && (kind == Ice || kind == Busy || (kind == Offer && isHost) ==> t.call == s.call && t.offer == s.offer)
            && t.conns == s.conns && t.subscribed == s.subscribed
            && t.handed == s.handed && t.deliveries == s.deliveries
  {}

  /** A connecting host is put on record beside the recorded guest and handed exactly a live offer;
      a connecting guest changes no record. */
  lemma ConnectingWritesTheRecord(s: State, src: Src, isHost: bool, w: Worker)
    requires s.active
    ensures var t := OnConnect(s, src, isHost, w);
            && t.conns == s.conns[src := Conn(isHost, w)] && t.subscribed == s.subscribed + {src}
            && t.offer == s.offer && t.channel == s.channel
            && t.call == (if isHost then Some(Expiring(Pairing(Paired(s).guest, Some(src)), s.now + 90)) else s.call)
            && t.handed == (if isHost && s.offer.Some? && s.now < s.offer.value.until
                            then s.handed + {Handed(src, s.offer.value.value, Pairing(Paired(s).guest, Some(src)))}
                            else s.handed)
  {}

  /** Leaving ends the call exactly when the paired guest leaves. */
  lemma LeavingEndsTheCallIff(s: State, src: Src)
    requires src in s.conns
    ensures var t := OnLeave(s, src);
            && t.conns == s.conns - {src} && t.subscribed == s.subscribed - {src}
            && if !s.conns[src].isHost && Paired(s).guest == Some(src)
               then t.call == None && t.offer == None
                    && t.channel == s.channel + [Published(Envelope(Hangup, None, None, 0), Pairing(None, None), false)]
               else t.call == s.call && t.offer == s.offer && t.channel == s.channel
  {}

  /** Delivery, exactly, over every run: when a worker passes an entry of the channel it goes to
      precisely those sockets connected to that worker and still subscribed which are not the
      sender and, when the sender's peer was on record, are that peer. */
  lemma PassingAnEntryReachesIff(now: int, workers: set<Worker>, es: seq<Event>, w: Worker, c: Src)
    requires PossibleRun(Start(now, workers), es)
    requires var s := Run(Start(now, workers), es); w in s.offsets && s.offsets[w] < |s.channel|
    ensures var s := Run(Start(now, workers), es);
            var i := s.offsets[w];
            var pub := s.channel[i];
            var onRecord := if pub.byHost then pub.relayedFor.guest else pub.relayedFor.host;
            var peer := if pub.env.src.None? then None else onRecord;
            Delivery(i, c) in Step(s, Deliver(w)).deliveries <==>
            || Delivery(i, c) in s.deliveries
            || (&& c in s.conns && s.conns[c].worker == w && c in s.subscribed
                && Some(c) != pub.env.src
                && (peer.None? || peer == Some(c)))
  {
    RunKeepsInv(Start(now, workers), es);
    var s := Run(Start(now, workers), es);
    assert Addressed(s.channel[s.offsets[w]]);
  }

  /** Nothing else moves: one entry further for this worker, deliveries of that entry only. */
  lemma PassingMovesNothingElse(s: State, w: Worker)
    requires w in s.offsets && s.offsets[w] < |s.channel|
    ensures var t := Step(s, Deliver(w));
            && t == s.(offsets := s.offsets[w := s.offsets[w] + 1], deliveries := t.deliveries)
            && s.deliveries <= t.deliveries
            && forall d :: d in t.deliveries && d !in s.deliveries ==> d.index == s.offsets[w]
  {}

  /** A revoked or expired link takes no socket and relays no frame: the sender is disconnected. */
  lemma DeadLinkRelaysNothing(s: State, src: Src, isHost: bool, w: Worker, kind: Kind, payload: nat)
    requires !s.active
    ensures OnConnect(s, src, isHost, w) == s
    ensures OnFrame(s, src, kind, payload) == OnLeave(s, src)
  {}
}
