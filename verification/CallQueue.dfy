/** Call signalling buffered for a callee who is still waking up: a Redis list per user, trimmed,
    refreshed by each frame, and emptied on delivery or when the call ends. */
module CallQueue {
  import opened Common
  import RateLimit

  type UserId = nat
  type ConvId = nat

  datatype Kind = Offer | Answer | Ice | Hangup | Decline | Busy | Ringing

  datatype Frame = Frame(kind: Kind, sender: UserId, conv: ConvId, body: string)

  const QUEUE_TTL := 60
  const QUEUE_MAX := 64

  /** These end a call. */
  predicate Clears(k: Kind) { k == Answer || k == Hangup || k == Decline }

  datatype Queue = Queue(items: seq<Frame>, expires: int)

  function Last(s: seq<Frame>, n: nat): seq<Frame> { if |s| <= n then s else s[|s| - n..] }

  function Live(queues: map<UserId, Queue>, u: UserId, now: int): seq<Frame> {
    if u in queues && now < queues[u].expires then queues[u].items else []
  }

  // ---------- the relay ----------

  class Relay {
    const members: set<(ConvId, UserId)>
    var queues: map<UserId, Queue>
    var rings: map<(UserId, UserId), RateLimit.Window>
    ghost var published: seq<(UserId, Frame)>   // live fan-out: to whose devices, what

    constructor (members: set<(ConvId, UserId)>)
      ensures this.members == members && queues == map[] && rings == map[] && published == []
    {
      this.members, queues, rings, published := members, map[], map[], [];
    }

    /** _queue_event: rpush, ltrim, expire. */
    method QueueEvent(u: UserId, f: Frame, now: int)
      modifies `queues
      ensures queues == Queued(old(queues), u, f, now)
      ensures u in queues && queues[u].expires == now + 60
      ensures var kept := if u in old(queues) && now < old(queues)[u].expires then old(queues)[u].items else [];
              var items := kept + [f];
              queues[u].items == if |items| > 64 then items[|items| - 64..] else items
      ensures queues == old(queues)[u := queues[u]]
    {
      var items := if u in queues && now < queues[u].expires then queues[u].items else [];
      items := items + [f];
      if |items| > QUEUE_MAX { items := items[|items| - QUEUE_MAX..]; }
      queues := queues[u := Queue(items, now + QUEUE_TTL)];
    }

    /** _ring_allowed of this pair. */
    method RingAllowed(pair: (UserId, UserId), now: int) returns (ok: bool)
      modifies `rings
      ensures rings == old(rings)[pair := Rung(old(rings), pair, now)]
      ensures ok <==> Rung(old(rings), pair, now).count <= RateLimit.CALL_RING_MAX
    {
      var w := RateLimit.Bump(if pair in rings then Some(rings[pair]) else None, now, RateLimit.RING_WINDOW);
      rings := rings[pair := w];
      ok := w.count <= RateLimit.CALL_RING_MAX;
    }

    /** relay_call_event, from the membership check on: whether the frame was passed on, to the
        callee's live devices only, and whether a wake-up push rings them. */
    method RelayCallEvent(f: Frame, to: UserId, now: int) returns (passed: bool, rang: bool)
      modifies this
      ensures passed <==> (f.conv, f.sender) in members && (f.conv, to) in members
      ensures published == if passed then old(published) + [(to, f)] else old(published)
      ensures queues == if passed then Relayed(old(queues), f, to, now) else old(queues)
      ensures passed && f.kind in {Answer, Hangup, Decline} ==> queues == old(queues) - {to, f.sender}
      ensures passed && f.kind !in {Answer, Hangup, Decline} ==>
                to in queues && queues[to].items != [] && queues[to].items[|queues[to].items| - 1] == f
                && queues == old(queues)[to := queues[to]]
      ensures rings == if passed && f.kind.Offer?
                       then old(rings)[(f.sender, to) := Rung(old(rings), (f.sender, to), now)] else old(rings)
      ensures rang <==> passed && f.kind.Offer? && Rung(old(rings), (f.sender, to), now).count <= 6
    {
      rang := false;
      if (f.conv, f.sender) !in members { return false, false; }
      if (f.conv, to) !in members { return false, false; }
      published := published + [(to, f)];
      if !Clears(f.kind) {
        QueueEvent(to, f, now);
      }
      if f.kind.Offer? {
        rang := RingAllowed((f.sender, to), now);
      } else if Clears(f.kind) {
        queues := queues - {to, f.sender};
      }
      passed := true;
    }

    /** deliver_buffered_calls; the socket may stop taking frames at any point. */
    method DeliverBufferedCalls(u: UserId, takes: nat, now: int) returns (sent: seq<Frame>)
      modifies `queues
      ensures queues == old(queues) - {u}
      ensures var items := Live(old(queues), u, now); sent == if takes < |items| then items[..takes] else items
    {
      var items := if u in queues && now < queues[u].expires then queues[u].items else [];
      queues := queues - {u};
      sent := [];
      for i := 0 to |items|
        invariant sent == items[..i] && i <= takes
      {
        if i == takes { break; }
        sent := sent + [items[i]];
      }
    }
  }

  /** The pair's counter after one more ring. */
  function Rung(rings: map<(UserId, UserId), RateLimit.Window>, pair: (UserId, UserId), now: int): RateLimit.Window {
    RateLimit.Incr(if pair in rings then rings[pair] else RateLimit.Window(0, now), now, RateLimit.RING_WINDOW)
  }

  function Queued(queues: map<UserId, Queue>, u: UserId, f: Frame, now: int): map<UserId, Queue> {
    queues[u := Queue(Last(Live(queues, u, now) + [f], QUEUE_MAX), now + QUEUE_TTL)]
  }

  function Relayed(queues: map<UserId, Queue>, f: Frame, to: UserId, now: int): map<UserId, Queue> {
    if Clears(f.kind) then queues - {to, f.sender} else Queued(queues, to, f, now)
  }

  // ---------- whole runs ----------

  datatype Event =
    | Pass(f: Frame, to: UserId)   // a frame both of whose users are in the conversation
    | Connect(u: UserId)
    | Tick(seconds: nat)

  datatype Stamped = Stamped(e: Event, at: int)

  datatype State = State(queues: map<UserId, Queue>, now: int, history: seq<Stamped>)

  function Step(s: State, e: Event): State {
    var h := s.history + [Stamped(e, s.now)];
    match e
    case Pass(f, to) => State(Relayed(s.queues, f, to, s.now), s.now, h)
    case Connect(u) => State(s.queues - {u}, s.now, h)
    case Tick(n) => State(s.queues, s.now + n, h)
  }

  function Run(s: State, es: seq<Event>): State
    decreases |es|
  {
    if es == [] then s else Run(Step(s, es[0]), es[1..])
  }

  // ---------- what should be waiting, read backwards off the history ----------

  predicate Resets(e: Event, u: UserId) {
    || (e.Pass? && Clears(e.f.kind) && (e.to == u || e.f.sender == u))
    || (e.Connect? && e.u == u)
  }

  predicate Buffers(e: Event, u: UserId) { e.Pass? && !Clears(e.f.kind) && e.to == u }

  /** The frames for u since the last connection, end of a call or minute of silence. */
  function Backlog(h: seq<Stamped>, u: UserId, horizon: int): seq<Frame>
    decreases |h|
  {
    if h == [] then []
    else
      var last, before := h[|h| - 1], h[..|h| - 1];
      if Resets(last.e, u) then []
      else if !Buffers(last.e, u) then Backlog(before, u, horizon)
      else if horizon - last.at >= QUEUE_TTL then []
      else Backlog(before, u, last.at) + [last.e.f]
  }

  /** The last frame queued for u since it was last reset, if any. */
  function LastQueued(h: seq<Stamped>, u: UserId): Option<int>
    decreases |h|
  {
    if h == [] || Resets(h[|h| - 1].e, u) then None
    else if Buffers(h[|h| - 1].e, u) then Some(h[|h| - 1].at)
    else LastQueued(h[..|h| - 1], u)
  }

  /** Silence since the last frame decides all of it. */
  lemma {:induction false} BacklogByLast(h: seq<Stamped>, u: UserId, horizon: int)
    ensures var t := LastQueued(h, u);
            Backlog(h, u, horizon) == if t.None? || horizon - t.value >= QUEUE_TTL then [] else Backlog(h, u, t.value)
    decreases |h|
  {
    if h != [] && !Resets(h[|h| - 1].e, u) && !Buffers(h[|h| - 1].e, u) {
      BacklogByLast(h[..|h| - 1], u, horizon);
    }
  }

  /** A queue is its user's backlog at the last frame, trimmed, with a minute to live. */
  ghost predicate Inv(s: State) {
    forall u: UserId ::
      var t := LastQueued(s.history, u);
      if t.None? then u !in s.queues
      else u in s.queues && s.queues[u] == Queue(Last(Backlog(s.history, u, t.value), QUEUE_MAX), t.value + QUEUE_TTL)
  }

  lemma LiveIsBacklog(s: State, u: UserId)
    requires Inv(s)
    ensures Live(s.queues, u, s.now) == Last(Backlog(s.history, u, s.now), QUEUE_MAX)
  {
    BacklogByLast(s.history, u, s.now);
  }

  lemma TrimTwice(s: seq<Frame>, f: Frame)
    ensures Last(Last(s, QUEUE_MAX) + [f], QUEUE_MAX) == Last(s + [f], QUEUE_MAX)
  {}

  lemma StepKeepsInv(s: State, e: Event)
    requires Inv(s)
    ensures Inv(Step(s, e))
  {
    var t := Step(s, e);
    var h := t.history;
    assert h[|h| - 1] == Stamped(e, s.now) && h[..|h| - 1] == s.history;
    forall u: UserId
      ensures var at := LastQueued(h, u);
              if at.None? then u !in t.queues
              else u in t.queues && t.queues[u] == Queue(Last(Backlog(h, u, at.value), QUEUE_MAX), at.value + QUEUE_TTL)
    {
      if Buffers(e, u) {
        LiveIsBacklog(s, u);
        TrimTwice(Backlog(s.history, u, s.now), e.f);
      }
    }
  }

  lemma {:induction false} RunKeepsInv(s: State, es: seq<Event>)
    requires Inv(s)
    ensures Inv(Run(s, es))
    decreases |es|
  {
    if es != [] {
      StepKeepsInv(s, es[0]);
      RunKeepsInv(Step(s, es[0]), es[1..]);
    }
  }

  function Start(now: int): State { State(map[], now, []) }

  /** A callee who connects is handed, in order, the newest 64 frames of the backlog: everything
      relayed to it since it last connected, a call of its ended, or a minute passed in silence. */
  lemma ConnectingGetsTheBacklog(now: int, es: seq<Event>, u: UserId)
    ensures var t := Run(Start(now), es);
            Live(t.queues, u, t.now) == Last(Backlog(t.history, u, t.now), QUEUE_MAX)
  {
    RunKeepsInv(Start(now), es);
    LiveIsBacklog(Run(Start(now), es), u);
  }

  /** Trimming drops the oldest frame, which is the offer itself: the offer that opens a backlog is
      delivered exactly while at most 63 frames follow it. */
  lemma OpeningOfferArrivesIff(now: int, es: seq<Event>, u: UserId)
    requires var t := Run(Start(now), es);
             var b := Backlog(t.history, u, t.now);
             b != [] && b[0].kind == Offer && forall k :: 1 <= k < |b| ==> b[k] != b[0]
    ensures var t := Run(Start(now), es);
            var b := Backlog(t.history, u, t.now);
            b[0] in Live(t.queues, u, t.now) <==> |b| <= QUEUE_MAX
  {
    ConnectingGetsTheBacklog(now, es, u);
  }

  /** Frames between two other users never touch a third one's queue. */
  lemma OthersDoNotInterfere(s: State, f: Frame, to: UserId, u: UserId)
    requires u != to && u != f.sender
    ensures Live(Step(s, Pass(f, to)).queues, u, s.now) == Live(s.queues, u, s.now)
    ensures Backlog(Step(s, Pass(f, to)).history, u, s.now) == Backlog(s.history, u, s.now)
  {
    var h := Step(s, Pass(f, to)).history;
    assert h[..|h| - 1] == s.history;
  }

  /** The same with the numbers written out: a frame still waits exactly while less than a minute has
      passed since the last one queued, and at most 64 wait. */
  lemma WaitingIff(now: int, es: seq<Event>, u: UserId)
    ensures var t := Run(Start(now), es);
            var last := LastQueued(t.history, u);
            && |Live(t.queues, u, t.now)| <= 64
            && (last.None? || t.now >= last.value + 60 ==> Live(t.queues, u, t.now) == [])
            && (last.Some? && t.now < last.value + 60 ==>
                  var b := Backlog(t.history, u, last.value);
                  b != [] && Live(t.queues, u, t.now) == b[if |b| <= 64 then 0 else |b| - 64..])
  {
    RunKeepsInv(Start(now), es);
    var t := Run(Start(now), es);
    BacklogEndsWithLast(t.history, u);
    if LastQueued(t.history, u).Some? {
      var b := Backlog(t.history, u, LastQueued(t.history, u).value);
      assert b[0..] == b;
    }
  }

  lemma {:induction false} BacklogEndsWithLast(h: seq<Stamped>, u: UserId)
    ensures var t := LastQueued(h, u); t.Some? ==> Backlog(h, u, t.value) != []
    decreases |h|
  {
    if h != [] && !Resets(h[|h| - 1].e, u) && !Buffers(h[|h| - 1].e, u) { BacklogEndsWithLast(h[..|h| - 1], u); }
  }

  /** What empties a queue and what joins it. */
  lemma ResetsAndJoins(f: Frame, to: UserId, v: UserId, u: UserId)
    ensures Resets(Pass(f, to), u) <==> f.kind in {Answer, Hangup, Decline} && (to == u || f.sender == u)
    ensures Buffers(Pass(f, to), u) <==> f.kind !in {Answer, Hangup, Decline} && to == u
    ensures Resets(Connect(v), u) <==> v == u
  {}
}
