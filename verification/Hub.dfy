/** The per-worker hub: which local sockets an envelope from Redis reaches, and how
    sockets enter and leave the two subscription tables. */
module Hub {
  import opened Common

  type Key = nat
  type Src = nat
  type DeviceId = nat

  /** A WebSocket; `src` is its `_kv_src` (thread sockets), `device` its `_kv_device` (user sockets). */
  datatype Socket = Socket(id: nat, src: Option<Src>, device: Option<DeviceId>)

  datatype Channel = UserChannel(user: Key) | ThreadChannel(thread: Key)

  datatype Envelope =
    | SessionRevoked(devices: set<DeviceId>)
    | Message(src: Option<Src>, to: Option<Src>, body: nat)

  type Subs = map<Key, set<Socket>>

  predicate NoEmptyBucket(subs: Subs) { forall k :: k in subs ==> subs[k] != {} }

  function Bucket(subs: Subs, key: Key): set<Socket> { if key in subs then subs[key] else {} }

  function Added(subs: Subs, key: Key, ws: Socket): Subs { subs[key := Bucket(subs, key) + {ws}] }

  function Discarded(subs: Subs, key: Key, ws: Socket): Subs {
    if Bucket(subs, key) - {ws} == {} then subs - {key} else subs[key := Bucket(subs, key) - {ws}]
  }

  /** The table once every socket of `gone` has been removed from every bucket. */
  function Without(subs: Subs, gone: set<Socket>): Subs {
    map k | k in subs && subs[k] - gone != {} :: subs[k] - gone
  }

  /** The echo and target filter of _deliver_local: skip the originating connection, and
      everyone but the target when there is one. */
  predicate Admits(wsSrc: Option<Src>, src: Option<Src>, to: Option<Src>) {
    && !(src.Some? && wsSrc == src)
    && !(to.Some? && wsSrc != to)
  }

  function Targets(userSubs: Subs, threadSubs: Subs, ch: Channel): set<Socket> {
    match ch
    case UserChannel(u) => Bucket(userSubs, u)
    case ThreadChannel(t) => Bucket(threadSubs, t)
  }

  /** Who must be sent the envelope, given the sockets subscribed to its channel. */
  function Recipients(targets: set<Socket>, env: Envelope): set<Socket> {
    if env.SessionRevoked? then {}
    else set ws | ws in targets && Admits(ws.src, env.src, env.to)
  }

  /** Who the hub closes: revoked devices, or recipients whose send fails or stalls. */
  function Dropped(targets: set<Socket>, env: Envelope, stalled: set<Socket>): set<Socket> {
    if env.SessionRevoked? then set ws | ws in targets && ws.device.Some? && ws.device.value in env.devices
    else Recipients(targets, env) * stalled
  }

  class Worker {
    var userSubs: Subs
    var threadSubs: Subs

    ghost predicate Valid() reads this { NoEmptyBucket(userSubs) && NoEmptyBucket(threadSubs) }

    constructor ()
      ensures Valid() && userSubs == map[] && threadSubs == map[]
    {
      userSubs, threadSubs := map[], map[];
    }

    method Register(ws: Socket, user: Key)
      requires Valid()
      modifies `userSubs
      ensures Valid() && userSubs == Added(old(userSubs), user, ws)
    {
      var bucket := if user in userSubs then userSubs[user] else {};
      userSubs := userSubs[user := bucket + {ws}];
    }

    method RegisterThread(ws: Socket, thread: Key)
      requires Valid()
      modifies `threadSubs
      ensures Valid() && threadSubs == Added(old(threadSubs), thread, ws)
    {
      var bucket := if thread in threadSubs then threadSubs[thread] else {};
      threadSubs := threadSubs[thread := bucket + {ws}];
    }

    static method Discard(subs: Subs, key: Key, ws: Socket) returns (r: Subs)
      requires NoEmptyBucket(subs)
      ensures r == Discarded(subs, key, ws) && NoEmptyBucket(r)
    {
      r := subs;
      if key !in r {
        assert subs - {key} == subs;
        return;
      }
      var bucket := r[key] - {ws};
      if bucket == {} {
        r := r - {key};
      } else {
        r := r[key := bucket];
      }
    }

    method Unregister(ws: Socket, user: Key)
      requires Valid()
      modifies `userSubs
      ensures Valid() && userSubs == Discarded(old(userSubs), user, ws)
    {
      var r := Discard(userSubs, user, ws);
      userSubs := r;
    }

    method UnregisterThread(ws: Socket, thread: Key)
      requires Valid()
      modifies `threadSubs
      ensures Valid() && threadSubs == Discarded(old(threadSubs), thread, ws)
    {
      var r := Discard(threadSubs, thread, ws);
      threadSubs := r;
    }

    /** The inner loop of _drop over one table: discard `ws` from every bucket that holds it. */
    static method Purge(subs: Subs, ws: Socket) returns (r: Subs)
      requires NoEmptyBucket(subs)
      ensures r == Without(subs, {ws}) && NoEmptyBucket(r)
    {
      r := subs;
      var keys := set k | k in subs && ws in subs[k];
      while keys != {}
        invariant NoEmptyBucket(r)
        invariant keys <= subs.Keys && forall k :: k in keys ==> ws in subs[k]
        invariant forall k :: k in keys ==> k in r && r[k] == subs[k]
        invariant forall k :: k in subs && k !in keys ==> (k in r <==> subs[k] - {ws} != {})
        invariant forall k :: k in r && k !in keys ==> k in subs && r[k] == subs[k] - {ws}
        decreases keys
      {
        var key :| key in keys;
        r := Discard(r, key, ws);
        keys := keys - {key};
      }
    }

    method Drop(ws: Socket)
      requires Valid()
      modifies this
      ensures Valid()
      ensures userSubs == Without(old(userSubs), {ws}) && threadSubs == Without(old(threadSubs), {ws})
    {
      var u := Purge(userSubs, ws);
      var t := Purge(threadSubs, ws);
      userSubs, threadSubs := u, t;
    }

    /** Route one envelope to local sockets. `stalled` are the sockets whose send fails or
        times out in this delivery; `sent` are the sockets that received the envelope. */
    method DeliverLocal(ch: Channel, env: Envelope, stalled: set<Socket>) returns (sent: set<Socket>)
      requires Valid()
      modifies this
      ensures Valid()
      ensures var targets := Targets(old(userSubs), old(threadSubs), ch);
              && sent == Recipients(targets, env) - stalled
              && userSubs == Without(old(userSubs), Dropped(targets, env, stalled))
              && threadSubs == Without(old(threadSubs), Dropped(targets, env, stalled))
    {
      sent := {};
      var todo := match ch
        case UserChannel(u) => if u in userSubs then userSubs[u] else {}
        case ThreadChannel(t) => if t in threadSubs then threadSubs[t] else {};
      ghost var targets, gone := todo, {};
      ghost var u0, t0 := userSubs, threadSubs;
      WithoutNone(u0);
      WithoutNone(t0);
      while todo != {}
        invariant Valid() && todo <= targets
        invariant gone == Dropped(targets - todo, env, stalled)
        invariant sent == Recipients(targets - todo, env) - stalled
        invariant userSubs == Without(u0, gone) && threadSubs == Without(t0, gone)
        decreases todo
      {
        var ws :| ws in todo;
        ghost var next := todo - {ws};
        assert targets - next == (targets - todo) + {ws};
        if env.SessionRevoked? {
          if ws.device.Some? && ws.device.value in env.devices {
            WithoutMore(u0, gone, ws);
            WithoutMore(t0, gone, ws);
            Drop(ws);
            gone := gone + {ws};
          }
        } else if env.src.Some? && ws.src == env.src {
        } else if env.to.Some? && ws.src != env.to {
        } else if ws in stalled {
          WithoutMore(u0, gone, ws);
          WithoutMore(t0, gone, ws);
          Drop(ws);
          gone := gone + {ws};
        } else {
          sent := sent + {ws};
        }
        todo := todo - {ws};
      }
      assert targets - {} == targets;
    }
  }

  lemma WithoutNone(subs: Subs)
    requires NoEmptyBucket(subs)
    ensures Without(subs, {}) == subs
  {
    assert forall k :: k in subs ==> subs[k] - {} == subs[k];
  }

  lemma WithoutMore(subs: Subs, gone: set<Socket>, ws: Socket)
    ensures Without(Without(subs, gone), {ws}) == Without(subs, gone + {ws})
  {
    assert forall k :: k in subs ==> subs[k] - gone - {ws} == subs[k] - (gone + {ws});
  }

  /** Dropping removes exactly the dropped sockets from every bucket and leaves no empty one. */
  lemma WithoutBucket(subs: Subs, gone: set<Socket>, k: Key)
    ensures Bucket(Without(subs, gone), k) == Bucket(subs, k) - gone
    ensures NoEmptyBucket(Without(subs, gone))
  {
    if k in subs && subs[k] - gone == {} {
      assert k !in Without(subs, gone);
    }
  }

  /** Register then unregister gives back the table, when the socket was not there. */
  lemma RegisterUnregister(subs: Subs, key: Key, ws: Socket)
    requires NoEmptyBucket(subs) && ws !in Bucket(subs, key)
    ensures Discarded(Added(subs, key, ws), key, ws) == subs
  {
    assert Bucket(subs, key) + {ws} - {ws} == Bucket(subs, key);
  }

  /** After a session.revoked envelope no socket of a revoked device that was subscribed to
      the user is left in any table, and sockets of other devices stay where they were. */
  lemma RevokedSocketsAreGone(users: Subs, threads: Subs, user: Key, devices: set<DeviceId>, stalled: set<Socket>,
      ws: Socket, k: Key)
    requires ws in Bucket(users, user)
    ensures var gone := Dropped(Bucket(users, user), SessionRevoked(devices), stalled);
            if ws.device.Some? && ws.device.value in devices
            then ws !in Bucket(Without(users, gone), k) && ws !in Bucket(Without(threads, gone), k)
            else (ws in Bucket(Without(users, gone), k) <==> ws in Bucket(users, k))
                 && (ws in Bucket(Without(threads, gone), k) <==> ws in Bucket(threads, k))
  {
    var gone := Dropped(Bucket(users, user), SessionRevoked(devices), stalled);
    WithoutBucket(users, gone, k);
    WithoutBucket(threads, gone, k);
  }

  /** A targeted envelope reaches at most the connection it names, and never its sender. */
  lemma TargetedReachesOnlyTarget(targets: set<Socket>, src: Option<Src>, to: Src, body: nat, ws: Socket)
    ensures ws in Recipients(targets, Message(src, Some(to), body)) <==>
            ws in targets && ws.src == Some(to) && src != Some(to)
  {}

  // ---------- who is reached, socket by socket ----------

  /** A registered socket is in its key's bucket from then on and in no other; discarding takes out
      that one. */
  lemma RegisteredIsThere(subs: Subs, key: Key, ws: Socket, k: Key, x: Socket)
    ensures x in Bucket(Added(subs, key, ws), k) <==> x in Bucket(subs, k) || (k == key && x == ws)
    ensures x in Bucket(Discarded(subs, key, ws), k) <==> x in Bucket(subs, k) && !(k == key && x == ws)
  {}

  /** A message for a user's channel, or a thread's, is sent to a socket exactly when the socket is
      registered in that channel's own table under that key, is not the sender, is the target if
      there is one, and does not stall; a revocation is sent to nobody. */
  lemma DeliveredToIff(users: Subs, threads: Subs, ch: Channel, env: Envelope, stalled: set<Socket>, ws: Socket)
    ensures ws in Recipients(Targets(users, threads, ch), env) - stalled <==>
            && env.Message? && ws !in stalled
            && (match ch
                case UserChannel(u) => u in users && ws in users[u]
                case ThreadChannel(t) => t in threads && ws in threads[t])
            && (env.src.Some? ==> ws.src != env.src)
            && (env.to.Some? ==> ws.src == env.to)
  {}

  /** Without a target it reaches every other socket registered there. */
  lemma UntargetedReachesAllOthers(subs: Subs, key: Key, src: Option<Src>, body: nat, ws: Socket)
    ensures ws in Recipients(Bucket(subs, key), Message(src, None, body)) <==>
            key in subs && ws in subs[key] && (src.None? || ws.src != src)
  {}

  /** Exactly these are closed and leave both tables: for a revocation the sockets of its devices,
      for a message the stalled ones among those it was for. */
  lemma ClosedIff(targets: set<Socket>, env: Envelope, stalled: set<Socket>, ws: Socket)
    ensures ws in Dropped(targets, env, stalled) <==>
            && ws in targets
            && match env
               case SessionRevoked(devices) => ws.device.Some? && ws.device.value in devices
               case Message(src, to, _) => ws in stalled && (src.Some? ==> ws.src != src) && (to.Some? ==> ws.src == to)
  {}
}
