/** Attachments: which files a row may count on, from upload to garbage collection.
    Files and rows live in different stores and nothing in the database ties one to the other. */
module Media {
  import opened Common
  import opened Schema
  import Retention

  // ---------- references ----------

  datatype RowKey = InMessage(i: MsgId) | InGuest(g: GuestMsgId) | InNote(n: NoteId)

  predicate Attached(ns: map<NoteId, Note>, n: NoteId, m: MediaId) { n in ns && m in ns[n].attachments }

  predicate Refers(db: Db, r: RowKey, m: MediaId) {
    match r
    case InMessage(i) => i in db.messages && db.messages[i].media == Some(m)
    case InGuest(g) => g in db.guestMessages && db.guestMessages[g].media == Some(m)
    case InNote(n) => Attached(db.notes, n, m)
  }

  function InMessages(ms: map<MsgId, Message>): set<MediaId> {
    set i | i in ms && ms[i].media.Some? :: ms[i].media.value
  }

  function InGuests(gs: map<GuestMsgId, GuestMessage>): set<MediaId> {
    set g | g in gs && gs[g].media.Some? :: gs[g].media.value
  }

  function InNotes(ns: map<NoteId, Note>): set<MediaId> {
    set n, m | n in ns && m in ns[n].attachments :: m
  }

  /** referenced_ids. */
  function Referenced(db: Db): set<MediaId> {
    InMessages(db.messages) + InGuests(db.guestMessages) + InNotes(db.notes)
  }

  lemma ReferencedIffRefers(db: Db, m: MediaId)
    ensures m in Referenced(db) <==> exists r :: Refers(db, r, m)
  {
    if m in InMessages(db.messages) {
      var i :| i in db.messages && db.messages[i].media == Some(m);
      assert Refers(db, InMessage(i), m);
    }
    if m in InGuests(db.guestMessages) {
      var g :| g in db.guestMessages && db.guestMessages[g].media == Some(m);
      assert Refers(db, InGuest(g), m);
    }
    if m in InNotes(db.notes) {
      var n :| n in db.notes && m in db.notes[n].attachments;
      assert Refers(db, InNote(n), m);
    }
  }

  /** Every live row's file exists. */
  ghost predicate AllPresent(db: Db) { forall r, m: MediaId :: Refers(db, r, m) ==> m in db.files }

  // ---------- the garbage collector ----------

  function Old(files: map<MediaId, int>, now: int): set<MediaId> {
    set m | m in files && files[m] <= now - DAY
  }

  function StaleRows(blobs: map<MediaId, BlobRow>, referenced: set<MediaId>, now: int): set<MediaId> {
    set m | m in blobs && blobs[m].createdAt < now - DAY && m !in referenced
  }

  /** The file cut-off is taken at `now`, the row cut-off later, once the files are gone. */
  function Gc(db: Db, now: int, rowsAt: int): Db {
    db.(files := db.files - (Old(db.files, now) - Referenced(db)),
        blobs := db.blobs - StaleRows(db.blobs, Referenced(db), rowsAt))
  }

  /** Afterwards a file a day old is referenced; what a row needs and what is younger stays. */
  lemma GcReclaimsExactly(db: Db, now: int, rowsAt: int, m: MediaId)
    ensures m in Gc(db, now, rowsAt).files <==>
            m in db.files && (db.files[m] > now - DAY || exists r :: Refers(db, r, m))
    ensures Referenced(Gc(db, now, rowsAt)) == Referenced(db)
  {
    ReferencedIffRefers(db, m);
  }

  /** A second run at the same instants finds nothing. */
  lemma GcTwiceIsGcOnce(db: Db, now: int, rowsAt: int)
    ensures Gc(Gc(db, now, rowsAt), now, rowsAt) == Gc(db, now, rowsAt)
  {
    var d := Gc(db, now, rowsAt);
    assert Referenced(d) == Referenced(db);
    assert Old(d.files, now) - Referenced(d) == {};
    assert StaleRows(d.blobs, Referenced(d), rowsAt) == {};
    assert d.files - {} == d.files && d.blobs - {} == d.blobs;
  }

  // ---------- the collector and the delete routes on the live tables ----------

  /** list_ids: a loop over the directory, in whatever order it lists. */
  method ListIds(files: map<MediaId, int>, now: int) returns (out: seq<MediaId>)
    ensures forall m :: m in out <==> m in Old(files, now)
    ensures forall j, k :: 0 <= j < k < |out| ==> out[j] != out[k]
  {
    out := [];
    var todo := files.Keys;
    while todo != {}
      invariant todo <= files.Keys
      invariant forall m :: m in out <==> m in Old(files, now) && m !in todo
      invariant forall j, k :: 0 <= j < k < |out| ==> out[j] != out[k]
      decreases todo
    {
      var name :| name in todo;
      if files[name] <= now - DAY { out := out + [name]; }
      todo := todo - {name};
    }
  }

  method ReferencedIds(d: Retention.Database) returns (ids: set<MediaId>)
    ensures ids == Referenced(d.View())
  {
    ids := {};
    var messages := d.messages.Keys;
    while messages != {}
      invariant messages <= d.messages.Keys
      invariant ids == set i | i in d.messages && i !in messages &&
          d.messages[i].media.Some? :: d.messages[i].media.value
      decreases messages
    {
      var i :| i in messages;
      if d.messages[i].media.Some? { ids := ids + {d.messages[i].media.value}; }
      messages := messages - {i};
    }
    var guests := d.guestMessages.Keys;
    while guests != {}
      invariant guests <= d.guestMessages.Keys
      invariant ids == InMessages(d.messages) + (
        set g | g in d.guestMessages && g !in guests &&
            d.guestMessages[g].media.Some? :: d.guestMessages[g].media.value)
      decreases guests
    {
      var g :| g in guests;
      if d.guestMessages[g].media.Some? { ids := ids + {d.guestMessages[g].media.value}; }
      guests := guests - {g};
    }
    var notes := d.notes.Keys;
    while notes != {}
      invariant notes <= d.notes.Keys
      invariant ids == InMessages(d.messages) + InGuests(d.guestMessages) + (
        set n, m | n in d.notes && n !in notes && m in d.notes[n].attachments :: m)
      decreases notes
    {
      var n :| n in notes;
      ids := ids + d.notes[n].attachments;
      notes := notes - {n};
    }
  }

  /** The deleting loop of gc_once. */
  method RemoveUnreferenced(d: Retention.Database, candidates: seq<MediaId>, referenced: set<MediaId>)
    returns (removed: nat, ghost gone: set<MediaId>)
    requires forall j, k :: 0 <= j < k < |candidates| ==> candidates[j] != candidates[k]
    modifies d`files
    ensures forall m :: m in gone <==> m in candidates && m !in referenced
    ensures d.files == old(d.files) - gone
    ensures removed == |gone|
  {
    removed, gone := 0, {};
    for k := 0 to |candidates|
      invariant d.files == old(d.files) - gone
      invariant forall m :: m in gone <==> m in candidates[..k] && m !in referenced
      invariant removed == |gone|
    {
      var id := candidates[k];
      assert candidates[..k + 1] == candidates[..k] + [id];
      if id !in referenced {
        d.RemoveEach({id});
        removed := removed + 1;
        gone := gone + {id};
      }
    }
    assert candidates[..|candidates|] == candidates;
  }

  method GcOnce(d: Retention.Database, now: int, rowsAt: int) returns (removed: nat)
    modifies d
    ensures d.View() == Gc(old(d.View()), now, rowsAt)
    ensures removed == |Old(old(d.files), now) - Referenced(old(d.View()))|
  {
    var candidates := ListIds(d.files, now);
    var referenced := ReferencedIds(d);
    ghost var was, gone := d.View(), {};
    removed, gone := RemoveUnreferenced(d, candidates, referenced);
    assert gone == Old(was.files, now) - referenced;
    assert d.View() == was.(files := was.files - gone);
    d.blobs := d.blobs - StaleRows(d.blobs, referenced, rowsAt);
    assert d.View() == was.(files := was.files - gone, blobs := was.blobs - StaleRows(was.blobs, referenced, rowsAt));
  }

  function Unsent(db: Db, i: MsgId): Db
    requires i in db.messages
  {
    var msg := db.messages[i];
    db.(messages := db.messages[i := msg.(unsent := true, media := None)],
        files := if msg.media.Some? then db.files - {msg.media.value} else db.files)
  }

  /** unsend_message; false is the 404 or 403. */
  method UnsendMessage(d: Retention.Database, i: MsgId, u: UserId) returns (ok: bool)
    modifies d
    ensures ok <==>
            && i in old(d.messages)
            && old(d.messages)[i].sender == Some(u)
            && (old(d.messages)[i].conv, u) in old(d.members)
    ensures d.View() == if ok then Unsent(old(d.View()), i) else old(d.View())
    ensures ok ==> d.messages == old(d.messages)[i := old(d.messages)[i].(unsent := true, media := None)]
    ensures ok ==>
              d.files == match old(d.messages)[i].media case Some(m) => old(d.files) - {m} case None => old(d.files)
  {
    if i !in d.messages { return false; }
    var msg := d.messages[i];
    if msg.sender != Some(u) || (msg.conv, u) !in d.members { return false; }
    if msg.media.Some? {
      d.RemoveEach({msg.media.value});
      msg := msg.(media := None);
    }
    d.messages := d.messages[i := msg.(unsent := true)];
    ok := true;
  }

  predicate CanUnsend(db: Db, i: MsgId, u: UserId) {
    i in db.messages && db.messages[i].sender == Some(u) && (db.messages[i].conv, u) in db.members
  }

  /** Leaving, or being removed: the last member out takes the conversation along. */
  function Left(db: Db, c: ConvId, u: UserId): Db {
    var d := db.(members := db.members - {(c, u)});
    if Retention.Memberless(d, c) && c in d.convs then DropConvs(d, {c}) else d
  }

  method LeaveConversation(d: Retention.Database, c: ConvId, u: UserId)
    requires (c, u) in d.members && Referential(d.View())
    modifies d
    ensures d.View() == Left(old(d.View()), c, u)
  {
    d.members := d.members - {(c, u)};
    if Retention.Memberless(d.View(), c) {
      var _ := d.DropConvRows({c});
    }
  }

  method RevokeLink(d: Retention.Database, t: ThreadId, u: UserId) returns (ok: bool)
    modifies d
    ensures ok == (t in old(d.threads) && old(d.threads)[t].creator == u)
    ensures d.View() == if ok then DropThreads(old(d.View()), {t}) else old(d.View())
  {
    if t !in d.threads || d.threads[t].creator != u { return false; }
    var _ := d.DropThreadRows({t});
    ok := true;
  }

  // ---------- when a single delete is safe ----------

  /** Unsending keeps every remaining file exactly when no other row shares the attachment. */
  lemma UnsendIsSafeIff(db: Db, i: MsgId)
    requires AllPresent(db) && i in db.messages
    ensures AllPresent(Unsent(db, i)) <==>
            forall r, m: MediaId :: Refers(db, r, m) && db.messages[i].media == Some(m) ==> r == InMessage(i)
  {
    var d := Unsent(db, i);
    forall r, m: MediaId ensures Refers(d, r, m) <==> Refers(db, r, m) && r != InMessage(i) {}
    if AllPresent(d) {
      forall r, m: MediaId | Refers(db, r, m) && db.messages[i].media == Some(m) ensures r == InMessage(i) {
        assert m !in d.files;
        assert !Refers(d, r, m);
      }
    }
  }

  /** The same for deleting any set of messages: retention, and an emptied conversation. */
  lemma DropMessagesIsSafeIff(db: Db, gone: set<MsgId>)
    requires AllPresent(db)
    ensures AllPresent(DropMessages(db, gone)) <==>
            forall r, m: MediaId :: Refers(db, r, m) && m in MediaIn(db.messages, gone) ==> r.InMessage? && r.i in gone
  {
    var d := DropMessages(db, gone);
    forall r, m: MediaId ensures Refers(d, r, m) <==> Refers(db, r, m) && !(r.InMessage? && r.i in gone) {}
    if AllPresent(d) {
      forall r, m: MediaId | Refers(db, r, m) && m in MediaIn(db.messages, gone) ensures r.InMessage? && r.i in gone {
        assert m !in d.files;
        assert !Refers(d, r, m);
      }
    }
  }

  // ---------- whole runs ----------

  /** born: every id ever uploaded and when; used: every id a request ever succeeded to put in a row. */
  datatype State = State(db: Db, now: int, born: map<MediaId, int>, used: set<MediaId>)

  datatype Attachment = Nothing | Image(id: MediaId) | File(id: MediaId)

  datatype Event =
    | Save(m: MediaId)
    | Record(m: MediaId, owner: Option<UserId>, thread: Option<ThreadId>,
        began: int)   // stamped with its transaction's start
    | CreateConv(c: ConvId, conv: Conversation, users: set<UserId>)
    | Send(i: MsgId, c: ConvId, u: UserId, media: Option<MediaId>, replyTo: Option<MsgId>)
    | Unsend(i: MsgId, u: UserId)
    | CreateThread(t: ThreadId, u: UserId, expiresAt: Option<int>, burnMinutes: Option<int>)
    | GuestPost(g: GuestMsgId, t: ThreadId, body: Attachment)
    | HostPost(g: GuestMsgId, t: ThreadId, u: UserId, body: Attachment)
    | CreateNote(n: NoteId, u: UserId, attachments: set<MediaId>)
    | PatchNote(n: NoteId, u: UserId, replacement: Option<set<MediaId>>)
    | DeleteNote(n: NoteId, u: UserId)
    | Leave(c: ConvId, u: UserId)
    | Revoke(t: ThreadId, u: UserId)
    | DeleteUser(u: UserId)
    | Sweep(defaultDays: int)
    | Collect(wait: nat)   // from the file cut-off to the row cut-off
    | Tick(seconds: nat)

  function Id(body: Attachment): Option<MediaId> { if body.Nothing? then None else Some(body.id) }

  function IdSet(body: Attachment): set<MediaId> { if body.Nothing? then {} else {body.id} }

  predicate Owned(blobs: map<MediaId, BlobRow>, m: MediaId, u: UserId) { m in blobs && blobs[m].owner == Some(u) }

  /** assert_in_thread: only a blob of another thread's guest is refused. */
  predicate InThread(blobs: map<MediaId, BlobRow>, m: MediaId, t: ThreadId) {
    m in blobs && (blobs[m].thread == Some(t) || blobs[m].owner.Some?)
  }

  function Sent(db: Db, now: int, i: MsgId, c: ConvId, u: UserId, media: Option<MediaId>, replyTo: Option<MsgId>): Db {
    if (c, u) !in db.members || (media.Some? && !Owned(db.blobs, media.value, u)) then db
    else
      var window := if c in db.convs then db.convs[c].disappearSeconds else 0;
      db.(messages := db.messages[i := Message(c, Some(u), media, replyTo, false, window, None, now)])
  }

  /** _active_thread: the first open of a burn thread starts its clock. */
  function Opened(t: Thread, now: int): Thread {
    if t.burnMinutes.Some? && t.burnMinutes.value != 0 && t.expiresAt.None?
    then t.(expiresAt := Some(now + t.burnMinutes.value * MINUTE)) else t
  }

  predicate GuestAccepted(open: Thread, now: int, blobs: map<MediaId, BlobRow>, t: ThreadId, body: Attachment) {
    !(open.expiresAt.Some? && open.expiresAt.value <= now) && (body.Image? ==> InThread(blobs, body.id, t))
  }

  function Posted(gs: map<GuestMsgId, GuestMessage>, g: GuestMsgId, t: ThreadId, fromGuest: bool, body: Attachment,
      now: int)
    : map<GuestMsgId, GuestMessage>
  {
    gs[g := GuestMessage(t, fromGuest, Id(body), now)]
  }

  function GuestPosted(db: Db, now: int, g: GuestMsgId, t: ThreadId, body: Attachment): Db {
    if t !in db.threads then db
    else
      var open := Opened(db.threads[t], now);
      db.(threads := db.threads[t := open],
          guestMessages := if GuestAccepted(open, now, db.blobs, t, body)
              then Posted(db.guestMessages, g, t, true, body, now)
                           else db.guestMessages)
  }

  function HostPosted(db: Db, now: int, g: GuestMsgId, t: ThreadId, u: UserId, body: Attachment): Db {
    if t !in db.threads || db.threads[t].creator != u then db
    else db.(guestMessages := Posted(db.guestMessages, g, t, false, body, now))
  }

  predicate AllOwned(blobs: map<MediaId, BlobRow>, ids: set<MediaId>, u: UserId) {
    forall m :: m in ids ==> Owned(blobs, m, u)
  }

  function NoteCreated(db: Db, n: NoteId, u: UserId, ids: set<MediaId>): Db {
    if !AllOwned(db.blobs, ids, u) then db else db.(notes := db.notes[n := Note(u, ids)])
  }

  function NotePatched(db: Db, n: NoteId, u: UserId, ids: Option<set<MediaId>>): Db {
    if n !in db.notes || db.notes[n].owner != u || ids.None? || !AllOwned(db.blobs, ids.value, u) then db
    else db.(notes := db.notes[n := Note(u, ids.value)])
  }

  function NoteDeleted(db: Db, n: NoteId, u: UserId): Db {
    if n in db.notes && db.notes[n].owner == u then db.(notes := db.notes - {n}) else db
  }

  function Orphaned(m: Message, u: UserId): Message { if m.sender == Some(u) then m.(sender := None) else m }

  /** Deleting an account: rows cascade, sent messages lose their sender, no file is touched. */
  function UserDeleted(db: Db, u: UserId): Db {
    var closing := set t | t in db.threads && db.threads[t].creator == u;
    db.(members := (map k | k in db.members && k.1 != u :: db.members[k]),
        messages := (map i | i in db.messages :: Orphaned(db.messages[i], u)),
        receipts := (set r | r in db.receipts && r.1 != u),
        threads := db.threads - closing,
        guestMessages := KeepGuest(db.guestMessages, closing),
        notes := (map n | n in db.notes && db.notes[n].owner != u :: db.notes[n]),
        blobs := map b | b in KeepBlobs(db.blobs, closing) && db.blobs[b].owner != Some(u) :: db.blobs[b])
  }

  function Apply(db: Db, now: int, e: Event): Db {
    match e
    case Save(m) => db.(files := db.files[m := now])
    case Record(m, owner, thread, began) => db.(blobs := db.blobs[m := BlobRow(owner, thread, began)])
    case CreateConv(c, conv, users) => db.(
        convs := db.convs[c := conv],
        members := db.members + map u | u in users :: (c, u) := Member(None, false, None))
    case Send(i, c, u, media, replyTo) => Sent(db, now, i, c, u, media, replyTo)
    case Unsend(i, u) => if CanUnsend(db, i, u) then Unsent(db, i) else db
    case CreateThread(t, u, expiresAt, burn) => db.(threads := db.threads[t := Thread(u, now, expiresAt, burn, None)])
    case GuestPost(g, t, body) => GuestPosted(db, now, g, t, body)
    case HostPost(g, t, u, body) => HostPosted(db, now, g, t, u, body)
    case CreateNote(n, u, ids) => NoteCreated(db, n, u, ids)
    case PatchNote(n, u, ids) => NotePatched(db, n, u, ids)
    case DeleteNote(n, u) => NoteDeleted(db, n, u)
    case Leave(c, u) => if (c, u) in db.members then Left(db, c, u) else db
    case Revoke(t, u) => if t in db.threads && db.threads[t].creator == u then DropThreads(db, {t}) else db
    case DeleteUser(u) => UserDeleted(db, u)
    case Sweep(days) => Retention.Sweep(db, days, now)
    case Collect(wait) => Gc(db, now, now + wait)
    case Tick(_) => db
  }

  function Added(ns: map<NoteId, Note>, n: NoteId, ids: set<MediaId>): set<MediaId> {
    ids - (if n in ns then ns[n].attachments else {})
  }

  /** The ids a request puts in a row it did not already hold them in. */
  function Offered(db: Db, e: Event): set<MediaId> {
    match e
    case Send(_, _, _, media, _) => if media.Some? then {media.value} else {}
    case GuestPost(_, _, body) => IdSet(body)
    case HostPost(_, _, _, body) => IdSet(body)
    case CreateNote(n, _, ids) => Added(db.notes, n, ids)
    case PatchNote(n, _, ids) => if ids.Some? then Added(db.notes, n, ids.value) else {}
    case _ => {}
  }

  /** The row a request writes its attachment into. */
  function Target(e: Event): RowKey {
    match e
    case Send(i, _, _, _, _) => InMessage(i)
    case GuestPost(g, _, _) => InGuest(g)
    case HostPost(g, _, _, _) => InGuest(g)
    case CreateNote(n, _, _) => InNote(n)
    case PatchNote(n, _, _) => InNote(n)
    case DeleteNote(n, _) => InNote(n)
    case _ => InMessage(0)
  }

  /** Those of them that are in the row afterwards: none when the request is refused. */
  function Taken(db: Db, now: int, e: Event): set<MediaId> {
    set m | m in Offered(db, e) && Refers(Apply(db, now, e), Target(e), m)
  }

  function Step(s: State, e: Event): State {
    State(
      Apply(s.db, s.now, e),
      if e.Tick? then s.now + e.seconds else s.now,
      if e.Save? then s.born[e.m := s.now] else s.born,
      s.used + Taken(s.db, s.now, e))
  }

  /** New ids are unused ones (random in the program), and an upload is recorded once, after its
      file is saved. */
  predicate FreshIds(s: State, e: Event) {
    match e
    case Save(m) => m !in s.born
    case Record(m, _, _, began) => m in s.born && m !in s.db.blobs && began <= s.now
    case Send(i, _, _, _, _) => i !in s.db.messages
    case GuestPost(g, _, _) => g !in s.db.guestMessages
    case HostPost(g, _, _, _) => g !in s.db.guestMessages
    case CreateNote(n, _, _) => n !in s.db.notes
    case _ => true
  }

  /** What the callers promise: an id goes into one row only, within a day of its upload. */
  predicate Careful(s: State, e: Event) {
    forall m :: m in Taken(s.db, s.now, e) ==> m in s.born && m !in s.used && s.now < s.born[m] + DAY
  }

  function Run(s: State, es: seq<Event>): State
    decreases |es|
  {
    if es == [] then s else Run(Step(s, es[0]), es[1..])
  }

  predicate CarefulRun(s: State, es: seq<Event>)
    decreases |es|
  {
    es == [] || (FreshIds(s, es[0]) && Careful(s, es[0]) && CarefulRun(Step(s, es[0]), es[1..]))
  }

  predicate Empty(s: State) {
    && s.db == Db(map[], map[], map[], {}, map[], map[], map[], map[], map[], map[])
    && s.born == map[] && s.used == {}
  }

  // ---------- the invariant ----------

  ghost predicate OneRowEach(db: Db, used: set<MediaId>) {
    && (forall r, m: MediaId :: Refers(db, r, m) ==> m in used && m in db.files)
    && (forall r, q, m: MediaId :: Refers(db, r, m) && Refers(db, q, m) ==> r == q)
  }

  predicate UploadsKept(files: map<MediaId, int>, now: int, born: map<MediaId, int>, used: set<MediaId>) {
    && used <= born.Keys
    && (forall m :: m in files ==> m in born && files[m] == born[m])
    && (forall m :: m in born && m !in used && now < born[m] + DAY ==> m in files)
    && (forall m :: m in born ==> born[m] <= now)
  }

  /** The upload routes open the transaction that records a file before they save the file. */
  predicate OpensFirst(s: State, e: Event) { e.Record? && e.m in s.born ==> e.began <= s.born[e.m] }

  predicate OpensFirstRun(s: State, es: seq<Event>)
    decreases |es|
  {
    es == [] || (OpensFirst(s, es[0]) && OpensFirstRun(Step(s, es[0]), es[1..]))
  }

  /** Ownership rows are stamped no later than their files. */
  predicate Stamped(blobs: map<MediaId, BlobRow>, born: map<MediaId, int>) {
    forall m :: m in blobs ==> m in born && blobs[m].createdAt <= born[m]
  }

  ghost predicate Inv(s: State) {
    OneRowEach(s.db, s.used) && UploadsKept(s.db.files, s.now, s.born, s.used)
  }

  /** Every step in one shape: rows only lose references, except one row that gains fresh ids;
      the files that go are used ones or old ones, and no surviving row needs them. */
  lemma Shift(s: State, d: Db, row: RowKey, added: set<MediaId>, gone: set<MediaId>)
    requires Inv(s)
    requires forall m :: m in added ==> m in s.born && m !in s.used && s.now < s.born[m] + DAY && m !in gone
    requires d.files == s.db.files - gone
    requires forall m :: m in gone && m in s.db.files ==> m in s.used || s.db.files[m] + DAY <= s.now
    requires forall r, m: MediaId :: Refers(d, r, m) ==> (Refers(s.db, r, m) && m !in gone) || (r == row && m in added)
    ensures OneRowEach(d, s.used + added)
    ensures UploadsKept(d.files, s.now, s.born, s.used + added)
  {}

  lemma AfterDropMessages(s: State, dead: set<MsgId>)
    requires Inv(s)
    ensures Inv(s.(db := DropMessages(s.db, dead)))
  {
    var d, gone := DropMessages(s.db, dead), MediaIn(s.db.messages, dead);
    forall r, m: MediaId | Refers(d, r, m) ensures Refers(s.db, r, m) && m !in gone {
      assert Refers(s.db, r, m);
      if m in gone {
        var i :| i in dead && i in s.db.messages && s.db.messages[i].media == Some(m);
        assert Refers(s.db, InMessage(i), m);
      }
    }
    forall m | m in gone ensures m in s.used {
      var i :| i in dead && i in s.db.messages && s.db.messages[i].media == Some(m);
      assert Refers(s.db, InMessage(i), m);
    }
    Shift(s, d, InMessage(0), {}, gone);
    assert s.used + {} == s.used;
  }

  lemma AfterDropThreads(s: State, dead: set<ThreadId>)
    requires Inv(s)
    ensures Inv(s.(db := DropThreads(s.db, dead)))
  {
    var d, gone := DropThreads(s.db, dead), GuestMediaIn(s.db.guestMessages, dead);
    forall r, m: MediaId | Refers(d, r, m) ensures Refers(s.db, r, m) && m !in gone {
      assert Refers(s.db, r, m);
      if m in gone {
        var g :| g in s.db.guestMessages && s.db.guestMessages[g].thread in dead
                && s.db.guestMessages[g].media == Some(m);
        assert Refers(s.db, InGuest(g), m);
      }
    }
    forall m | m in gone ensures m in s.used {
      var g :| g in s.db.guestMessages && s.db.guestMessages[g].thread in dead &&
          s.db.guestMessages[g].media == Some(m);
      assert Refers(s.db, InGuest(g), m);
    }
    Shift(s, d, InGuest(0), {}, gone);
    assert s.used + {} == s.used;
  }

  /** The tables and files the invariant reads. */
  predicate SameFiles(a: Db, b: Db) {
    a.messages == b.messages && a.guestMessages == b.guestMessages && a.notes == b.notes && a.files == b.files
  }

  lemma SameFilesSameInv(s: State, d: Db)
    requires Inv(s) && SameFiles(s.db, d)
    ensures Inv(s.(db := d))
  {
    forall r, m: MediaId ensures Refers(d, r, m) <==> Refers(s.db, r, m) {}
  }

  lemma AfterDropConvs(s: State, dead: set<ConvId>)
    requires Inv(s)
    ensures Inv(s.(db := DropConvs(s.db, dead)))
  {
    var ids := OfConvs(s.db.messages, dead);
    AfterDropMessages(s, ids);
    SameFilesSameInv(s.(db := DropMessages(s.db, ids)), DropConvs(s.db, dead));
  }

  lemma AfterSweep(s: State, days: int)
    requires Inv(s)
    ensures Inv(s.(db := Retention.Sweep(s.db, days, s.now)))
  {
    var e := Retention.ExpiredIds(s.db, s.now);
    AfterDropMessages(s, e);
    var s1 := s.(db := DropMessages(s.db, e));
    var a := Retention.AgedIds(s1.db, days, s.now);
    AfterDropMessages(s1, a);
    var s2 := s1.(db := DropMessages(s1.db, a));
    var t := Retention.ExpiredThreads(s2.db, s.now);
    AfterDropThreads(s2, t);
    var s3 := s2.(db := DropThreads(s2.db, t));
    var o := Retention.MemberlessIds(s3.db);
    AfterDropConvs(s3, o);
    SameFilesSameInv(s3.(db := DropConvs(s3.db, o)), Retention.Sweep(s.db, days, s.now));
  }

  lemma AfterGc(s: State, wait: nat)
    requires Inv(s)
    ensures Inv(s.(db := Gc(s.db, s.now, s.now + wait)))
  {
    var d, gone := Gc(s.db, s.now, s.now + wait), Old(s.db.files, s.now) - Referenced(s.db);
    forall r, m: MediaId | Refers(d, r, m) ensures Refers(s.db, r, m) && m !in gone {
      assert Refers(s.db, r, m);
      ReferencedIffRefers(s.db, m);
    }
    Shift(s, d, InMessage(0), {}, gone);
    assert s.used + {} == s.used;
  }

  lemma AfterUnsend(s: State, i: MsgId)
    requires Inv(s) && i in s.db.messages
    ensures Inv(s.(db := Unsent(s.db, i)))
  {
    var d, media := Unsent(s.db, i), s.db.messages[i].media;
    var gone := if media.Some? then {media.value} else {};
    forall m | m in gone ensures m in s.used { assert Refers(s.db, InMessage(i), m); }
    forall r, m: MediaId | Refers(d, r, m) ensures Refers(s.db, r, m) && m !in gone {
      assert Refers(s.db, r, m) && r != InMessage(i);
      assert m in gone ==> Refers(s.db, InMessage(i), m);
    }
    Shift(s, d, InMessage(0), {}, gone);
    assert s.used + {} == s.used;
  }

  lemma AfterUserDeleted(s: State, u: UserId)
    requires Inv(s)
    ensures Inv(s.(db := UserDeleted(s.db, u)))
  {
    var d := UserDeleted(s.db, u);
    forall r, m: MediaId | Refers(d, r, m) ensures Refers(s.db, r, m) {}
    assert s.db.files - {} == s.db.files && s.used + {} == s.used;
    Shift(s, d, InMessage(0), {}, {});
  }

  predicate Writes(e: Event) {
    e.Send? || e.GuestPost? || e.HostPost? || e.CreateNote? || e.PatchNote? || e.DeleteNote?
  }

  ghost predicate MessageGains(was: map<MsgId, Message>, ms: map<MsgId, Message>, i: MsgId, ids: set<MediaId>) {
    forall k :: k in ms && !(k in was && ms[k] == was[k]) ==> k == i && (ms[k].media.Some? ==> ms[k].media.value in ids)
  }

  ghost predicate GuestGains(was: map<GuestMsgId, GuestMessage>, gs: map<GuestMsgId, GuestMessage>, g: GuestMsgId,
      ids: set<MediaId>) {
    forall k :: k in gs && !(k in was && gs[k] == was[k]) ==> k == g && (gs[k].media.Some? ==> gs[k].media.value in ids)
  }

  ghost predicate NoteGains(was: map<NoteId, Note>, ns: map<NoteId, Note>, n: NoteId, ids: set<MediaId>) {
    forall k, m: MediaId :: Attached(ns, k, m) ==> Attached(was, k, m) || (k == n && m in ids)
  }

  /** A writing request touches one row of one table, and the references it adds are offered ids. */
  ghost predicate WritesOnly(db: Db, d: Db, row: RowKey, ids: set<MediaId>) {
    && d.files == db.files
    && (if row.InMessage? then MessageGains(db.messages, d.messages, row.i, ids) else d.messages == db.messages)
    && (if row.InGuest? then GuestGains(db.guestMessages, d.guestMessages, row.g, ids)
        else d.guestMessages == db.guestMessages)
    && (if row.InNote? then NoteGains(db.notes, d.notes, row.n, ids) else d.notes == db.notes)
  }

  lemma SendWrites(db: Db, now: int, i: MsgId, c: ConvId, u: UserId, media: Option<MediaId>, replyTo: Option<MsgId>)
    ensures WritesOnly(db, Sent(db, now, i, c, u, media, replyTo), InMessage(i), if media.Some?
        then {media.value} else {})
  {}

  lemma PostGains(gs: map<GuestMsgId, GuestMessage>, g: GuestMsgId, t: ThreadId, fromGuest: bool, body: Attachment,
      now: int)
    ensures GuestGains(gs, Posted(gs, g, t, fromGuest, body, now), g, IdSet(body))
    ensures GuestGains(gs, gs, g, IdSet(body))
  {}

  lemma NoteRowGains(ns: map<NoteId, Note>, n: NoteId, u: UserId, ids: set<MediaId>)
    ensures NoteGains(ns, ns[n := Note(u, ids)], n, Added(ns, n, ids))
  {}

  lemma NoNoteGains(ns: map<NoteId, Note>, n: NoteId, added: set<MediaId>)
    ensures NoteGains(ns, ns, n, added) && NoteGains(ns, ns - {n}, n, added)
  {}

  lemma NoteCreateWrites(db: Db, n: NoteId, u: UserId, ids: set<MediaId>)
    ensures WritesOnly(db, NoteCreated(db, n, u, ids), InNote(n), Added(db.notes, n, ids))
  {
    NoteRowGains(db.notes, n, u, ids);
    NoNoteGains(db.notes, n, Added(db.notes, n, ids));
  }

  lemma NotePatchWrites(db: Db, n: NoteId, u: UserId, ids: Option<set<MediaId>>)
    ensures WritesOnly(db, NotePatched(db, n, u, ids), InNote(n), if ids.Some?
        then Added(db.notes, n, ids.value) else {})
  {
    NoNoteGains(db.notes, n, if ids.Some? then Added(db.notes, n, ids.value) else {});
    if ids.Some? { NoteRowGains(db.notes, n, u, ids.value); }
  }

  lemma NoteDeleteWrites(db: Db, n: NoteId, u: UserId)
    ensures WritesOnly(db, NoteDeleted(db, n, u), InNote(n), {})
  {
    NoNoteGains(db.notes, n, {});
  }

  lemma GuestWrites(db: Db, now: int, e: Event)
    requires e.GuestPost? || e.HostPost?
    ensures WritesOnly(db, Apply(db, now, e), Target(e), Offered(db, e))
  {
    PostGains(db.guestMessages, e.g, e.t, e.GuestPost?, e.body, now);
  }

  lemma NoteWrites(db: Db, now: int, e: Event)
    requires e.CreateNote? || e.PatchNote? || e.DeleteNote?
    ensures WritesOnly(db, Apply(db, now, e), Target(e), Offered(db, e))
  {
    match e
    case CreateNote(n, u, ids) => NoteCreateWrites(db, n, u, ids);
    case PatchNote(n, u, ids) => NotePatchWrites(db, n, u, ids);
    case DeleteNote(n, u) => NoteDeleteWrites(db, n, u);
  }

  lemma WritesOneRow(db: Db, now: int, e: Event)
    requires Writes(e)
    ensures WritesOnly(db, Apply(db, now, e), Target(e), Offered(db, e))
  {
    if e.Send? {
      SendWrites(db, now, e.i, e.c, e.u, e.media, e.replyTo);
    } else if e.GuestPost? || e.HostPost? {
      GuestWrites(db, now, e);
    } else {
      NoteWrites(db, now, e);
    }
  }

  lemma NewRefs(db: Db, d: Db, row: RowKey, ids: set<MediaId>, r: RowKey, m: MediaId)
    requires WritesOnly(db, d, row, ids) && Refers(d, r, m)
    ensures Refers(db, r, m) || (r == row && m in ids)
  {
    if r.InNote? { assert Attached(d.notes, r.n, m); }
  }

  lemma AfterWrite(s: State, e: Event)
    requires Inv(s) && Writes(e) && Careful(s, e)
    ensures Inv(Step(s, e))
  {
    var d, ids := Apply(s.db, s.now, e), Taken(s.db, s.now, e);
    WritesOneRow(s.db, s.now, e);
    forall r, m: MediaId | Refers(d, r, m) ensures Refers(s.db, r, m) || (r == Target(e) && m in ids) {
      NewRefs(s.db, d, Target(e), Offered(s.db, e), r, m);
    }
    assert s.db.files - {} == s.db.files;
    Shift(s, d, Target(e), ids, {});
  }

  lemma AfterSave(s: State, m: MediaId)
    requires Inv(s) && m !in s.born
    ensures Inv(Step(s, Save(m)))
  {
    var t := Step(s, Save(m));
    forall r, k: MediaId ensures Refers(t.db, r, k) <==> Refers(s.db, r, k) {}
    assert t.used == s.used;
  }

  lemma AfterOther(s: State, e: Event)
    requires Inv(s) && (e.Record? || e.CreateConv? || e.CreateThread? || e.Tick?)
    ensures Inv(Step(s, e))
  {
    SameFilesSameInv(s, Apply(s.db, s.now, e));
    assert Step(s, e).used == s.used;
  }

  lemma AfterLeave(s: State, c: ConvId, u: UserId)
    requires Inv(s)
    ensures Inv(s.(db := Left(s.db, c, u)))
  {
    var d := s.db.(members := s.db.members - {(c, u)});
    SameFilesSameInv(s, d);
    AfterDropConvs(s.(db := d), {c});
  }

  lemma StepKeeps(s: State, e: Event)
    requires Inv(s) && FreshIds(s, e) && Careful(s, e)
    ensures Inv(Step(s, e))
  {
    assert !Writes(e) ==> s.used + Taken(s.db, s.now, e) == s.used;
    match e {
      case Save(m) => AfterSave(s, m);
      case Unsend(i, u) => if CanUnsend(s.db, i, u) { AfterUnsend(s, i); }
      case Leave(c, u) => AfterLeave(s, c, u);
      case Revoke(t, _) => AfterDropThreads(s, {t});
      case DeleteUser(u) => AfterUserDeleted(s, u);
      case Sweep(days) => AfterSweep(s, days);
      case Collect(wait) => AfterGc(s, wait);
      case _ => if Writes(e) { AfterWrite(s, e); } else { AfterOther(s, e); }
    }
  }

  lemma {:induction false} RunKeeps(s: State, es: seq<Event>)
    requires Inv(s) && CarefulRun(s, es)
    ensures Inv(Run(s, es))
    decreases |es|
  {
    if es != [] {
      StepKeeps(s, es[0]);
      RunKeeps(Step(s, es[0]), es[1..]);
    }
  }

  /** Every live row's file exists after any run of uploads, posts, unsends, retention sweeps,
      emptied conversations, revoked links, deleted accounts and collections in which callers
      put each id in one row only, within a day of its upload. */
  lemma AttachmentsNeverDangle(s: State, es: seq<Event>)
    requires Empty(s) && CarefulRun(s, es)
    ensures AllPresent(Run(s, es).db)
  {
    RunKeeps(s, es);
  }

  /** And an upload still waiting for its row is on disk for a day, whatever ran meanwhile. */
  lemma WaitingUploadsAreKept(s: State, es: seq<Event>, m: MediaId)
    requires Empty(s) && CarefulRun(s, es)
    ensures var t := Run(s, es);
            m in t.born && m !in t.used && t.now < t.born[m] + DAY ==> m in t.db.files
  {
    RunKeeps(s, es);
  }

  /** After a run, a collection leaves exactly the referenced files and the uploads under a day old. */
  lemma CollectionAfterARun(s: State, es: seq<Event>, rowsAt: int, m: MediaId)
    requires Empty(s) && CarefulRun(s, es)
    ensures var t := Run(s, es);
            m in Gc(t.db, t.now, rowsAt).files <==>
            m in Referenced(t.db) || (m in t.db.files && m in t.born && t.now < t.born[m] + DAY)
  {
    RunKeeps(s, es);
    ReferencedIffRefers(Run(s, es).db, m);
  }

  predicate RowsKept(was: map<MediaId, BlobRow>, blobs: map<MediaId, BlobRow>) {
    forall m :: m in blobs ==> m in was && blobs[m] == was[m]
  }

  lemma SweepKeepsRows(db: Db, days: int, now: int)
    ensures RowsKept(db.blobs, Retention.Sweep(db, days, now).blobs)
  {
    var d1 := DropMessages(db, Retention.ExpiredIds(db, now));
    var d2 := DropMessages(d1, Retention.AgedIds(d1, days, now));
    var closing := Retention.ExpiredThreads(d2, now);
    assert Retention.Sweep(db, days, now).blobs == KeepBlobs(db.blobs, closing);
  }

  lemma WritesKeepRows(db: Db, now: int, e: Event)
    requires Writes(e)
    ensures Apply(db, now, e).blobs == db.blobs
  {}

  lemma UserDeletedKeepsRows(db: Db, u: UserId)
    ensures RowsKept(db.blobs, UserDeleted(db, u).blobs)
  {}

  /** Rows of the ownership table only go, except by recording an upload. */
  lemma OnlyRecordAdds(db: Db, now: int, e: Event)
    requires !e.Record?
    ensures RowsKept(db.blobs, Apply(db, now, e).blobs)
  {
    if Writes(e) {
      WritesKeepRows(db, now, e);
    } else if e.Sweep? {
      SweepKeepsRows(db, e.defaultDays, now);
    } else if e.DeleteUser? {
      UserDeletedKeepsRows(db, e.u);
    }
  }

  lemma StepKeepsStamps(s: State, e: Event)
    requires Stamped(s.db.blobs, s.born) && FreshIds(s, e) && OpensFirst(s, e)
    ensures Stamped(Step(s, e).db.blobs, Step(s, e).born)
  {
    if !e.Record? { OnlyRecordAdds(s.db, s.now, e); }
  }

  lemma {:induction false} RunKeepsStamps(s: State, es: seq<Event>)
    requires Stamped(s.db.blobs, s.born) && CarefulRun(s, es) && OpensFirstRun(s, es)
    ensures Stamped(Run(s, es).db.blobs, Run(s, es).born)
    decreases |es|
  {
    if es != [] {
      StepKeepsStamps(s, es[0]);
      RunKeepsStamps(Step(s, es[0]), es[1..]);
    }
  }

  predicate TakesFile(db: Db, now: int, wait: nat, m: MediaId) {
    m in db.files && m !in Gc(db, now, now + wait).files
  }

  predicate LeavesRow(db: Db, now: int, wait: nat, m: MediaId) { m in Gc(db, now, now + wait).blobs }

  /** The row's stamp, the file's time and both cut-offs all on one instant. */
  predicate Tie(db: Db, now: int, wait: nat, m: MediaId) {
    wait == 0 && m in db.blobs && m in db.files && db.blobs[m].createdAt == db.files[m] == now - DAY
  }

  /** Exactly when a collection that takes a file leaves its ownership row; when rows are stamped
      no later than their files, only on a tie. */
  lemma RowOutlivesFileIff(db: Db, born: map<MediaId, int>, now: int, wait: nat, m: MediaId)
    requires TakesFile(db, now, wait, m)
    ensures LeavesRow(db, now, wait, m) <==> m in db.blobs && db.blobs[m].createdAt >= now + wait - DAY
    ensures Stamped(db.blobs, born) && m in born && db.files[m] == born[m] ==>
              (LeavesRow(db, now, wait, m) <==> Tie(db, now, wait, m))
  {}

  /** After any run, a collection that takes a file takes its ownership row too, so the id can
      not be attached again; ties of the clock apart. */
  lemma CollectionTakesTheRowToo(s: State, es: seq<Event>, wait: nat, m: MediaId)
    requires Empty(s) && CarefulRun(s, es) && OpensFirstRun(s, es)
    ensures var t := Run(s, es);
            TakesFile(t.db, t.now, wait, m) ==> (LeavesRow(t.db, t.now, wait, m) <==> Tie(t.db, t.now, wait, m))
  {
    RunKeeps(s, es);
    RunKeepsStamps(s, es);
    AtRest(Run(s, es), wait, m);
  }

  lemma AtRest(t: State, wait: nat, m: MediaId)
    requires Inv(t) && Stamped(t.db.blobs, t.born)
    ensures TakesFile(t.db, t.now, wait, m) ==> (LeavesRow(t.db, t.now, wait, m) <==> Tie(t.db, t.now, wait, m))
  {
    if TakesFile(t.db, t.now, wait, m) { RowOutlivesFileIff(t.db, t.born, t.now, wait, m); }
  }

  /** Without the one-row promise: two messages of one sender with the same attachment. */
  lemma SecondRowDangles(db: Db, i: MsgId, j: MsgId, m: MediaId)
    requires i in db.messages && j in db.messages && i != j
    requires db.messages[i].media == Some(m) == db.messages[j].media
    ensures !AllPresent(Unsent(db, i))
  {
    assert Refers(Unsent(db, i), InMessage(j), m);
  }

  /** The ownership check alone does not make a send safe: what matters is the file itself. */
  lemma AcceptedSendIsSafeIff(db: Db, now: int, i: MsgId, c: ConvId, u: UserId, m: MediaId)
    requires AllPresent(db) && i !in db.messages
    requires (c, u) in db.members && Owned(db.blobs, m, u)
    ensures AllPresent(Sent(db, now, i, c, u, Some(m), None)) <==> m in db.files
  {
    var d := Sent(db, now, i, c, u, Some(m), None);
    assert Refers(d, InMessage(i), m);
    forall r, k: MediaId | Refers(d, r, k) ensures Refers(db, r, k) || k == m {}
  }

  /** The two part on a deleting route: unsending removes the file and leaves the ownership row, so
      the same id is accepted again and dangles, until the first collection whose row cut-off
      has passed the row's stamp by a day. */
  lemma UnsentFileStaysOwned(db: Db, now: int, rowsAt: int, i: MsgId, j: MsgId, c: ConvId, u: UserId, m: MediaId)
    requires CanUnsend(db, i, u) && db.messages[i].media == Some(m) && Owned(db.blobs, m, u)
    requires forall r :: Refers(db, r, m) ==> r == InMessage(i)
    requires (c, u) in db.members && j !in db.messages
    ensures var d := Unsent(db, i);
            && !AllPresent(Sent(d, now, j, c, u, Some(m), None))
            && (Sent(Gc(d, now, rowsAt), now, j, c, u, Some(m), None) == Gc(d, now, rowsAt) <==>
                db.blobs[m].createdAt < rowsAt - DAY)
  {
    var d := Unsent(db, i);
    assert Refers(Sent(d, now, j, c, u, Some(m), None), InMessage(j), m);
    forall r ensures !Refers(d, r, m) {
      assert Refers(d, r, m) ==> Refers(db, r, m);
    }
    ReferencedIffRefers(d, m);
    assert Owned(Gc(d, now, rowsAt).blobs, m, u) <==> db.blobs[m].createdAt >= rowsAt - DAY;
    assert j !in Gc(d, now, rowsAt).messages;
  }
}
