/** The chat tables the retention, garbage-collection, read-state and badge code share.
    A table is a map from primary key to row; NULL is None; the media directory is a map
    from blob id to modification time. */
module Schema {
  import opened Common

  type UserId = nat
  type ConvId = nat
  type MsgId = nat
  type ThreadId = nat
  type GuestMsgId = nat
  type NoteId = nat
  type MediaId = nat
  type TokenId = nat

  datatype Conversation = Conversation(retentionDays: Option<int>, disappearSeconds: int)

  datatype Member = Member(lastRead: Option<MsgId>, markedUnread: bool, clearedAt: Option<int>)

  datatype Message = Message(
    conv: ConvId, sender: Option<UserId>, media: Option<MediaId>, replyTo: Option<MsgId>,
    unsent: bool, disappearSeconds: int, startedAt: Option<int>, createdAt: int)

  datatype Thread = Thread(
    creator: UserId, createdAt: int, expiresAt: Option<int>, burnMinutes: Option<int>, hostReadAt: Option<int>)

  datatype GuestMessage = GuestMessage(thread: ThreadId, fromGuest: bool, media: Option<MediaId>, createdAt: int)

  datatype Note = Note(owner: UserId, attachments: set<MediaId>)

  datatype BlobRow = BlobRow(owner: Option<UserId>, thread: Option<ThreadId>, createdAt: int)

  datatype AuthToken = AuthToken(revoked: bool, expiresAt: int)

  datatype Db = Db(
    convs: map<ConvId, Conversation>,
    members: map<(ConvId, UserId), Member>,
    messages: map<MsgId, Message>,
    receipts: set<(MsgId, UserId)>,
    threads: map<ThreadId, Thread>,
    guestMessages: map<GuestMsgId, GuestMessage>,
    notes: map<NoteId, Note>,
    blobs: map<MediaId, BlobRow>,
    tokens: map<TokenId, AuthToken>,
    files: map<MediaId, int>)

  /** Foreign keys. */
  predicate Referential(db: Db) {
    && (forall k :: k in db.members ==> k.0 in db.convs)
    && (forall i :: i in db.messages ==> db.messages[i].conv in db.convs)
    && (forall r :: r in db.receipts ==> r.0 in db.messages)
    && (forall g :: g in db.guestMessages ==> db.guestMessages[g].thread in db.threads)
  }

  // ---------- row deletion, table by table ----------

  /** reply_to_id is ON DELETE SET NULL. */
  function Unlink(m: Message, gone: set<MsgId>): Message {
    if m.replyTo.Some? && m.replyTo.value in gone then m.(replyTo := None) else m
  }

  function KeepMessages(ms: map<MsgId, Message>, gone: set<MsgId>): map<MsgId, Message> {
    map i | i in ms && i !in gone :: Unlink(ms[i], gone)
  }

  function KeepReceipts(rs: set<(MsgId, UserId)>, gone: set<MsgId>): set<(MsgId, UserId)> {
    set r | r in rs && r.0 !in gone
  }

  function KeepMembers(ms: map<(ConvId, UserId), Member>, gone: set<ConvId>): map<(ConvId, UserId), Member> {
    map k | k in ms && k.0 !in gone :: ms[k]
  }

  function KeepGuest(gs: map<GuestMsgId, GuestMessage>, gone: set<ThreadId>): map<GuestMsgId, GuestMessage> {
    map g | g in gs && gs[g].thread !in gone :: gs[g]
  }

  function KeepBlobs(bs: map<MediaId, BlobRow>, gone: set<ThreadId>): map<MediaId, BlobRow> {
    map b | b in bs && !(bs[b].thread.Some? && bs[b].thread.value in gone) :: bs[b]
  }

  function OfConvs(ms: map<MsgId, Message>, convs: set<ConvId>): set<MsgId> {
    set i | i in ms && ms[i].conv in convs
  }

  // ---------- blobs the rows refer to ----------

  function MediaIn(ms: map<MsgId, Message>, ids: set<MsgId>): set<MediaId> {
    set i | i in ids && i in ms && ms[i].media.Some? :: ms[i].media.value
  }

  function GuestMediaIn(gs: map<GuestMsgId, GuestMessage>, threads: set<ThreadId>): set<MediaId> {
    set g | g in gs && gs[g].thread in threads && gs[g].media.Some? :: gs[g].media.value
  }

  // ---------- deletes with their cascades, and the file removals that precede them ----------

  /** Messages and their blobs; receipts cascade, replies lose their pointer. */
  function DropMessages(db: Db, gone: set<MsgId>): Db {
    db.(messages := KeepMessages(db.messages, gone),
        receipts := KeepReceipts(db.receipts, gone),
        files := db.files - MediaIn(db.messages, gone))
  }

  /** Secret-link threads and their blobs; their messages and ownership rows cascade. */
  function DropThreads(db: Db, gone: set<ThreadId>): Db {
    db.(threads := db.threads - gone,
        guestMessages := KeepGuest(db.guestMessages, gone),
        blobs := KeepBlobs(db.blobs, gone),
        files := db.files - GuestMediaIn(db.guestMessages, gone))
  }

  /** Conversations and their blobs; members and messages cascade. */
  function DropConvs(db: Db, gone: set<ConvId>): Db {
    DropMessages(db, OfConvs(db.messages, gone)).(
      convs := db.convs - gone,
      members := KeepMembers(db.members, gone))
  }

  // ---------- deleting twice ----------

  lemma KeepMessagesTwice(ms: map<MsgId, Message>, a: set<MsgId>, b: set<MsgId>)
    ensures KeepMessages(KeepMessages(ms, a), b) == KeepMessages(ms, a + b)
  {}

  lemma KeepReceiptsTwice(rs: set<(MsgId, UserId)>, a: set<MsgId>, b: set<MsgId>)
    ensures KeepReceipts(KeepReceipts(rs, a), b) == KeepReceipts(rs, a + b)
  {}

  lemma MediaInTwice(ms: map<MsgId, Message>, a: set<MsgId>, b: set<MsgId>)
    ensures MediaIn(ms, a) + MediaIn(KeepMessages(ms, a), b) == MediaIn(ms, a + b)
  {
    var rest := KeepMessages(ms, a);
    forall m | m in MediaIn(ms, a + b) ensures m in MediaIn(ms, a) + MediaIn(rest, b) {
      var i :| i in a + b && i in ms && ms[i].media == Some(m);
      assert i !in a ==> i in rest && rest[i].media == Some(m);
    }
    forall m | m in MediaIn(rest, b) ensures m in MediaIn(ms, a + b) {
      var i :| i in b && i in rest && rest[i].media == Some(m);
      assert i in ms && ms[i].media == Some(m);
    }
  }

  lemma KeepGuestTwice(gs: map<GuestMsgId, GuestMessage>, a: set<ThreadId>, b: set<ThreadId>)
    ensures KeepGuest(KeepGuest(gs, a), b) == KeepGuest(gs, a + b)
  {}

  lemma KeepBlobsTwice(bs: map<MediaId, BlobRow>, a: set<ThreadId>, b: set<ThreadId>)
    ensures KeepBlobs(KeepBlobs(bs, a), b) == KeepBlobs(bs, a + b)
  {}

  lemma GuestMediaTwice(gs: map<GuestMsgId, GuestMessage>, a: set<ThreadId>, b: set<ThreadId>)
    ensures GuestMediaIn(gs, a) + GuestMediaIn(KeepGuest(gs, a), b) == GuestMediaIn(gs, a + b)
  {
    var rest := KeepGuest(gs, a);
    forall m | m in GuestMediaIn(gs, a + b) ensures m in GuestMediaIn(gs, a) + GuestMediaIn(rest, b) {
      var g :| g in gs && gs[g].thread in a + b && gs[g].media == Some(m);
      assert gs[g].thread !in a ==> g in rest && rest[g].media == Some(m);
    }
    forall m | m in GuestMediaIn(rest, b) ensures m in GuestMediaIn(gs, a + b) {
      var g :| g in rest && rest[g].thread in b && rest[g].media == Some(m);
      assert g in gs;
    }
  }

  lemma MinusTwice(files: map<MediaId, int>, a: set<MediaId>, b: set<MediaId>)
    ensures files - a - b == files - (a + b)
  {}

  /** Two message deletes are one, the second judged on what the first left. */
  lemma DropMessagesTwice(db: Db, a: set<MsgId>, b: set<MsgId>)
    ensures DropMessages(DropMessages(db, a), b) == DropMessages(db, a + b)
  {
    KeepMessagesTwice(db.messages, a, b);
    KeepReceiptsTwice(db.receipts, a, b);
    MediaInTwice(db.messages, a, b);
    MinusTwice(db.files, MediaIn(db.messages, a), MediaIn(KeepMessages(db.messages, a), b));
  }

  lemma DropThreadsTwice(db: Db, a: set<ThreadId>, b: set<ThreadId>)
    ensures DropThreads(DropThreads(db, a), b) == DropThreads(db, a + b)
  {
    KeepGuestTwice(db.guestMessages, a, b);
    KeepBlobsTwice(db.blobs, a, b);
    GuestMediaTwice(db.guestMessages, a, b);
    MinusTwice(db.files, GuestMediaIn(db.guestMessages, a), GuestMediaIn(KeepGuest(db.guestMessages, a), b));
    assert db.threads - a - b == db.threads - (a + b);
  }

  lemma DropNoMessages(db: Db)
    ensures DropMessages(db, {}) == db
  {
    assert KeepMessages(db.messages, {}) == db.messages;
    assert KeepReceipts(db.receipts, {}) == db.receipts;
    assert MediaIn(db.messages, {}) == {} && db.files - {} == db.files;
  }

  lemma DropNoConvs(db: Db)
    ensures DropConvs(db, {}) == db
  {
    assert OfConvs(db.messages, {}) == {};
    DropNoMessages(db);
    assert db.convs - {} == db.convs && KeepMembers(db.members, {}) == db.members;
  }

  /** Message and thread deletes touch different tables, so they commute. */
  lemma DropsCommute(db: Db, a: set<MsgId>, t: set<ThreadId>)
    ensures DropThreads(DropMessages(db, a), t) == DropMessages(DropThreads(db, t), a)
  {
    var x, y := MediaIn(db.messages, a), GuestMediaIn(db.guestMessages, t);
    MinusTwice(db.files, x, y);
    MinusTwice(db.files, y, x);
    assert x + y == y + x;
  }
}
