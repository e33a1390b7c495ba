/** Who may change which rows, and what a route takes along, in the rows' own columns. */
module Permissions {
  import opened Common
  import opened Schema
  import opened Media
  import Retention
  import Disappearing

  /** A delete or a sweep keeps the columns of the messages it leaves, reply pointers apart. */
  predicate ColumnsKept(was: map<MsgId, Message>, ms: map<MsgId, Message>) {
    forall i :: i in ms ==> i in was && ms[i].media == was[i].media && ms[i].unsent == was[i].unsent
  }

  lemma DeletingKeepsColumns(was: map<MsgId, Message>, ms: map<MsgId, Message>, gone: set<MsgId>)
    requires ColumnsKept(was, ms)
    ensures ColumnsKept(was, KeepMessages(ms, gone))
  {}

  lemma SweepKeepsColumns(db: Db, days: int, now: int)
    ensures ColumnsKept(db.messages, Retention.Sweep(db, days, now).messages)
  {
    Disappearing.SweepTables(db, days, now);
    var a, b, c, orphans :|
      && Retention.Sweep(db, days, now).messages == KeepMessages(KeepMessages(KeepMessages(db.messages, a), b), c)
      && Retention.Sweep(db, days, now).members == KeepMembers(db.members, orphans);
    DeletingKeepsColumns(db.messages, db.messages, a);
    DeletingKeepsColumns(db.messages, KeepMessages(db.messages, a), b);
    DeletingKeepsColumns(db.messages, KeepMessages(KeepMessages(db.messages, a), b), c);
  }

  lemma LeavingKeepsColumns(db: Db, c: ConvId, u: UserId)
    ensures ColumnsKept(db.messages, Left(db, c, u).messages)
  {}

  /** In every step of every run: a message that survives loses its attachment, or becomes unsent,
      only at an unsend by its own sender, still a member of its conversation. */
  lemma OnlyTheSenderUnsends(s: State, e: Event, i: MsgId)
    requires FreshIds(s, e) && i in s.db.messages && i in Step(s, e).db.messages
    requires var was, m := s.db.messages[i], Step(s, e).db.messages[i]; m.media != was.media || m.unsent != was.unsent
    ensures e.Unsend? && e.i == i
    ensures s.db.messages[i].sender == Some(e.u) && (s.db.messages[i].conv, e.u) in s.db.members
  {
    if e.Sweep? { SweepKeepsColumns(s.db, e.defaultDays, s.now); }
    if e.Leave? { LeavingKeepsColumns(s.db, e.c, e.u); }
  }

  /** A send is accepted exactly from a member, and with an attachment only one it uploaded; the row
      carries the conversation's window of that moment. */
  lemma SendIsAcceptedIff(
    db: Db, now: int, i: MsgId, c: ConvId, u: UserId, media: Option<MediaId>, replyTo: Option<MsgId>)
    requires i !in db.messages
    ensures var d := Sent(db, now, i, c, u, media, replyTo);
            && (i in d.messages <==>
                (c, u) in db.members
                && (media.Some? ==> media.value in db.blobs && db.blobs[media.value].owner == Some(u)))
            && (i in d.messages ==>
                  d == db.(messages := db.messages[i := Message(c, Some(u), media, replyTo, false,
                             if c in db.convs then db.convs[c].disappearSeconds else 0, None, now)]))
            && (i !in d.messages ==> d == db)
  {}

  /** A guest's post is accepted exactly while the link is open, the first post to a burn link
      starting its clock of so many minutes; an image must come from this link or from a user. */
  lemma GuestPostIsAcceptedIff(db: Db, now: int, g: GuestMsgId, t: ThreadId, body: Attachment)
    requires g !in db.guestMessages
    ensures var d := GuestPosted(db, now, g, t, body);
            && (g in d.guestMessages <==>
                && t in db.threads
                && (match (db.threads[t].expiresAt, db.threads[t].burnMinutes)
                    case (Some(at), _) => now < at
                    case (None, Some(minutes)) => minutes >= 0
                    case (None, None) => true)
                && (body.Image? ==>
                      && body.id in db.blobs
                      && (db.blobs[body.id].thread == Some(t) || db.blobs[body.id].owner.Some?)))
            && d.guestMessages ==
               (if g !in d.guestMessages then db.guestMessages
                else db.guestMessages[g := GuestMessage(t, true, if body.Nothing? then None else Some(body.id), now)])
            && (t in db.threads ==> d.threads == db.threads[t := db.threads[t].(expiresAt :=
                  match (db.threads[t].expiresAt, db.threads[t].burnMinutes)
                  case (None, Some(minutes)) => if minutes == 0 then None else Some(now + minutes * 60)
                  case (at, _) => at)])
  {}

  /** A host's post is accepted exactly from the link's creator. */
  lemma HostPostIsAcceptedIff(db: Db, now: int, g: GuestMsgId, t: ThreadId, u: UserId, body: Attachment)
    requires g !in db.guestMessages
    ensures var d := HostPosted(db, now, g, t, u, body);
            && (g in d.guestMessages <==> t in db.threads && db.threads[t].creator == u)
            && d == if g !in d.guestMessages then db
                    else db.(guestMessages := db.guestMessages[
                           g := GuestMessage(t, false, if body.Nothing? then None else Some(body.id), now)])
  {}

  predicate UploadedBy(blobs: map<MediaId, BlobRow>, ids: set<MediaId>, u: UserId) {
    forall m :: m in ids ==> m in blobs && blobs[m].owner == Some(u)
  }

  lemma UploadedByMeans(blobs: map<MediaId, BlobRow>, ids: set<MediaId>, u: UserId)
    ensures UploadedBy(blobs, ids, u) <==> AllOwned(blobs, ids, u)
  {}

  /** A note is made with attachments exactly when they are all its owner's own uploads. */
  lemma NoteIsCreatedIff(db: Db, n: NoteId, u: UserId, ids: set<MediaId>)
    ensures NoteCreated(db, n, u, ids) ==
            if UploadedBy(db.blobs, ids, u) then db.(notes := db.notes[n := Note(u, ids)]) else db
  {
    UploadedByMeans(db.blobs, ids, u);
  }

  /** Only its owner patches a note, to own uploads; a patch that names no attachments keeps them. */
  lemma NoteIsPatchedIff(db: Db, n: NoteId, u: UserId, ids: set<MediaId>)
    ensures NotePatched(db, n, u, Some(ids)) ==
            if n in db.notes && db.notes[n].owner == u && UploadedBy(db.blobs, ids, u)
            then db.(notes := db.notes[n := Note(u, ids)]) else db
    ensures NotePatched(db, n, u, None) == db
  {
    UploadedByMeans(db.blobs, ids, u);
  }

  /** And only its owner deletes it; no file goes with it. */
  lemma NoteIsDeletedIff(db: Db, n: NoteId, u: UserId)
    ensures NoteDeleted(db, n, u) ==
            if n in db.notes && db.notes[n].owner == u then db.(notes := db.notes - {n}) else db
  {}

  /** No message of this conversation holds the file. */
  predicate NoneHolds(db: Db, f: MediaId, c: ConvId) {
    forall i :: i in db.messages && db.messages[i].media == Some(f) ==> db.messages[i].conv != c
  }

  ghost predicate Alone(db: Db, c: ConvId, u: UserId) { forall v: UserId :: (c, v) in db.members ==> v == u }

  lemma AloneMeansMemberless(db: Db, c: ConvId, u: UserId)
    ensures Retention.Memberless(db.(members := db.members - {(c, u)}), c) <==> Alone(db, c, u)
  {
    var w := db.(members := db.members - {(c, u)});
    if Retention.Memberless(w, c) {
      forall v: UserId | (c, v) in db.members ensures v == u { assert (c, v) in w.members || v == u; }
    } else {
      var k :| k in w.members && k.0 == c;
      assert (c, k.1) in db.members && k.1 != u;
    }
  }

  /** Leaving a conversation somebody else is in touches nothing but the membership. */
  lemma LeavingOthers(db: Db, c: ConvId, u: UserId)
    requires !Alone(db, c, u)
    ensures Left(db, c, u) == db.(members := db.members - {(c, u)})
  {
    AloneMeansMemberless(db, c, u);
  }

  /** The last one out takes the conversation, its messages and their files along, and nothing else. */
  lemma LeavingLast(db: Db, c: ConvId, u: UserId)
    requires Referential(db) && (c, u) in db.members && Alone(db, c, u)
    ensures var d := Left(db, c, u);
            && d.convs == db.convs - {c}
            && d.members == db.members - {(c, u)}
            && d.messages.Keys == (set i | i in db.messages && db.messages[i].conv != c)
            && (forall f :: f in d.files <==> f in db.files && NoneHolds(db, f, c))
            && d.threads == db.threads && d.guestMessages == db.guestMessages
            && d.notes == db.notes && d.blobs == db.blobs
  {
    var w := db.(members := db.members - {(c, u)});
    AloneMeansMemberless(db, c, u);
    EmptiedFiles(w, c);
    assert forall f :: NoneHolds(w, f, c) <==> NoneHolds(db, f, c);
  }

  lemma EmptiedFiles(db: Db, c: ConvId)
    requires Referential(db) && Retention.Memberless(db, c)
    ensures var d := DropConvs(db, {c});
            && d.members == db.members
            && d.messages.Keys == (set i | i in db.messages && db.messages[i].conv != c)
            && (forall f :: f in d.files <==> f in db.files && NoneHolds(db, f, c))
  {
    var ids := OfConvs(db.messages, {c});
    forall f ensures f in MediaIn(db.messages, ids) <==>
                     exists i :: i in db.messages && db.messages[i].media == Some(f) && db.messages[i].conv == c
    {
      if i :| i in db.messages && db.messages[i].media == Some(f) && db.messages[i].conv == c { assert i in ids; }
    }
  }

  /** Revoking a link takes its messages, their files and its ownership rows, and nothing else. */
  lemma RevokingTakesAlong(db: Db, t: ThreadId)
    ensures var d := DropThreads(db, {t});
            && d.threads == db.threads - {t}
            && d.guestMessages ==
               (map g | g in db.guestMessages && db.guestMessages[g].thread != t :: db.guestMessages[g])
            && d.blobs == (map b | b in db.blobs && db.blobs[b].thread != Some(t) :: db.blobs[b])
            && (forall f :: f in d.files <==>
                  f in db.files
                  && forall g :: g in db.guestMessages && db.guestMessages[g].media == Some(f) ==> g in d.guestMessages)
            && d == db.(threads := d.threads, guestMessages := d.guestMessages, blobs := d.blobs, files := d.files)
  {
    forall f ensures f in GuestMediaIn(db.guestMessages, {t}) <==>
                     exists g :: g in db.guestMessages && db.guestMessages[g].media == Some(f)
                                 && db.guestMessages[g].thread == t
    {}
  }

  /** Deleting an account leaves every file and every message row; of the rows it takes memberships,
      receipts, own links with their messages, notes and ownership rows. */
  lemma AccountDeletionTakesAlong(db: Db, u: UserId)
    ensures var d := UserDeleted(db, u);
            && d.files == db.files && d.convs == db.convs && d.tokens == db.tokens
            && d.messages.Keys == db.messages.Keys
            && (forall i :: i in db.messages ==>
                  d.messages[i] == db.messages[i].(sender :=
                    if db.messages[i].sender == Some(u) then None else db.messages[i].sender))
            && (forall k :: k in d.members <==> k in db.members && k.1 != u)
            && (forall r :: r in d.receipts <==> r in db.receipts && r.1 != u)
            && (forall t :: t in d.threads <==> t in db.threads && db.threads[t].creator != u)
            && (forall n :: n in d.notes <==> n in db.notes && db.notes[n].owner != u)
            && (forall g :: g in d.guestMessages <==>
                  g in db.guestMessages
                  && (db.guestMessages[g].thread in db.threads ==> db.threads[db.guestMessages[g].thread].creator != u))
  {}
}
