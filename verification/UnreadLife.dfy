/** What counts as unread, in the rows' own columns, and how each request changes it. */
module UnreadLife {
  import opened Common
  import opened Schema
  import opened Unread
  import Media
  import Disappearing

  // ---------- what counts ----------

  /** A message is unread for a member exactly when it is in that conversation, somebody else who still
      has an account sent it, it has not been unsent, and it is newer than the member's cleared
      history, if any, and than the message last read, if that is still there. */
  lemma UnreadIff(db: Db, k: MemberKey, i: MsgId)
    requires k in db.members && i in db.messages
    ensures var m, me := db.messages[i], db.members[k];
            i in UnreadIds(db, k) <==>
            && m.conv == k.0
            && m.sender.Some? && m.sender.value != k.1
            && !m.unsent
            && (me.clearedAt.Some? ==> m.createdAt > me.clearedAt.value)
            && (me.lastRead.Some? && me.lastRead.value in db.messages ==>
                  m.createdAt > db.messages[me.lastRead.value].createdAt)
  {}

  /** A conversation shows its number of unread messages, and 1 when there are none but it was marked. */
  lemma ShownIff(db: Db, k: MemberKey)
    requires k in db.members
    ensures Shown(db, k) >= |UnreadIds(db, k)|
    ensures Shown(db, k) == 0 <==> !db.members[k].markedUnread && UnreadIds(db, k) == {}
    ensures Shown(db, k) > |UnreadIds(db, k)| <==> db.members[k].markedUnread && UnreadIds(db, k) == {}
    ensures Shown(db, k) <= |UnreadIds(db, k)| + 1
  {}

  /** A secret link is unread for its creator exactly when its latest message is the guest's and the
      creator has not opened the link since. */
  lemma LinkIsUnreadIff(db: Db, u: UserId, t: ThreadId)
    ensures t in UnreadThreads(db, u) <==>
            && t in db.threads && db.threads[t].creator == u
            && exists g ::
                 && g in db.guestMessages && db.guestMessages[g].thread == t
                 && (forall h :: h in db.guestMessages && db.guestMessages[h].thread == t ==>
                       db.guestMessages[h].createdAt <= db.guestMessages[g].createdAt)
                 && db.guestMessages[g].fromGuest
                 && (db.threads[t].hostReadAt.Some? ==> db.guestMessages[g].createdAt > db.threads[t].hostReadAt.value)
  {
    if t in db.threads && db.threads[t].creator == u {
      forall g | g in db.guestMessages
        ensures IsLast(db, t, g) <==>
                && db.guestMessages[g].thread == t
                && forall h :: h in db.guestMessages && db.guestMessages[h].thread == t ==>
                     db.guestMessages[h].createdAt <= db.guestMessages[g].createdAt
      {}
    }
  }

  // ---------- how requests change it ----------

  /** Whether a message of this instant would be newer than all the member has cleared or read. */
  predicate Behind(db: Db, k: MemberKey, now: int)
    requires k in db.members
  {
    var me := db.members[k];
    && (me.clearedAt.Some? ==> now > me.clearedAt.value)
    && (me.lastRead.Some? && me.lastRead.value in db.messages ==> now > db.messages[me.lastRead.value].createdAt)
  }

  /** An accepted send adds exactly that message for every other member of the conversation, and
      nothing for its sender or anyone elsewhere. */
  lemma SendAddsOne(
    s: Disappearing.State, i: MsgId, c: ConvId, u: UserId, media: Option<MediaId>, replyTo: Option<MsgId>, k: MemberKey)
    requires Disappearing.Inv(s) && i !in s.origins && i !in s.db.messages && k in s.db.members
    requires i in Disappearing.Step(s, Disappearing.Send(i, c, u, media, replyTo)).db.messages
    ensures var d := Disappearing.Step(s, Disappearing.Send(i, c, u, media, replyTo)).db;
            && k in d.members
            && UnreadIds(d, k) ==
               UnreadIds(s.db, k) + if k.0 == c && k.1 != u && Behind(s.db, k, s.now) then {i} else {}
  {
    var d := Disappearing.Step(s, Disappearing.Send(i, c, u, media, replyTo)).db;
    assert s.db.members[k].lastRead != Some(i);
    assert LastReadAt(d, k) == LastReadAt(s.db, k);
    forall j | j in s.db.messages ensures j in UnreadIds(d, k) <==> j in UnreadIds(s.db, k) {
      assert d.messages[j] == s.db.messages[j];
    }
    assert forall j :: j in d.messages ==> j == i || j in s.db.messages;
  }

  /** An unsend takes exactly that message out, for everyone. */
  lemma UnsendTakesOne(db: Db, i: MsgId, k: MemberKey)
    requires i in db.messages && k in db.members
    ensures UnreadIds(Media.Unsent(db, i), k) == UnreadIds(db, k) - {i}
  {
    var d := Media.Unsent(db, i);
    assert LastReadAt(d, k) == LastReadAt(db, k);
  }

  /** Clearing the history leaves unread only what comes later, for this member only. */
  lemma ClearingHides(s: Disappearing.State, c: ConvId, u: UserId, k: MemberKey, i: MsgId)
    requires (c, u) in s.db.members && k in s.db.members && i in s.db.messages
    ensures var d := Disappearing.Step(s, Disappearing.ClearHistory(c, u)).db;
            && d.members == s.db.members[(c, u) := s.db.members[(c, u)].(clearedAt := Some(s.now))]
            && (k != (c, u) ==> (i in UnreadIds(d, k) <==> i in UnreadIds(s.db, k)))
            && (k == (c, u) && i in UnreadIds(d, k) ==> s.db.messages[i].createdAt > s.now)
  {}

  /** Marking by hand makes the conversation show at least 1 and counts no message. */
  lemma MarkingShows(s: Disappearing.State, c: ConvId, u: UserId)
    requires (c, u) in s.db.members
    ensures var d := Disappearing.Step(s, Disappearing.MarkUnread(c, u)).db;
            && d.members == s.db.members[(c, u) := s.db.members[(c, u)].(markedUnread := true)]
            && UnreadIds(d, (c, u)) == UnreadIds(s.db, (c, u)) && Shown(d, (c, u)) >= 1
  {
    var d := Disappearing.Step(s, Disappearing.MarkUnread(c, u)).db;
    assert LastReadAt(d, (c, u)) == LastReadAt(s.db, (c, u));
  }

  /** A new member has everything others sent still unread. */
  lemma JoiningHasAllUnread(s: Disappearing.State, c: ConvId, u: UserId, i: MsgId)
    requires (c, u) !in s.db.members && i in s.db.messages
    ensures var d := Disappearing.Step(s, Disappearing.AddMember(c, u)).db;
            && (c, u) in d.members
            && (i in UnreadIds(d, (c, u)) <==>
                var m := s.db.messages[i]; m.conv == c && m.sender.Some? && m.sender.value != u && !m.unsent)
  {}

  /** Reading, column by column: the pointer moves and the mark goes, the receipt is there, and the clock
      starts on what others sent with a window, up to the message read, that was not started. */
  lemma ReadingWrites(db: Db, now: int, c: ConvId, i: MsgId, u: UserId, j: MsgId)
    requires (c, u) in db.members && i in db.messages && db.messages[i].conv == c && j in db.messages
    ensures var d := Disappearing.MarkedRead(db, now, c, i, u);
            && d.members == db.members[(c, u) := Member(Some(i), false, db.members[(c, u)].clearedAt)]
            && d.receipts == db.receipts + {(i, u)}
            && d.messages.Keys == db.messages.Keys
            && var m := db.messages[j];
               d.messages[j] ==
               if && m.conv == c && m.disappearSeconds > 0
                  && m.sender.Some? && m.sender.value != u
                  && m.startedAt.None? && m.createdAt <= db.messages[i].createdAt
               then m.(startedAt := Some(now)) else m
  {}

  /** A read is accepted exactly from a member, for a message of that very conversation. */
  lemma ReadIsAcceptedIff(db: Db, now: int, c: ConvId, i: MsgId, u: UserId)
    ensures (c, u) in db.members && i in db.messages && db.messages[i].conv == c <==> Disappearing.CanRead(db, c, i, u)
    ensures !Disappearing.CanRead(db, c, i, u) ==> Disappearing.Apply(db, now, Disappearing.Read(c, i, u)) == db
  {}

  /** Only members change a conversation's settings, and only for messages still to come. */
  lemma SettingsAreMembersOnly(db: Db, now: int, c: ConvId, u: UserId, seconds: nat, days: Option<int>)
    ensures Disappearing.Apply(db, now, Disappearing.SetWindow(c, u, seconds)) ==
            if (c, u) in db.members && c in db.convs
            then db.(convs := db.convs[c := Conversation(db.convs[c].retentionDays, seconds)]) else db
    ensures Disappearing.Apply(db, now, Disappearing.SetRetention(c, u, days)) ==
            if (c, u) in db.members && c in db.convs
            then db.(convs := db.convs[c := Conversation(days, db.convs[c].disappearSeconds)]) else db
  {}
}
