# Kryptovox: a verified model of its protocols

Kryptovox is a chat server (FastAPI, Postgres, Redis) with a TypeScript client. Its difficult
content is a set of small protocols over shared state. Each module below is one of them, as an
explicit state with steps, a clock and, where a promise is about the past, a record of what
happened. Handlers that change state are classes whose methods are proved to take exactly the
step (`View() == Step(old(View()))`); the promises are then proved of whole runs of steps.

| module | what it models |
|---|---|
| `Common`, `Schema` | option values, durations; the chat tables as maps, deletes with their cascades and file removals |
| `Timeline` | the one query shape of the message routes: filter, range, order by time |
| `ThreadLog` | incremental polling of a secret-link thread, answers in any order |
| `Paging` | walking a conversation backwards by cursor while it grows |
| `Histories` | which rows the history routes return, in the rows' own columns |
| `Hub` | the socket tables of one worker and local delivery |
| `GuestCalls` | secret-link call signalling over the hub: pairing record, buffered offer, expiry |
| `CallQueue` | call frames buffered for a callee who is waking up |
| `RateLimit` | the fixed-window counters |
| `Sessions` | access and refresh tokens, token versions, eviction |
| `SessionLife` | how long a session lasts and what alone ends it, in the rules' own numbers |
| `SecondFactor` | pending sign-ins, TOTP and backup codes, the lockout counter |
| `SignIn` | which codes and assertions pass, what a refusal costs, what every session rests on |
| `FactorPolicy` | removing factors under the cached 2FA policy |
| `FirstIdentity` | devices racing through a first sign-in |
| `Retention` | `sweep_once` and its row-by-row meaning |
| `Media` | files and the rows that refer to them, upload to garbage collection |
| `Permissions` | who may change which rows, and what a route takes along |
| `Disappearing` | reads, disappearing clocks, read pointers |
| `Unread` | unread counts and the badge number |
| `UnreadLife` | what counts as unread, and how each request changes it |
| `Base64`, `Utf8`, `Envelope` | the codec and the per-recipient message envelope |

One request, one whole WebSocket frame, one delivery or one key expiry is one atomic step, except
where a handler's own interleaving is the point: pending sign-ins split into decode, check and
claim; an enrolment code into read and commit; a token refresh into its token check and its answer; an
eviction (password change, recovery, reset) and a change of factors into load and commit;
the identity PUT into load and commit; a poll into ask, serve and arrive; an older page into ask and
land; a newest page into serve and land; an upload into saving the file and recording its owner. Random ids are fresh ids chosen
by the run. Times are whole seconds.

## Where the code differs from what is expected of it

- The call relay's header says second-party frames are targeted (`backend/app/ws/guest_ws.py:14-16`). They
  are exactly while the peer is recorded (`RelayedFrameIsTargetedIff`). The record is written on offers, answers and
  host connections but not on ICE, so 90 quiet seconds later frames go to every socket of the thread
  (`QuietCallLapses`).
- Two overlapping full polls of a secret-link page leave a permanent hole
  (`OverlappingFullPollsLeaveAHole`). For every run at all, the list is a prefix of the log at every moment
  if and only if every arriving answer is full, empty or anchored inside the list (`AlwaysAPrefixIff`); with
  one outstanding full load it always is (`PageIsPrefix`).
- `loadOlder` does not check for rows already shown, `loadMessages` replaces the list with a page that
  may be older than what was handled meanwhile, and `message.new` handlers await decryption before
  they append. `StepKeepsIff` says exactly which arrivals keep the list gap-free and complete up to
  the last row the client was given; `ChatView` guards older pages with a flag, reloads on reconnecting
  are not guarded.
- A refresh reads its token row before the user row, so one that straddles a password change mints an
  access token with the new version for an evicted device. And an eviction stores the version it read
  plus one, so two overlapping ones can store the same version, or a lower one, and an access token renewed
  in between stays good (`OverlappingEvictionsLeaveAToken`). `EvictionIsFinalIff` is the exact condition over
  every run; where evictions of a user do not overlap it comes down to no refresh under way
  (`PasswordChangeEvictsOthers`, `ResetEvictsAll`). What slips through ends within the 15-minute access
  lifetime (`EvictionIsBounded`).
- Changes of factors take no row lock. Two removals that each see the other factor take the last one with
  the policy on (`OverlappingRemovalsDropTheLast`; exactly when, `UnaskedRemovalUnenrolsIff`), and the passkey
  flag means a credential exists at every moment of a run if and only if every commit fits the credentials
  it finds (`FlagMeansCredential`).
- Retention by age never reopens read messages, but the disappearing rule does
  (`ExpiryReopensOlderMessages`); `DeletionKeepsUnreadIff` is the exact condition for any delete.
- A message whose sender's account is deleted before anyone else reads it never starts its clock: the
  comparison with a NULL sender selects nothing (`OnlyReadMessagesDisappear`).
- Unsending deletes a file and leaves its ownership row, so the same id is accepted again and dangles
  until a collection a day after the row's stamp (`UnsentFileStaysOwned`); presence turns on the file
  alone (`AcceptedSendIsSafeIff`). Collections themselves take the row with the file
  (`CollectionTakesTheRowToo`).
- The stored TOTP step also advances when an enrolment code is verified, with no session issued
  (`LastStepMovesOnlyWithAcceptance`). That commit takes no row lock and does not look at the stored step
  again: accepted steps increase exactly when every such commit is newer than what is stored by then
  (`AcceptedStepsIncrease`), and a sign-in in between can leave the older step stored
  (`StraddlingEnrolmentGoesBack`).
- `sweep_once` counts the rows it names, not the rows that cascade (`Retention.Database.SweepOnce`).
- A call backlog of more than 64 frames loses its oldest frame, the offer (`OpeningOfferArrivesIff`).
- Text decoding drops a leading U+FEFF and encoding replaces lone surrogates, so a plaintext comes back
  unchanged exactly without them (`Utf8.SurvivesIff`).

## Model

| member | source | states |
|---|---|---|
| Timeline.OrderByTimeSorts | backend/app/routers/guest.py:49-57 | ordering returns the same rows, oldest first |
| Timeline.QueryMembers | backend/app/routers/messages.py:65-81 | a range query returns exactly the matching rows, in time order |
| Timeline.QuerySlice | backend/app/routers/links.py:153-161 | a range query is a contiguous slice of the ordered history |
| Timeline.HistoryAppend | backend/app/routers/guest.py:79-91 | inserting the newest row appends it to its own history and changes no other |
| Histories.VisibleIff | backend/app/routers/messages.py:65-81 | a member sees exactly the conversation's messages newer than its cleared history, oldest first |
| Histories.PageIsTheNewestFifty | backend/app/routers/messages.py:82-86 | a page is the newest 50 before the cursor; a next cursor is there exactly when there are more |
| Histories.PageRowsAreInRange | backend/app/routers/messages.py:65-86 | whatever the cursor, at most 50 messages, all inside conversation, cleared history and cursor |
| Histories.AnswerRowsIff | backend/app/routers/links.py:153-161 | an answer holds exactly the thread's rows, later than the anchor when one is given, and none when it is not in the thread |
| ThreadLog.ThreadRowsAreTail | backend/app/routers/guest.py:49-57 | an incremental answer is the tail of the thread after its anchor; a full one is the whole thread |
| ThreadLog.UnknownAnchorSelectsNothing | backend/app/routers/links.py:155-160 | an anchor that is not in the thread compares as NULL and selects no row |
| ThreadLog.ThreadPage.Anchor | frontend/src/pages/GuestView.tsx:58-65 | a poll carries the id of the last row of the last non-empty answer, and none exactly when every answer so far was empty |
| ThreadLog.ThreadPage.Arrive | frontend/src/pages/SecretLinkThread.tsx:61-124 | an arriving answer moves the anchor and merges or replaces the list, exactly as the specification |
| ThreadLog.MergeKeepsPrefixIff | frontend/src/pages/GuestView.tsx:30-35 | one merge keeps the list a prefix of the log if and only if the list reaches the answer's start or the answer is empty |
| ThreadLog.PageIsPrefix | frontend/src/pages/GuestView.tsx:58-105 | with one full load, under any interleaving of posts and polls served and answered in any order or lost, the list is always a duplicate-free prefix of the log |
| ThreadLog.PollAfterLastPostCatchesUp | frontend/src/pages/SecretLinkThread.tsx:61-124 | a poll issued after the last post makes the list equal to the log, and late answers do not undo it |
| ThreadLog.ArriveKeepsPrefixIff | frontend/src/pages/GuestView.tsx:103-104 | with no proviso: exactly when an arriving answer keeps the list a prefix |
| ThreadLog.AlwaysAPrefixIff | frontend/src/pages/GuestView.tsx:58-105 | for every run whose posts are newest, overlapping full polls included: the list is a prefix of the log at every moment if and only if every arriving answer is full, empty or anchored inside the list |
| ThreadLog.OverlappingFullPollsLeaveAHole | frontend/src/pages/GuestView.tsx:58-105 | for any three messages a run of overlapping full polls ends with the middle one missing for good |
| Paging.PageIsASlice | backend/app/routers/messages.py:65-86 | a page is the 50 visible messages before its cursor, oldest first; its next cursor is its first message's time if and only if older ones remain |
| Paging.ChatStore.LoadMessages | frontend/src/store/chat.ts:255-283 | the newest page replaces the list and the cursor; other conversations keep theirs |
| Paging.ChatStore.RequestOlder | frontend/src/store/chat.ts:285-290 | asks for what precedes the first row shown, and for nothing exactly when the list begins the history it is a window on |
| Paging.AnswersAreAnswerable | backend/app/routers/messages.py:82-86 | whatever the table and cursor, a next cursor is the time of the answer's first message |
| Paging.ChatStore.ArriveOlder | frontend/src/store/chat.ts:300-308 | an older page is prepended and its cursor replaces the stored one |
| Paging.ChatStore.Append | frontend/src/store/chat.ts:148-175 | an own send or a new-message event appends its message unless it is already listed |
| Paging.AppendKeepsWindowIff | frontend/src/store/chat.ts:532-548 | an appended message keeps the list gap-free if and only if it is the next one or a repeat |
| Paging.PrependKeepsWindowIff | frontend/src/store/chat.ts:300-308 | an older page keeps the list gap-free if and only if its cursor is still that of the list's first message |
| Paging.FirstLoad | frontend/src/store/chat.ts:255-283 | opening a conversation shows its newest page |
| Paging.StepKeepsIff | frontend/src/store/chat.ts:255-308 | one step, exactly: the list keeps showing every row the client was given, gap-free, if and only if a delivered row is the next or listed, an older page was asked for with the present cursor, and a newest page was answered after the last row given |
| Paging.LandNewestKeepsIff | frontend/src/store/chat.ts:255-283 | a newest page keeps every row the client was given if and only if none was given since it was answered |
| Paging.LandOlderKeepsIff | frontend/src/store/chat.ts:285-308 | an older page moves the start back one page if its cursor is the present one, and otherwise breaks the list |
| Paging.AlwaysAWindow | frontend/src/store/chat.ts:255-308 | in every run whose arrivals fit, with older pages and reloads overlapping, the list is a gap-free, duplicate-free stretch of the visible history up to the last row given, and reaches its beginning when the cursor is null |
| Paging.ReloadMends | frontend/src/store/chat.ts:493-497 | after any run at all from an opened conversation, misfits included, a newest page answered after the last row given makes the list a gap-free window again |
| Paging.WalkReachesTheBeginning | backend/app/routers/messages.py:65-86 | exactly ceil(lo/50) older pages arrive, and the last one completes the visible history, whatever is posted and delivered between |
| Hub.Worker.Register | backend/app/ws/hub.py:138-139 | adds the socket to the user's bucket |
| Hub.Worker.Unregister | backend/app/ws/hub.py:145-159 | removes the socket and the bucket it leaves empty |
| Hub.Worker.Drop | backend/app/ws/hub.py:125-131 | removes a stalled socket from every bucket of both tables |
| Hub.Worker.DeliverLocal | backend/app/ws/hub.py:82-115 | an envelope goes to exactly the admitted sockets of its bucket; stalled or revoked ones are removed everywhere |
| Hub.WithoutBucket | backend/app/ws/hub.py:125-131 | dropping removes exactly those sockets from every bucket and leaves no empty bucket |
| Hub.RegisterUnregister | backend/app/ws/hub.py:138-159 | unregistering undoes registering |
| Hub.RevokedSocketsAreGone | backend/app/ws/hub.py:82-115 | after a revocation no socket of a revoked device is left in any table and all others stay |
| Hub.TargetedReachesOnlyTarget | backend/app/ws/hub.py:82-115 | a targeted envelope reaches exactly the named connection if subscribed, never its sender |
| Hub.UntargetedReachesAllOthers | backend/app/ws/hub.py:82-115 | an untargeted message reaches every socket registered there but its sender |
| Hub.DeliveredToIff | backend/app/ws/hub.py:82-123 | exactly who an envelope is sent to: the channel's own table and key, sender, target, stalled sockets and revocations |
| Hub.ClosedIff | backend/app/ws/hub.py:95-123 | exactly which sockets are closed: those of revoked devices, or stalled ones the message was for |
| Hub.RegisteredIsThere | backend/app/ws/hub.py:138-159 | a registered socket is in its key's bucket and no other; discarding takes out that one |
| GuestCalls.Endpoint.Accept | backend/app/ws/guest_ws.py:158-183 | a connecting host is recorded and handed a live buffered offer |
| GuestCalls.Endpoint.Receive | backend/app/ws/guest_ws.py:186-254 | one frame changes record, offer and channel exactly as the protocol step |
| GuestCalls.Endpoint.Finish | backend/app/ws/guest_ws.py:259-269 | leaving clears the call only when the paired guest leaves |
| GuestCalls.RelayedFramesReachOnlyThePair | backend/app/ws/guest_ws.py:221-251 | in every run, a frame relayed while guest and host are both recorded is delivered, on any worker, only to one of those two and never to its sender |
| GuestCalls.LiveOfferIsFromPairedGuest | backend/app/ws/guest_ws.py:240-254 | in every run, a live offer implies a live pairing that outlasts it, naming the offer's still connected sender as guest |
| GuestCalls.LateHostGetsPairedGuestsOffer | backend/app/ws/guest_ws.py:174-183 | every offer ever handed to a late host came from the guest paired at that moment |
| GuestCalls.GuestIsOnlyCleared | backend/app/ws/guest_ws.py:233-254 | no step replaces the paired guest by another |
| GuestCalls.GuestChangesOnlyThroughNone | backend/app/ws/guest_ws.py:204-254 | between two different paired guests of a run there is a moment with none |
| GuestCalls.OutsidersDoNotInterfere | backend/app/ws/guest_ws.py:210-236 | erasing the frames of unpaired link holders from any run gives the same final state, deliveries included |
| GuestCalls.RelayedFrameIsTargetedIff | backend/app/ws/guest_ws.py:221-231 | a relayed frame is targeted if and only if the sender's peer is recorded |
| GuestCalls.FrameIsRelayedIff | backend/app/ws/guest_ws.py:204-254 | exactly which frames are relayed, and to whom: a host's to the recorded guest, a link holder's to the recorded host |
| GuestCalls.FrameWritesTheRecord | backend/app/ws/guest_ws.py:233-254 | what each kind of frame does to the record and the buffered offer, with their 90 seconds |
| GuestCalls.ConnectingWritesTheRecord | backend/app/ws/guest_ws.py:158-183 | a connecting host is recorded beside the guest and handed exactly a live offer |
| GuestCalls.LeavingEndsTheCallIff | backend/app/ws/guest_ws.py:259-269 | the call ends, with a hangup for everyone, exactly when the paired guest leaves |
| GuestCalls.PassingAnEntryReachesIff | backend/app/ws/hub.py:82-115 | over every run: an entry a worker passes goes to exactly its connected, subscribed sockets which are not the sender and, when the sender's peer was recorded, are that peer |
| GuestCalls.PassingMovesNothingElse | backend/app/ws/hub.py:64-80 | passing an entry moves that worker one entry further and delivers nothing else |
| GuestCalls.DeadLinkRelaysNothing | backend/app/ws/guest_ws.py:199-201 | a revoked or expired link takes no socket and relays no frame |
| GuestCalls.QuietCallLapses | backend/app/ws/guest_ws.py:247-251 | ninety seconds after the record was last written an ICE frame is broadcast to the thread |
| CallQueue.Relay.QueueEvent | backend/app/ws/calls.py:72-79 | a frame joins the live queue, trimmed to 64, with a fresh minute to live |
| CallQueue.Relay.RelayCallEvent | backend/app/ws/calls.py:89-132 | a frame is published to the callee if and only if both users are members; it is buffered, or clears both queues when it ends the call; an offer counts a ring and rings within the limit |
| CallQueue.Relay.DeliverBufferedCalls | backend/app/ws/calls.py:135-149 | the queue is deleted and sent in order until the socket refuses |
| CallQueue.ConnectingGetsTheBacklog | backend/app/ws/calls.py:72-149 | in every run a connecting callee gets, in order, the newest 64 frames since its last connection, end of a call or minute of silence |
| CallQueue.WaitingIff | backend/app/ws/calls.py:38-40 | frames wait exactly while less than 60 s have passed since the last, at most 64 of them |
| CallQueue.ResetsAndJoins | backend/app/ws/calls.py:118-132 | answers, hangups and declines empty both users' queues, every other frame joins the callee's |
| CallQueue.OpeningOfferArrivesIff | backend/app/ws/calls.py:36-40 | the offer that opens a backlog is still delivered if and only if the backlog fits in 64 frames |
| CallQueue.OthersDoNotInterfere | backend/app/ws/calls.py:89-132 | frames between two users never touch a third user's queue |
| RateLimit.Counter.RingAllowed | backend/app/ws/guest_ws.py:100-109 | counts the ring and allows it within the limit |
| RateLimit.Counter.FailedCheck | backend/app/services/twofa_guard.py:45-62 | refuses at the limit, otherwise counts the failure |
| RateLimit.AtMostTwiceTheLimit | backend/app/services/twofa_guard.py:45-62 | in any interval of one window length at most twice the limit gets through, whatever the counter held |
| RateLimit.TwiceTheLimitIsReached | backend/app/ws/calls.py:52-60 | that bound is attained, by attempts in time order |
| RateLimit.CounterBounds | backend/app/ws/calls.py:47-60 | 12 call rings per pair, 8 per thread, 20 failed checks |
| RateLimit.CounterBoundsAreReached | backend/app/ws/guest_ws.py:100-109 | each of the three bounds is attained by attempts in time order |
| RateLimit.HitCounts | backend/app/services/twofa_guard.py:45-62 | one attempt, exactly: what is counted, what passes, when a window starts |
| Sessions.Server.CurrentIdentity | backend/app/deps.py:22-50 | accepts exactly an unexpired access token of an existing device of an existing user with the current token version |
| Sessions.Server.CheckRefresh | backend/app/routers/auth.py:406-416 | goes on exactly with an unrevoked, unexpired token and remembers its device |
| Sessions.Server.IssueRefresh | backend/app/routers/auth.py:418-441 | gives an accepted access token for that device if and only if device and user still exist |
| Sessions.Server.RevokeSessions | backend/app/services/sessions.py:17-39 | revokes every token of the user's other devices and names those devices for closing |
| Sessions.Server.LoadPasswordChange | backend/app/routers/users.py:64-76 | goes on exactly for an accepted caller with the right password, with the version it read |
| Sessions.Server.LoadReset | backend/app/routers/recovery.py:105-106 | a recovery or an admin reset reads the user's version and spares no device |
| Sessions.Server.CommitEviction | backend/app/routers/users.py:86-87 | the commit stores the version read plus one and revokes the tokens of every device not spared, which it names for closing |
| Sessions.EvictionIsFinalIff | backend/app/services/sessions.py:17-39 | over every run: after an eviction commits, an evicted device is never accepted again in any continuation if and only if none of its refreshes was under way and no unexpired access token of it was ahead of the version any eviction of the user then under way had read |
| Sessions.EvictionIsBounded | backend/app/routers/auth.py:406-441 | in any case an evicted device is accepted for less than the access lifetime, counted from the commit or the answer to a refresh under way then |
| Sessions.OutForGoodIff | backend/app/deps.py:22-50 | a device without refresh tokens is never accepted again if and only if no refresh of it is under way and every access token of it is expired or behind all versions stored or about to be |
| Sessions.PasswordChangeEvictsOthers | backend/app/routers/users.py:64-87 | where evictions do not overlap: after a password change no request is ever accepted again as another device row that existed then if and only if no refresh of that device was under way |
| Sessions.ResetEvictsAll | backend/app/routers/admin.py:82-90 | the same after recovery or an admin reset, for every existing device row |
| Sessions.OverlappingEvictionsLeaveAToken | backend/app/routers/recovery.py:105-115 | wherever a device is signed in and can renew, a recovery that loaded the row before a password change committed leaves the token renewed in between accepted |
| Sessions.NothingUnderWayIsPrompt | backend/app/routers/auth.py:406-441 | without a refresh under way every continuation meets any such deadline |
| Sessions.EnrolmentFadesOthers | backend/app/routers/twofa.py:73-75 | after a factor enrolment other devices are accepted for less than the 15-minute access lifetime, counted from the enrolment or from the answer to a refresh under way then |
| Sessions.EnrolmentKeepsAccessTokens | backend/app/routers/twofa.py:73-75 | enrolment itself cuts off no access token |
| Sessions.LogoutFades | backend/app/routers/auth.py:461-480 | a signed-out device fades the same way |
| Sessions.DeletedDeviceIsDead | backend/app/routers/devices.py:90-99 | a deleted device row is never accepted again, refreshes under way included |
| Sessions.ChangingDeviceCanRenew | backend/app/routers/users.py:64-87 | the device that changed the password loses its access tokens up to the version read, can still renew, and the renewed token is accepted |
| Sessions.EvictionIsPerUser | backend/app/services/sessions.py:26-39 | eviction changes nothing for another user |
| SessionLife.SessionsEndIn90Days | backend/app/security.py:67-69 | over every run a device is accepted for less than 90 days and 15 minutes after its sign-in, plus what a refresh may take to answer |
| SessionLife.TokenSurvivesIff | backend/app/services/sessions.py:26-39 | a working refresh token survives a step exactly when the step is not its own sign-out, its row's deletion, another device's enrolment, an eviction not sparing it, or the account's deletion |
| SessionLife.LoginGives | backend/app/routers/auth.py:101-120 | a sign-in gives a 90-day refresh token and a 15-minute access token of the present version |
| SessionLife.RefreshGoesOnIff | backend/app/routers/auth.py:406-416 | a refresh goes on exactly with an unrevoked, unexpired token |
| SessionLife.RefreshIsAnsweredIff | backend/app/routers/auth.py:418-441 | and is answered exactly while device and user exist, prolonging nothing |
| SessionLife.EvictionNotesTheVersion | backend/app/routers/users.py:74-76 | who may begin an eviction, whom it spares and which version it notes |
| SessionLife.EvictionCommits | backend/app/services/sessions.py:26-39 | the version stored and exactly the tokens revoked by the commit |
| SecondFactor.UserRow.ConsumeTotp | backend/app/security.py:95-114 | accepts exactly when the first matching step of the three is newer than the stored one, and stores it |
| SecondFactor.FirstMatchIsLeast | backend/app/security.py:95-114 | the matched step is the least of previous, current and next with this code |
| SecondFactor.UserRow.UseBackup | backend/app/routers/auth.py:282-292 | accepts exactly an unused matching backup code and marks that one used |
| SecondFactor.BackupSpendsOne | backend/app/routers/auth.py:282-292 | one use leaves exactly one unused code fewer |
| SecondFactor.Server.ConsumePending | backend/app/services/twofa_guard.py:83-95 | claims exactly when no live marker exists, and sets one for 600 s |
| SecondFactor.Server.CheckCode | backend/app/routers/auth.py:264-295 | lock, lockout, used-marker, code without spaces and dashes, then backup code, in order, with the failure counted |
| SecondFactor.Server.ClaimAndIssue | backend/app/routers/auth.py:297-300 | commits and issues a session if and only if the claim succeeds; otherwise rolls back |
| SecondFactor.OneSessionPerPendingLogin | backend/app/services/twofa_guard.py:72-95 | under any interleaving of TOTP and passkey completions claimed within 300 s of decoding, one pending token yields at most one session |
| SecondFactor.ClaimIssuesIff | backend/app/services/twofa_guard.py:83-95 | a claim issues a session if and only if no live marker stands, whenever it comes |
| SecondFactor.Server.LoadVerify | backend/app/routers/twofa.py:114-123 | the enrolment code is checked, without a lock, on the row as read |
| SecondFactor.Server.CommitVerify | backend/app/routers/twofa.py:124-129 | the commit writes the step and the changed columns over whatever is stored by then |
| SecondFactor.AcceptedStepsIncrease | backend/app/security.py:95-114 | over every run the accepted time steps of a user strictly increase if and only if every enrolment commits a step newer than the one stored by then |
| SecondFactor.UntouchedCommitIsFresh | backend/app/routers/twofa.py:114-129 | in every run, no step accepted between an enrolment's read and its commit is enough |
| SecondFactor.StraddlingEnrolmentGoesBack | backend/app/routers/twofa.py:114-129 | for any passkey account with a secret and codes of two steps in the window, an enrolment straddling a sign-in leaves the older step stored |
| SecondFactor.LastStepMovesOnlyWithAcceptance | backend/app/routers/auth.py:272-300 | after any run, stale enrolments included, the stored step moves only with an issued session of that step or the commit of a verified enrolment code |
| SecondFactor.ReplayIsRefused | backend/app/security.py:95-114 | once a step is accepted, any code is accepted later if and only if the first step of the window that has it is newer |
| SignIn.CodePassesIff | backend/app/routers/auth.py:264-295 | a code passes exactly when it is that of a newer step of the three, or of an unused backup entry; any other ends the request and adds one live failure |
| SignIn.CodeIsSpent | backend/app/security.py:95-114 | what a passed code changes: the stored step becomes its step, or one unused backup entry is marked |
| SignIn.AssertionPassesIff | backend/app/routers/auth.py:346-385 | an assertion passes exactly when it verifies; any other ends the request and adds one live failure |
| SignIn.ChecksNotMade | backend/app/services/twofa_guard.py:45-80 | ten live failures, a claimed token or an account without factors end the request uncounted; a code waits for the row lock |
| SignIn.TokenLife | backend/app/security.py:72-92 | who gets a pending token, and that it decodes for 300 s |
| SignIn.ClaimCommits | backend/app/services/twofa_guard.py:65-95 | what a claim commits: the 600 s marker, forgiven failures, the row and the session, or nothing |
| SignIn.EnrolmentAcceptsIff | backend/app/routers/twofa.py:114-123 | an enrolment code is accepted exactly when good for the row as read, storing nothing yet |
| SignIn.EnrolmentCommits | backend/app/routers/twofa.py:124-129 | what its commit writes over whatever is stored by then |
| SignIn.SecretComesAndGoes | backend/app/routers/twofa.py:97-110 | a new secret only while TOTP is off; turning it off clears secret and, without a passkey, backup codes |
| SignIn.EverySessionRestsOnAFactor | backend/app/routers/auth.py:257-300 | over every run each session was preceded by its user's verified password and by a check on its pending token rightly passed: a good code against the row as it stood, or a verified assertion |
| FactorPolicy.Server.GetRequire2fa | backend/app/services/app_settings.py:24-32 | answers from a cache younger than 30 s, else from the row, and caches it |
| FactorPolicy.Server.RemoveTotp | backend/app/routers/twofa.py:147-155 | goes on unless no passkey is seen and the policy read is on |
| FactorPolicy.Server.RemoveAll | backend/app/routers/twofa.py:164-173 | goes on unless the policy read is on |
| FactorPolicy.Server.RemovePasskey | backend/app/routers/twofa.py:264-281 | goes on with an own credential if and only if another factor is seen or the policy read is off |
| FactorPolicy.Server.CommitChange | backend/app/routers/twofa.py:156-159 | the commit writes the columns given another value than loaded, and the credential rows, over what is stored by then |
| FactorPolicy.FlagMeansCredential | backend/app/routers/twofa.py:237-284 | over every run: the has-passkey flag holds exactly for users with a credential row at every moment if and only if every commit finds the credentials it concluded from |
| FactorPolicy.UntouchedFits | backend/app/routers/twofa.py:275-284 | a commit that finds the row as loaded does |
| FactorPolicy.LastFactorNeedsRecentOff | backend/app/services/app_settings.py:24-43 | after any run, on any worker, an enrolled account loses its last factor only at a removal's commit, and only if the policy was off within the 30 s before it decided or the other factor it saw has gone since |
| FactorPolicy.UnaskedRemovalUnenrolsIff | backend/app/routers/twofa.py:147-159 | a removal that saw another factor takes the last one if and only if that other one has gone since and the removed one was seen set |
| FactorPolicy.OverlappingRemovalsDropTheLast | backend/app/routers/twofa.py:264-284 | from any state with TOTP and one passkey, two overlapping removals leave no factor whatever the policy |
| FactorPolicy.SettledPolicyProtects | backend/app/services/app_settings.py:16-32 | after any run, once the policy has been on for 30 s no removal deciding from then on takes a last factor, unless the other one it saw has gone since |
| FactorPolicy.StaleCacheDecides | backend/app/services/app_settings.py:24-32 | a worker that cached "off" removes a last factor if and only if its cache is younger than 30 s |
| FactorPolicy.SetPolicyIsRead | backend/app/services/app_settings.py:24-43 | over every run the value set is read at once on that worker and on every worker from 30 s on, until the next change |
| FactorPolicy.CacheIsUsedIff | backend/app/services/app_settings.py:24-32 | a cached answer is used exactly while younger than 30 s |
| FactorPolicy.WholeRequestStores | backend/app/routers/twofa.py:114-284 | what each request leaves on the row it loaded: an enrolment turns TOTP on, a passkey is there, a removal takes what it names |
| FactorPolicy.CommitStores | backend/app/routers/twofa.py:156-284 | and over whatever is stored by then, column by column |
| FactorPolicy.RequestBeginsIff | backend/app/routers/twofa.py:147-281 | exactly when each kind of request goes on |
| FirstIdentity.UserRow.SetMyIdentity | backend/app/routers/users.py:118-141 | the first writer's key and wrapped key are stored together; later writers are answered with them |
| FirstIdentity.FinishedDevicesAgree | frontend/src/store/auth.ts:72-95 | under any interleaving every finished device holds the server's one key pair, public and wrapped from one writer |
| FirstIdentity.PublicKeyIsForever | backend/app/routers/users.py:118-141 | the public key, once set, never changes |
| FirstIdentity.AdoptionFailsIff | frontend/src/store/auth.ts:86-93 | a device that lost the race fails if and only if it typed another password than the wrapped key is under |
| FirstIdentity.OnePasswordNeverFails | frontend/src/store/auth.ts:72-95 | in every run in which all devices sign in with one password and nobody re-wraps the key, no device fails and the stored key is under that password |
| FirstIdentity.PutStoresIff | backend/app/routers/users.py:118-141 | the compare-and-set stores the caller's pair exactly while there is none and answers with what is stored |
| FirstIdentity.DeviceDecides | frontend/src/store/auth.ts:72-94 | when a device adopts, makes or keeps a pair |
| Schema.DropMessagesTwice | backend/app/services/retention.py:50-57 | two message deletes, files and cascades included, are one delete of the union |
| Schema.DropThreadsTwice | backend/app/services/retention.py:109-119 | the same for secret-link threads |
| Retention.Database.RemoveEach | backend/app/services/retention.py:53-55 | the removal loop removes exactly the given files |
| Retention.Database.SweepOnce | backend/app/services/retention.py:33-157 | the sweep leaves exactly the specified tables and files and reports the rows its own deletes name |
| Retention.SweepIsRowByRow | backend/app/services/retention.py:33-157 | the set-based sweep keeps exactly what a loop judging each row on the original tables would keep, cascades, files and member-less conversations included |
| Retention.SweepTwiceIsSweepOnce | backend/app/services/retention.py:33-157 | sweeping at t1 and at t2 >= t1 with unchanged settings equals sweeping once at t2 |
| Retention.JoinedDeleteIsPerConversation | backend/app/services/retention.py:58-85 | the joined age delete equals one delete per conversation, in any order |
| Retention.MessageIsKeptIff | backend/app/services/retention.py:41-85 | in a conversation with a member a message is kept exactly while its started clock has not run out and the setting is 0 or less or not exceeded |
| Retention.ZeroKeepsForEver | backend/app/services/retention.py:58-67 | with the setting 0 no sequence of sweeps removes a message whose clock is not started |
| Retention.ThreadIsKeptIff | backend/app/services/retention.py:92-118 | when a secret link goes: at its expiry, 7 days after a burn link's, 30 days after making an unopened one |
| Retention.TokenIsKeptIff | backend/app/services/retention.py:146-156 | a refresh token row stays exactly while unrevoked and not 30 days past its expiry |
| Retention.ConversationIsKeptIff | backend/app/services/retention.py:120-143 | a conversation stays exactly while somebody is in it |
| Retention.FileIsKeptIff | backend/app/services/retention.py:50-55 | a file goes exactly when a row that holds it goes |
| Retention.KeptMessagesAreUnchanged | backend/app/models/message.py:44-46 | kept messages change only by losing a pointer to a deleted one |
| Retention.DependentsFollow | backend/app/models/message.py:66-80 | dependent rows go with the row they hang on and with nothing else |
| Retention.RemovedCountsNamedRows | backend/app/services/retention.py:33-157 | the reported count is of messages out of time and the threads, conversations and tokens gone |
| Media.ReferencedIffRefers | backend/app/services/blob_gc.py:31-55 | an id is in the referenced set if and only if some row holds it |
| Media.ListIds | backend/app/services/media_store.py:70-88 | lists, once each, exactly the files at least the grace period old |
| Media.ReferencedIds | backend/app/services/blob_gc.py:31-55 | collects exactly the ids held by messages, guest messages and notes |
| Media.GcOnce | backend/app/services/blob_gc.py:58-82 | removes exactly the old unreferenced files and ownership rows and counts the files |
| Media.GcReclaimsExactly | backend/app/services/blob_gc.py:58-82 | a file is there afterwards if and only if it was there and is younger than a day or referenced |
| Media.GcTwiceIsGcOnce | backend/app/services/blob_gc.py:58-82 | a second run at the same instant changes nothing |
| Media.RowOutlivesFileIff | backend/app/services/blob_gc.py:58-82 | exactly when one run takes a file and leaves its ownership row; with rows stamped no later than their files, only on a tie of all the instants |
| Media.CollectionTakesTheRowToo | backend/app/routers/media.py:16-27 | after any run of uploads whose transaction opened before the file was saved, a collection that takes a file takes its ownership row, ties apart |
| Media.UnsentFileStaysOwned | backend/app/routers/messages.py:211-217 | an unsent attachment is accepted again and dangles, until a collection whose row cut-off passed the row's stamp |
| Media.UnsendMessage | backend/app/routers/messages.py:198-217 | succeeds exactly when the row exists, the caller is its sender and still a member; drops the file and the reference |
| Media.LeaveConversation | backend/app/routers/conversations.py:31-52 | the last member out takes the conversation, its messages and their files along |
| Media.RevokeLink | backend/app/routers/links.py:216-225 | the creator's revocation removes the thread with its files, anyone else's changes nothing |
| Media.UnsendIsSafeIff | backend/app/routers/messages.py:211-217 | unsending leaves every live row its file if and only if no other row shares the attachment |
| Media.DropMessagesIsSafeIff | backend/app/services/retention.py:50-57 | the same condition, exact, for any set of deleted messages |
| Media.AttachmentsNeverDangle | backend/app/services/media_owner.py:1-55 | in every reachable state every live row's file exists, across upload, posts, notes, unsend, sweeps, emptied conversations, revoked links, deleted accounts and collection, provided each id is put in one row within a day of its upload (refused requests put nothing) |
| Media.WaitingUploadsAreKept | backend/app/services/media_store.py:70-88 | an upload not yet in a row is on disk for a day whatever runs |
| Media.CollectionAfterARun | backend/app/services/blob_gc.py:58-82 | after any run a collection leaves exactly the referenced files and the uploads under a day old |
| Media.SecondRowDangles | backend/app/services/media_owner.py:34-38 | without the one-row promise, unsending one of two messages breaks the other |
| Media.AcceptedSendIsSafeIff | backend/app/routers/messages.py:123-127 | an accepted send keeps every file present if and only if its own file still exists |
| Permissions.OnlyTheSenderUnsends | backend/app/routers/messages.py:198-217 | in every step of every run a surviving message loses its attachment or becomes unsent only at an unsend by its own sender, still a member |
| Permissions.SendIsAcceptedIff | backend/app/routers/messages.py:123-149 | a send is accepted exactly from a member with an own upload, and what it writes |
| Permissions.GuestPostIsAcceptedIff | backend/app/routers/guest.py:69-91 | a guest's post is accepted exactly while the link is open, an image from this link or a user; the first starts a burn link's clock |
| Permissions.HostPostIsAcceptedIff | backend/app/routers/links.py:184-205 | a host's post is accepted exactly from the link's creator |
| Permissions.NoteIsCreatedIff | backend/app/routers/notes.py:58-76 | a note is made exactly with its owner's own uploads |
| Permissions.NoteIsPatchedIff | backend/app/routers/notes.py:91-111 | only its owner patches a note, to own uploads; naming none keeps them |
| Permissions.NoteIsDeletedIff | backend/app/routers/notes.py:114-124 | only its owner deletes a note, and no file goes |
| Permissions.LeavingOthers | backend/app/routers/conversations.py:517-533 | leaving a conversation somebody else is in touches only the membership |
| Permissions.LeavingLast | backend/app/routers/conversations.py:31-52 | the last one out takes the conversation, its messages and exactly their files along |
| Permissions.RevokingTakesAlong | backend/app/routers/links.py:216-225 | a revoked link takes its messages, exactly their files, and its ownership rows |
| Permissions.AccountDeletionTakesAlong | backend/app/routers/users.py:90-104 | which rows go with an account, and that messages and files stay |
| Disappearing.MarkRead | backend/app/routers/messages.py:236-296 | moves the pointer, clears the mark, records the receipt and starts exactly the due clocks |
| Disappearing.ReadingLeavesTheNewer | backend/app/routers/messages.py:255-256 | after reading a message exactly the inbound messages after it are unread; the count shown is 0 if and only if there are none |
| Disappearing.ReadingIsPrivate | backend/app/routers/messages.py:255-296 | nobody else's unread set changes |
| Disappearing.OnlyReadMessagesDisappear | backend/app/services/retention.py:41-57 | in every run the disappearing rule picks a message if and only if it was sent with a window and the first read of it or a later one by someone else, its sender still there, is more than that window ago, whatever the setting became |
| Disappearing.ClockWrittenOnce | backend/app/routers/messages.py:274-296 | a clock is written at most once and a window never changes, over all later steps |
| Disappearing.RetentionKeepsUnreadInEveryRun | backend/app/services/retention.py:58-85 | in every reachable state age retention leaves unread exactly the unread messages that survive |
| Unread.DeletionKeepsUnreadIff | backend/app/services/push.py:135-153 | a delete of any set of messages keeps the unread set exact if and only if the last-read row survives or no surviving inbound message is as old |
| Unread.AgeRetentionKeepsUnread | backend/app/services/retention.py:61-85 | age retention never turns a read message unread, even when it deletes the last-read row |
| Unread.ExpiryReopensOlderMessages | backend/app/services/retention.py:41-57 | whenever the disappearing rule deletes the last-read row every older surviving inbound message is unread again |
| Unread.GroupedIsPerMember | backend/app/services/push.py:116-160 | the grouped outer join has exactly one row per membership of any user set, holding that member's own count |
| Unread.UnreadTotals | backend/app/services/push.py:116-167 | each user's total is the sum of the numbers shown per conversation |
| Unread.FreshThreads | backend/app/services/push.py:174-205 | counts exactly the creator's unread secret links |
| Unread.UserBadgeTotal | backend/app/services/push.py:174-205 | the pushed number is the badge |
| Unread.UnreadByConversation | backend/app/routers/conversations.py:255-292 | the batched counts are the numbers shown, for every membership |
| Unread.ListConversations | backend/app/routers/conversations.py:202-325 | every conversation once with the number shown |
| Unread.ListLinks | backend/app/routers/links.py:93-140 | every thread of the creator once with its unread flag |
| Unread.CountUnread | frontend/src/store/chat.ts:189-194 | the client's count is the number of unread secret links |
| Unread.SyncBadge | frontend/src/lib/badge.ts:53-59 | after a full reload, in any list order, the client's total is the same badge the server computes |
| UnreadLife.UnreadIff | backend/app/services/push.py:135-153 | exactly which messages are unread for a member |
| UnreadLife.ShownIff | backend/app/services/push.py:162-166 | a conversation shows its unread number, and 1 when there are none but it was marked |
| UnreadLife.LinkIsUnreadIff | backend/app/routers/links.py:118-125 | a link is unread exactly when its latest message is the guest's and not opened since |
| UnreadLife.SendAddsOne | backend/app/routers/messages.py:123-149 | a send adds exactly that message for every other member and nothing for its sender |
| UnreadLife.UnsendTakesOne | backend/app/routers/messages.py:207-217 | an unsend takes exactly that message out for everyone |
| UnreadLife.ClearingHides | backend/app/routers/conversations.py:471-480 | clearing leaves unread only what comes later, for this member only |
| UnreadLife.MarkingShows | backend/app/routers/messages.py:336-349 | marking shows at least 1 and counts no message |
| UnreadLife.JoiningHasAllUnread | backend/app/routers/conversations.py:342-376 | a new member has everything others sent unread |
| UnreadLife.ReadingWrites | backend/app/routers/messages.py:255-287 | what a read writes: pointer, mark, receipt and exactly the due clocks |
| UnreadLife.ReadIsAcceptedIff | backend/app/routers/messages.py:247-253 | a read is accepted exactly from a member for a message of that conversation |
| UnreadLife.SettingsAreMembersOnly | backend/app/routers/conversations.py:404-452 | only members change the window or the retention of a conversation |
| Base64.BytesToBase64url | frontend/src/crypto/base64.ts:3-7 | the loop computes the specified encoding |
| Base64.Base64urlToBytes | frontend/src/crypto/base64.ts:11-18 | the loop computes the specified decoding and fails exactly with it |
| Base64.ConcatBytes | frontend/src/crypto/base64.ts:20-28 | the result is the concatenation, in a new array |
| Base64.DecodeEncode | frontend/src/crypto/base64.ts:3-18 | decoding inverts encoding for every byte string |
| Base64.EncodeIsUrlSafe | frontend/src/crypto/base64.ts:3-7 | only URL-safe characters, no padding, exact length |
| Base64.DecodeUrlSafe | frontend/src/crypto/base64.ts:11-18 | a URL-safe string decodes unless its length is 1 over a multiple of 4, to its sextets' bytes, despite dropped padding |
| Base64.EncodeDecodeIff | frontend/src/crypto/base64.ts:3-18 | re-encoding gives the string back if and only if its loose bits are zero |
| Base64.DecodesIff | frontend/src/crypto/base64.ts:11-18 | exactly which strings without blanks and padding decode |
| Base64.SymbolsAreStandard | frontend/src/crypto/base64.ts:3-7 | the alphabet is the standard's, with - and _ |
| Base64.GroupIsTheSameNumber | frontend/src/crypto/base64.ts:3-7 | three bytes and their four sextets are the same 24-bit number |
| Utf8.DecodeEncode | frontend/src/crypto/base64.ts:30-34 | text comes back with lone surrogates replaced and a leading mark dropped |
| Utf8.SurvivesIff | frontend/src/crypto/base64.ts:30-34 | text comes back unchanged if and only if it has no lone surrogate and no leading U+FEFF |
| Utf8.BytesAreStandard | frontend/src/crypto/base64.ts:30-34 | each scalar value is written as UTF-8 prescribes |
| Envelope.LawsCanHold | frontend/src/crypto/messaging.ts:36-54 | the two laws asked of the primitives are satisfiable |
| Envelope.WrapKeysAgree | frontend/src/crypto/messaging.ts:32-54 | sender and recipient derive the same wrap key |
| Envelope.KeyCache.DeriveWrapKeyCached | frontend/src/crypto/messaging.ts:56-78 | the cache never changes the answer and keeps exactly the successes |
| Envelope.EncryptMessage | frontend/src/crypto/messaging.ts:80-118 | rejects if and only if a listed user's first key is unusable; otherwise one entry per listed user for its first key |
| Envelope.DecryptMessage | frontend/src/crypto/messaging.ts:120-147 | computes the specified decryption through the cache |
| Envelope.EntryOpens | frontend/src/crypto/messaging.ts:103-133 | the iv in front of the wrapped key is split off again and the entry opens |
| Envelope.WrapKeyComesIff | frontend/src/crypto/messaging.ts:32-54 | a wrap key comes of exactly a 32-byte public key the agreement takes |
| Envelope.TextComesOutIff | frontend/src/crypto/messaging.ts:120-147 | a text comes out exactly when wrap key, entry, message key and payload all open |
| Envelope.EveryRecipientRecovers | frontend/src/crypto/messaging.ts:80-147 | for every plaintext and recipient list each listed user recovers the text, given only that opening inverts sealing and agreement is symmetric |
| Envelope.RecoveredExactlyIff | frontend/src/crypto/messaging.ts:80-147 | what is recovered is the plaintext itself if and only if it has no lone surrogate and no leading U+FEFF |

## Left out

- ThreadLog.PageIsPrefix: assumes strictly increasing message times within a thread and one outstanding full load; decryption, thumbnails, the 410 answer and the reset on switching threads are not modelled (a failed poll is a lost one).
- ThreadLog.PollAfterLastPostCatchesUp: asks for nothing more, but speaks only of runs in which that poll's answer arrives.
- Paging.AlwaysAWindow: speaks of runs whose arrivals fit; `StepKeepsIff` says a misfit breaks the list and `ReloadMends` what repairs it. Messages deleted between two page fetches and clearing the history are not modelled.
- Paging.WalkReachesTheBeginning: assumes distinct message times; the attachment of reactions to a page and the malformed-cursor error are left out.
- Hub.Worker.DeliverLocal: a socket that cannot be sent to is a parameter; reconnecting to the pub/sub channel is not modelled.
- GuestCalls.Endpoint.Receive: payload cleaning, the oversize and malformed-frame drops and the host push are left out; whether a connection is the host is a parameter; the ring limit is in `RateLimit`.
- CallQueue.Relay.RelayCallEvent: malformed ids are not modelled; the push itself and the caller's display name are left out.
- Sessions.Server.LoadPasswordChange: password hashing is a boolean; closing live sockets appears only as the set of devices named.
- Sessions.EvictionIsBounded: how long one refresh request may take is not bounded by the code, so the moment of its answer is a parameter.
- RateLimit.CounterBounds: the bound of 20 failed checks holds for checks that do not overlap; each of several overlapping ones may pass `assert_not_locked` before any has counted (`backend/app/services/twofa_guard.py:45-62`).
- RateLimit.AtMostTwiceTheLimit: for failed checks, the same proviso.
- FactorPolicy.Server.CommitChange: the TOTP secret and the backup codes are not columns of this module.
- SecondFactor.Server.CheckCode: the case folding inside the backup-code hash is part of the uninterpreted hash; WebAuthn verification and the sign count are one boolean.
- SecondFactor.OneSessionPerPendingLogin: assumes a request claims within 300 s of decoding; `ClaimIssuesIff` says what happens otherwise.
- FirstIdentity.FinishedDevicesAgree: a failed network request is a device that never takes its next step.
- Retention.Database.SweepOnce: reactions cascade like receipts and are not a separate table; file removal before the commit is not separated from it.
- Media.AttachmentsNeverDangle: the one-row promise is the callers' part, because the host's post, a guest's file post and a repeated own id are not refused by the server.
- Media.CollectionTakesTheRowToo: asks that an upload's transaction opened before its file was saved. One route can differ: with the storage quota switched off, a guest's upload that is also the first open of a burn thread commits the new expiry (`backend/app/routers/guest.py:31-33`) and records the file in a second transaction; `RowOutlivesFileIff` covers it.
- Media.LeaveConversation: two members leaving at once under READ COMMITTED is left to the sweep, which is modelled.
- Unread.SyncBadge: setting the icon and closing notifications are browser effects; `_unread_count` for a single conversation ignores a cleared history and is not claimed equal.
- Unread.ListConversations: the final sort by last activity and the message previews are left out; order does not matter to the badge.
- Utf8.DecodeEncode: replacement text for malformed bytes is not modelled (decoding such bytes is an error here).
- Envelope.EveryRecipientRecovers: AES-GCM, X25519 and HKDF are uninterpreted; a user listed twice is served for its first key only, as in the code.
- Redis outages and the fail-open branches, worker crashes, push delivery, quotas, WebRTC and the call store of the client are not part of this model.
