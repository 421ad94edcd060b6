# rapid-anon-chat: a verified model of matchmaking and the chat session

rapid-anon-chat pairs anonymous visitors for one-to-one text chat. A visitor fills
in a profile (name, location, their gender and the gender they are looking for).
They then enter a shared waiting queue, and a client that finds a compatible
waiting entry opens a chat room for the two. Messages, the room's closing and the
partner's typing state reach each client through change streams. A separate
presence table counts the visitors seen in the last two minutes.

This project models that core in Dafny:

- `Tables` (`tables.dfy`): the storage substrate. These are the `waiting_queue`,
  `chat_rooms`, `messages`, `typing_status`, `reports` and `online_users` tables,
  held by one `Store` object that every client shares. One millisecond clock
  stands for `new Date()`. Each write the clients issue is a `Store` method that
  keeps the tables well formed:
  - the queue is keyed by session and kept in `created_at` order;
  - room and message ids are positions in their tables;
  - messages are stamped in order.
- `Matchmaking` (`matchmaking.dfy`): the pure parts of `useChat`. These are
  `isMatch`, the scan of the queue for the first compatible entry, the poll's
  search for an active room that names the session, and the partner summaries
  with their `Stranger`/`Unknown`/`other` fallbacks.
- `ChatSession` (`chat_session.dfy`): the `useChat` hook as a class `Session`
  over the shared store. Each asynchronous step is one atomic method: one
  `tryMatch`, one poll tick, one handler invocation, one send.
- `Presence` (`presence.dfy`): the `useOnlineUsers` hook. Registration, the
  heartbeat, unregistration and the freshness count are covered.
- `ProfileForm`, `ReportDialog` and `ChatInput`: the validation, reason derivation
  and send gating of the three form components.
- `Text` and `Wrappers`: JavaScript's `trim` and `slice(0, n)`, and an `Option` type.

A failure of the substrate is a `bool` parameter (`accepted`, `answered`). It is
modelled for the room insert in `tryMatch`, the message insert in
`sendMessage`, and the count query. Other failed reads are not modelled; see
"## Left out".

## Model

| member | source | states |
|---|---|---|
| Text.Trim | src/hooks/useChat.ts:292 | the result of `trim` is no longer than the input and neither starts nor ends with whitespace |
| Text.TrimCutsWhitespace | src/hooks/useChat.ts:292 | `trim` keeps a middle part of the input and cuts away only whitespace before and after it |
| Text.TrimEmptyIff | src/hooks/useChat.ts:292 | `!s.trim()` holds exactly when every character of `s` is whitespace |
| Text.TrimOfTrimmed | src/hooks/useChat.ts:299 | trimming an already trimmed text changes nothing, so `sendMessage` stores the text `ChatInput` hands it as it is |
| Text.Take | src/components/chat/UserProfileForm.tsx:40-41 | `slice(0, n)` is a prefix of length `min(n, length)` |
| Tables.WaitingTableMeans | src/hooks/useChat.ts:107-111 | the stored queue is in ascending `created_at` order, keyed by `session_id`, and has no entry stamped in the future |
| Tables.NoEntries | src/hooks/useChat.ts:56 | a session has no waiting entry exactly when no entry carries its id |
| Tables.DropMembers | src/hooks/useChat.ts:133 | `delete().in('session_id', ids)` keeps exactly the entries of sessions outside `ids` |
| Tables.DropRemoves | src/hooks/useChat.ts:133 | after the delete, no deleted session has an entry |
| Tables.DropKeepsOthers | src/hooks/useChat.ts:133 | the delete leaves every other session's entry count as it was |
| Tables.DropKeepsTable | src/hooks/useChat.ts:133 | the delete keeps the queue keyed and ordered |
| Tables.EnqueueMembers | src/hooks/useChat.ts:88-95 | after the upsert the queue holds the new entry, every entry of the other sessions, and nothing else |
| Tables.EnqueueKeepsTable | src/hooks/useChat.ts:88-95 | an upsert stamped now keeps the queue keyed and ordered |
| Tables.EnqueueReplaces | src/hooks/useChat.ts:88-95 | re-entering replaces rather than duplicates: exactly one entry for the session, and other sessions unchanged |
| Tables.EndRoomRow | src/hooks/useChat.ts:62-65 | the update sets `is_active` false and `ended_at` on the one room with that id, and changes no other row or column |
| Tables.MessageTableMeans | src/hooks/useChat.ts:294-302 | in the message table every id is its position, and no row is stamped after now |
| Tables.MessageTableAppend | src/hooks/useChat.ts:294-302 | a row with the next id, stamped now, keeps the table well formed |
| Tables.Store.UpsertWaiting | src/hooks/useChat.ts:88-95 | the queue becomes the upsert of the entry, still well formed |
| Tables.Store.DeleteWaiting | src/hooks/useChat.ts:133 | the queue loses exactly the entries of the listed sessions, still well formed |
| Tables.Store.InsertRoom | src/hooks/useChat.ts:121-129 | the room is appended with the next id, and earlier rooms are untouched |
| Tables.Store.InsertRoomAndDequeue | src/hooks/useChat.ts:121-133 | a match's two writes: the room is appended with the next id, then exactly the listed sessions' waiting entries are deleted |
| Tables.Store.EndRoom | src/hooks/useChat.ts:62-65 | the room table becomes `EndRoomRow` of the old one |
| Tables.Store.InsertMessage | src/hooks/useChat.ts:294-302 | one message is appended with the next id and stamped now |
| Tables.Store.UpsertTyping | src/hooks/useChat.ts:314-321 | the (room, session) typing row is replaced, stamped now, and every other row is kept |
| Tables.Store.InsertReport | src/hooks/useChat.ts:363-368 | one report is appended |
| Tables.Store.UpsertPresence | src/hooks/useOnlineUsers.ts:27-36 | the session's presence record is replaced or created |
| Tables.Store.TouchPresence | src/hooks/useOnlineUsers.ts:13-16 | only `last_seen` of an existing record moves; a missing record stays missing |
| Tables.Store.DeletePresence | src/hooks/useOnlineUsers.ts:41-44 | the session's record goes, and every other record stays |
| Matchmaking.AcceptsIsStringTest | src/hooks/useChat.ts:99-100 | one side accepts the other exactly when its lookingFor is `everyone` or equals the other's gender string; only `everyone` accepts `other` |
| Matchmaking.IsMatchIsStringTest | src/hooks/useChat.ts:98-102 | `isMatch` is true exactly when each side's lookingFor is `everyone` or equals the other's gender |
| Matchmaking.IsMatchSymmetric | src/hooks/useChat.ts:98-102 | swapping the two users' (gender, lookingFor) pairs gives the same answer |
| Matchmaking.DefaultsMeaning | src/hooks/useChat.ts:116 | an entry with neither gender nor preference counts as `other`/`everyone`, so it suits exactly the profiles looking for everyone |
| Matchmaking.FirstCompatibleIsFirst | src/hooks/useChat.ts:115-117 | `find` returns a compatible entry with no compatible one before it, and nothing exactly when no entry is compatible |
| Matchmaking.FindPairingExists | src/hooks/useChat.ts:107-119 | `tryMatch` finds a match exactly when some other session's entry is compatible |
| Matchmaking.FindPairingShape | src/hooks/useChat.ts:107-133 | the match is a compatible entry of another session; the new room is active and names self as `user1` and the match as `user2`; both entries are deleted |
| Matchmaking.PairingIsOldestCompatible | src/hooks/useChat.ts:107-117 | the match is an oldest compatible entry: no compatible entry of another session has an earlier `created_at` |
| Matchmaking.PairingEmptiesBoth | src/hooks/useChat.ts:133 | after pairing, neither session has a waiting entry, every other entry stays, and the queue stays keyed and ordered |
| Matchmaking.ActiveRoomFor | src/hooks/useChat.ts:162-169 | the poll finds an active room naming the session, none before it in the table, and nothing exactly when there is none |
| Matchmaking.OtherParticipant | src/hooks/useChat.ts:171 | for a room naming self, self and the result are the room's two participants |
| Matchmaking.OrElse | src/hooks/useChat.ts:143-145 | `value \|\| fallback` keeps a non-empty value, and otherwise gives the fallback |
| Matchmaking.PartnerFromEntry | src/hooks/useChat.ts:142-146 | the partner info after a match is never blank: each field copies the entry's value when it has one and otherwise falls back on its own, name to `Stranger`, location to `Unknown`, gender to `other` |
| Matchmaking.PartnerFromPresence | src/hooks/useChat.ts:174-193 | the partner info on a poll hit is never blank: with a record, each field copies the record's value or falls back on its own to `Stranger`, `Unknown` or `other`; without a record it is all fallbacks |
| ChatSession.History | src/hooks/useChat.ts:208-223 | the loaded list holds exactly the views of the room's stored messages |
| ChatSession.HistoryStamped | src/hooks/useChat.ts:209-221 | every loaded message has an id of a stored row and a timestamp no later than now |
| ChatSession.HistoryInSendOrder | src/hooks/useChat.ts:209-213 | loaded oldest first, the list has strictly increasing ids and non-decreasing timestamps |
| ChatSession.HistoryAppend | src/hooks/useChat.ts:294-310 | storing one message extends that room's loaded history by exactly that message, and leaves every other room's as it was |
| ChatSession.Session.constructor | src/hooks/useChat.ts:29-39 | the hook starts idle, with nothing known and nothing subscribed |
| ChatSession.Session.InitiateChat | src/hooks/useChat.ts:69-73 | the status becomes `profile`, and partnerLeft and partnerInfo are cleared |
| ChatSession.Session.LeaveQueue | src/hooks/useChat.ts:54-57 | the session's waiting entry is deleted and no other entry changes; without a session id, nothing changes |
| ChatSession.Session.EndRoom | src/hooks/useChat.ts:60-66 | only `is_active` and `ended_at` of the current room are written; without a room, nothing changes |
| ChatSession.Session.Cleanup | src/hooks/useChat.ts:42-51 | the room channel is dropped and the poll is stopped |
| ChatSession.Session.TryMatch | src/hooks/useChat.ts:105-153 | with a pairing and an accepted insert, the room is added, both entries are deleted, the poll stops and the session connects to the match; otherwise neither the session nor the tables change |
| ChatSession.Session.StartMatching | src/hooks/useChat.ts:76-95 | with an empty session id nothing changes; otherwise profile, status `matching` and the cleared messages, room and partner are set, and exactly one waiting entry is upserted |
| ChatSession.Session.StartPolling | src/hooks/useChat.ts:155-160 | the poll starts, with the profile, exactly when the first attempt did not open a room: no compatible entry was found, or the room insert was rejected |
| ChatSession.Session.PollTick | src/hooks/useChat.ts:160-199 | when an active room names self, the partner is its other participant, only self's entry is deleted, the poll stops and the session connects; otherwise the tick is one `tryMatch` |
| ChatSession.Session.OpenRoom | src/hooks/useChat.ts:204-229 | with a room and a session id the history is loaded and the room's channel subscribed; otherwise nothing changes |
| ChatSession.Session.OnMessageInserted | src/hooks/useChat.ts:238-248 | a message of the subscribed room from the partner is appended at the end, and the list is otherwise unchanged |
| ChatSession.Session.OnRoomUpdated | src/hooks/useChat.ts:258-264 | the subscribed room turning inactive sets partnerLeft and status `disconnected`; nothing else changes |
| ChatSession.Session.OnTypingChanged | src/hooks/useChat.ts:274-279 | only the partner's typing rows of the subscribed room move `isPartnerTyping` |
| ChatSession.Session.SendMessage | src/hooks/useChat.ts:291-322 | without room or session, or with text that trims to empty, nothing changes; otherwise the trimmed text is stored and listed once at the end as own, and self's typing row becomes false |
| ChatSession.Session.SetTyping | src/hooks/useChat.ts:325-336 | self's typing row of the room is upserted; without a room or a session id, nothing changes |
| ChatSession.Session.Disconnect | src/hooks/useChat.ts:339-346 | self's entry is deleted, the room ended, the status `disconnected`, and room and partner session cleared |
| ChatSession.Session.FindNew | src/hooks/useChat.ts:349-357 | the room is ended; messages, partner, profile and partnerLeft are cleared, and the status becomes `profile` |
| ChatSession.Session.ReportUser | src/hooks/useChat.ts:360-371 | without room, partner and session, nothing changes; otherwise one report naming reporter and reported is inserted, then the session disconnects |
| Presence.FreshnessBoundary | src/hooks/useOnlineUsers.ts:49-54 | the `gte` filter is inclusive: a record last seen exactly two minutes ago is counted, one a millisecond older is not, and one seen at or after now is counted |
| Presence.CountBounded | src/hooks/useOnlineUsers.ts:51-56 | the online count never exceeds the number of records |
| Presence.FreshWriteCounts | src/hooks/useOnlineUsers.ts:27-36 | writing a record stamped now adds its session to the count unless it was already counted, and no other session's standing changes |
| Presence.RemovalCounts | src/hooks/useOnlineUsers.ts:41-44 | deleting a record takes its session out of the count if it was counted |
| Presence.HeartbeatRestores | src/hooks/useOnlineUsers.ts:47-54 | a record three minutes old is not counted, and the heartbeat's refresh makes it count again |
| Presence.Tracker.constructor | src/hooks/useOnlineUsers.ts:6-7 | the count starts at zero |
| Presence.Tracker.RegisterUser | src/hooks/useOnlineUsers.ts:19-37 | the session then has exactly one record, carrying the given fields and last seen now; without a session id, nothing changes |
| Presence.Tracker.UpdateOnlineStatus | src/hooks/useOnlineUsers.ts:9-17 | only `last_seen` of self's record moves, and nothing is created; without a session id, nothing changes |
| Presence.Tracker.UnregisterUser | src/hooks/useOnlineUsers.ts:39-45 | self's record is removed and every other record is unchanged; without a session id, nothing changes |
| Presence.Tracker.FetchOnlineCount | src/hooks/useOnlineUsers.ts:47-57 | the count is that of the fresh records, or 0 when the query yields no count, and never exceeds the number of records |
| ProfileForm.Validate | src/components/chat/UserProfileForm.tsx:30-32 | each field that trims to empty gets its message, and both are reported together |
| ProfileForm.Submission | src/components/chat/UserProfileForm.tsx:34-44 | a profile is handed on exactly when both fields are non-blank; each text is a prefix of the trimmed input, the whole of it when it has at most 50 characters and exactly 50 otherwise; gender and lookingFor pass through |
| ProfileForm.ShortFieldKept | src/components/chat/UserProfileForm.tsx:40-41 | a trimmed field of at most 50 characters is handed on whole |
| ProfileForm.Form.constructor | src/components/chat/UserProfileForm.tsx:21-25 | the fields start empty, with gender `other`, looking for everyone and no errors |
| ProfileForm.Form.HandleSubmit | src/components/chat/UserProfileForm.tsx:27-45 | on a blank field the new errors replace the shown ones and nothing is handed on; otherwise the profile is handed on |
| ReportDialog.LabelOf | src/components/chat/ReportDialog.tsx:30 | `find` gives the label of the first choice with the value, and nothing exactly when no choice has it |
| ReportDialog.DeriveReason | src/components/chat/ReportDialog.tsx:28-30 | for `other`, the reason is 1 to 500 characters: `Other` when the explanation is blank, otherwise a prefix of the trimmed explanation, the whole of it when it has at most 500 characters and exactly 500 otherwise |
| ReportDialog.ReasonEmptyIff | src/components/chat/ReportDialog.tsx:15-30 | the reason handed on is empty exactly when no reason is selected, since every label is non-empty and the empty value is not listed |
| ReportDialog.ListedReasonsLabelled | src/components/chat/ReportDialog.tsx:15-30 | each listed value is reported as its label, for example `spam` as `Spam or scam`, whatever explanation is left over from an earlier choice of `other` |
| ReportDialog.UnlistedReasonUnchanged | src/components/chat/ReportDialog.tsx:30 | a value outside the list is reported unchanged |
| ReportDialog.Dialog.constructor | src/components/chat/ReportDialog.tsx:24-25 | nothing is selected and there is no explanation |
| ReportDialog.Dialog.SubmitDisabled | src/components/chat/ReportDialog.tsx:117 | the button is disabled exactly when submitting would hand on an empty reason |
| ReportDialog.Dialog.HandleSubmit | src/components/chat/ReportDialog.tsx:27-34 | the derived reason is handed on once, and both fields are reset to empty |
| ChatInput.Outgoing | src/components/chat/ChatInput.tsx:16-17 | a submit sends exactly when the button (line 41) is enabled, that is when the text is not all whitespace and the box is enabled; what it sends is the trimmed text, non-empty and with no whitespace at either end |
| ChatInput.Input.constructor | src/components/chat/ChatInput.tsx:12 | the box starts empty |
| ChatInput.Input.HandleSubmit | src/components/chat/ChatInput.tsx:14-20 | a send clears the box; when the gate fails nothing is sent and the text is kept |

## Left out

- The Supabase client, realtime delivery and network round trips are left out. The tables are in memory, and each handler is a method called with the row it would receive. Nothing is claimed about delivery.
- Races between clients are left out. Each `tryMatch`, poll tick and handler runs atomically. Two clients can still create two rooms for one pair in the real system (the room insert has no uniqueness guard), and the model says nothing about "exactly one room" under interleavings.
- Timers are not modelled as timers. The 2-second matching poll is the `poll` field, and each tick is an explicit `PollTick` call. The 10-second count refresh, the 30-second heartbeat and the typing debounce in the chat room are left out.
- Time is one clock in milliseconds shared by every client. Clock skew between browsers is left out.
- Entries and messages with equal `created_at` can occur, since `Store.Tick` does not have to advance the clock. The model takes tied rows in insertion order. The database's `order('created_at')` (src/hooks/useChat.ts:111 and :213) does not promise any order among ties.
- `startMatching` is modelled as three atomic segments at its awaits: `StartMatching` (reset and upsert), then `TryMatch`, then `StartPolling`.
- A failed read is not modelled, except the count query's. The code also branches on three reads that the model takes as always answered:
  - a missing waiting list (src/hooks/useChat.ts:113), where `tryMatch` finds nobody;
  - a missing room list in the poll (src/hooks/useChat.ts:169), where the poll falls through to `tryMatch`, so a session already paired by someone else can open a second room;
  - missing history (src/hooks/useChat.ts:215), where the messages shown are kept and the channel is still subscribed.
- ChatSession.Session.PollTick: the poll's room query has no order before `limit(1)`. The model takes the first matching room in table order.
- ChatSession.Session.FindNew: the code ends the room but does not leave the waiting queue and keeps `roomId`. The model follows the code.
- Presence.IsFresh: the code's filter `gte` counts a record seen exactly two minutes ago, so the window is inclusive at its far end (see `Presence.FreshnessBoundary`).
- Presence.Tracker.UpdateOnlineStatus: the heartbeat is an `update`, not an upsert. It never re-creates a deleted record, so a session whose record was removed stays uncounted until it registers again.
- No per-session invariant over the tables is claimed: neither "a session is in at most one active room" nor "a session is never both waiting and in an active room". The code does not keep either. The unmount cleanup (src/hooks/useChat.ts:374-379) leaves the queue but does not end the room. The first `tryMatch` (src/hooks/useChat.ts:156) does not check for an existing room.
- ProfileForm.Form.HandleSubmit: a successful submit leaves earlier error messages as they were, as the code does.
- Lengths are counted in Unicode characters, not UTF-16 code units. `slice(0, 50)` and `slice(0, 500)` can differ from the model on text outside the Basic Multilingual Plane.
- The `maxLength` attributes of the inputs are not modelled. The model takes any string, so the truncation in `handleSubmit` is what bounds the lengths.
- The typing handler's DELETE payload is not modelled; the model receives typing rows only.
- The keys of `typing_status` and `online_users` are maps and need no invariant. Nothing is tracked about rows of sessions that have gone away.
- The interval that a repeated `startMatching` overwrites without clearing is not modelled: `poll` holds one poll at most.
- The unload beacon and the React unmount cleanup effects are browser I/O and are left out.
- `useSessionId` is not part of this model. The session id is an opaque string, and empty means not yet available.
- The presentation components and the landing and layout pages are animation and static text, and are not part of this model.

