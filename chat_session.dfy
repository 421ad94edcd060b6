/** The chat hook: one client's session state machine (idle, profile, matching,
    connected, disconnected), its matching attempts against the shared waiting
    queue, and the handlers that relay the room's messages, its closing and the
    partner's typing state. Each asynchronous step is one atomic method. */
module ChatSession {
  import opened Wrappers
  import opened Text
  import opened Domain
  import opened Tables
  import opened Matchmaking

  /** How the client lists a stored message: `isOwn` when this session sent it. */
  function View(m: StoredMessage, self: string): ChatMessage
  {
    ChatMessage(m.id, m.content, m.sender == self, m.createdAt)
  }

  /** `loadMessages`: the room's stored messages, oldest first, as the client lists them. */
  function History(ms: seq<StoredMessage>, room: nat, self: string): (r: seq<ChatMessage>)
    ensures |r| <= |ms|
    ensures forall i :: 0 <= i < |r| ==>
      exists j :: 0 <= j < |ms| && ms[j].roomId == room && r[i] == View(ms[j], self)
    ensures forall j :: 0 <= j < |ms| && ms[j].roomId == room ==> View(ms[j], self) in r
  {
    if ms == [] then []
    else
      var init := ms[..|ms| - 1];
      var rest := History(init, room, self);
      var last := ms[|ms| - 1];
      assert forall j :: 0 <= j < |init| ==> init[j] == ms[j];
      if last.roomId == room then rest + [View(last, self)] else rest
  }

  /** Ids strictly increase (no message is listed twice) and timestamps never decrease. */
  predicate InSendOrder(r: seq<ChatMessage>) {
    forall i, k :: 0 <= i < k < |r| ==> r[i].id < r[k].id && r[i].timestamp <= r[k].timestamp
  }

  /** Read from a well-formed table, every listed message has an id below the
      table's length and is stamped no later than `clock`. */
  lemma {:induction false} HistoryStamped(ms: seq<StoredMessage>, room: nat, self: string, clock: int)
    requires MessageTable(ms, clock)
    ensures forall c :: c in History(ms, room, self) ==> c.id < |ms| && c.timestamp <= clock
  {
    if ms != [] {
      var init, last := ms[..|ms| - 1], ms[|ms| - 1];
      HistoryStamped(init, room, self, last.createdAt);
    }
  }

  /** Read from a well-formed table, the history is in send order. */
  lemma {:induction false} HistoryInSendOrder(ms: seq<StoredMessage>, room: nat, self: string, clock: int)
    requires MessageTable(ms, clock)
    ensures InSendOrder(History(ms, room, self))
  {
    if ms != [] {
      var init, last := ms[..|ms| - 1], ms[|ms| - 1];
      HistoryInSendOrder(init, room, self, last.createdAt);
      HistoryStamped(init, room, self, last.createdAt);
      var rest := History(init, room, self);
      if last.roomId == room {
        var r := rest + [View(last, self)];
        forall i, k | 0 <= i < k < |r| ensures r[i].id < r[k].id && r[i].timestamp <= r[k].timestamp {
          if k < |rest| {
            assert r[i] == rest[i] && r[k] == rest[k];
          } else {
            assert r[i] == rest[i] && rest[i] in rest;
            assert r[k] == View(last, self);
          }
        }
      }
    }
  }

  /** The round trip of a send: storing one message extends the room's history,
      as either participant loads it, by exactly that message and leaves every
      other room's history as it was. */
  lemma HistoryAppend(ms: seq<StoredMessage>, m: StoredMessage, room: nat, self: string)
    ensures History(ms + [m], room, self) ==
      History(ms, room, self) + (if m.roomId == room then [View(m, self)] else [])
  {
    assert (ms + [m])[..|ms|] == ms;
  }

  /** `!partnerSession` is false: a partner is known. */
  predicate Known(s: Option<string>) {
    s.Some? && s.value != ""
  }

  class Session {
    /** The tables shared with every other client. */
    const store: Store
    /** This tab's session id; empty while it is not yet available. */
    const sessionId: string
    var status: Status
    var messages: seq<ChatMessage>
    var roomId: Option<nat>
    var partnerSession: Option<string>
    var partnerInfo: Option<PartnerInfo>
    var isPartnerTyping: bool
    var partnerLeft: bool
    var userProfile: Option<UserProfile>
    /** The subscribed room channel (`channelRef`): the room whose change streams reach the handlers. */
    var channel: Option<nat>
    /** The running matching poll (`matchingIntervalRef`), with the profile its closure captured. */
    var poll: Option<UserProfile>

    /** A fresh hook: idle, nothing known, nothing subscribed. */
    constructor (store: Store, sessionId: string)
      ensures this.store == store && this.sessionId == sessionId
      ensures status == Idle && messages == [] && roomId.None? && partnerSession.None?
      ensures partnerInfo.None? && !isPartnerTyping && !partnerLeft && userProfile.None?
      ensures channel.None? && poll.None?
    {
      this.store, this.sessionId := store, sessionId;
      status, messages, roomId, partnerSession := Idle, [], None, None;
      partnerInfo, isPartnerTyping, partnerLeft, userProfile := None, false, false, None;
      channel, poll := None, None;
    }

    /** The state a successful `tryMatch` leaves: the pairing's room added to the
        table, the pairing's queue, the poll stopped, and the session connected to
        the matched entry. */
    ghost predicate ConnectedBy(rooms0: seq<Room>, p: Pairing)
      reads this, store
    {
      store.rooms == rooms0 + [p.room] && store.waiting == p.queue &&
      status == Connected && poll.None? && roomId == Some(p.room.id) &&
      partnerSession == Some(p.partner.sessionId) && partnerInfo == Some(PartnerFromEntry(p.partner))
    }

    /** What one `tryMatch` does: with a pairing and an accepted room insert it
        connects; otherwise nothing changes. */
    twostate predicate TriedMatch(profile: UserProfile, accepted: bool, matched: bool)
      reads this, store
    {
      var p := FindPairing(profile, sessionId, old(store.waiting), |old(store.rooms)|);
      (matched <==> p.Some? && accepted) &&
      (matched ==> ConnectedBy(old(store.rooms), p.value)) &&
      (!matched ==> status == old(status) && roomId == old(roomId) && partnerSession == old(partnerSession) &&
                    partnerInfo == old(partnerInfo) && poll == old(poll) &&
                    store.waiting == old(store.waiting) && store.rooms == old(store.rooms))
    }

    /** `initiateChat`: show the profile form, forgetting the last partner. */
    method InitiateChat()
      modifies this`status, this`partnerLeft, this`partnerInfo
      ensures status == Profile && !partnerLeft && partnerInfo.None?
    {
      status := Profile;
      partnerLeft := false;
      partnerInfo := None;
    }

    /** `leaveQueue`: delete this session's waiting entry; without a session id, nothing. */
    method LeaveQueue()
      requires store.Valid()
      modifies store`waiting
      ensures store.Valid()
      ensures store.waiting == if sessionId == "" then old(store.waiting) else Drop(old(store.waiting), {sessionId})
      ensures sessionId != "" ==> EntriesOf(store.waiting, sessionId) == 0
    {
      if sessionId == "" { return; }
      DropRemoves(store.waiting, {sessionId}, sessionId);
      store.DeleteWaiting({sessionId});
    }

    /** `endRoom`: mark the current room inactive with an end time; it writes
        `is_active` and `ended_at` of that one room only, and nothing without a room. */
    method EndRoom()
      requires store.Valid()
      modifies store`rooms
      ensures store.Valid() && RoomsFollow(old(store.rooms), store.rooms)
      ensures store.rooms == if roomId.None? then old(store.rooms)
                             else EndRoomRow(old(store.rooms), roomId.value, store.clock)
    {
      if roomId.None? { return; }
      store.EndRoom(roomId.value);
    }

    /** `cleanup`: remove the room channel and stop the matching poll. */
    method Cleanup()
      modifies this`channel, this`poll
      ensures channel.None? && poll.None?
    {
      channel := None;
      poll := None;
    }

    /** `tryMatch`: scan the other waiting entries oldest first for the first
        compatible one; if the room insert is `accepted`, create the room, remove
        both sessions from the queue, stop polling and connect. */
    method TryMatch(profile: UserProfile, accepted: bool) returns (matched: bool)
      requires store.Valid()
      modifies this`status, this`roomId, this`partnerSession, this`partnerInfo, this`poll
      modifies store`waiting, store`rooms
      ensures store.Valid() && RoomsFollow(old(store.rooms), store.rooms)
      ensures TriedMatch(profile, accepted, matched)
    {
      var p := FindPairing(profile, sessionId, store.waiting, |store.rooms|);
      if p.Some? && accepted {
        FindPairingShape(profile, sessionId, store.waiting, |store.rooms|);
        store.InsertRoomAndDequeue(p.value.room, {sessionId, p.value.partner.sessionId});
        poll, roomId, status, matched := None, Some(p.value.room.id), Connected, true;
        partnerSession, partnerInfo := Some(p.value.partner.sessionId), Some(PartnerFromEntry(p.value.partner));
      } else {
        matched := false;
      }
    }

    /** `startMatching` up to its first match attempt. Without a session id nothing
        happens. Otherwise the session is reset for a new match (the new profile, the
        matching status, no messages, room, partner or partner-left flag; losing the
        room also drops its channel) and this session's waiting entry is upserted,
        stamped now (`EnqueueReplaces`: it then holds exactly one). The attempt that follows the
        upsert is `TryMatch`, and then `StartPolling`. */
    method StartMatching(profile: UserProfile)
      requires store.Valid()
      modifies this`userProfile, this`status, this`messages, this`channel, this`roomId
      modifies this`partnerSession, this`partnerInfo, this`partnerLeft, store`waiting
      ensures store.Valid()
      ensures sessionId == "" ==> unchanged(this) && unchanged(store)
      ensures sessionId != "" ==>
        && userProfile == Some(profile) && status == Matching && messages == []
        && roomId.None? && partnerSession.None? && partnerInfo.None? && !partnerLeft
        && channel == (if old(roomId).Some? then None else old(channel))
        && store.waiting == Enqueue(old(store.waiting), WaitingEntry(sessionId, profile.name, profile.location,
                                    Some(profile.gender), Some(profile.lookingFor), store.clock))
    {
      if sessionId == "" { return; }
      userProfile := Some(profile);
      status := Matching;
      messages := [];
      if roomId.Some? { channel := None; }  // the room effect's cleanup, as roomId becomes null
      roomId := None;
      partnerSession := None;
      partnerInfo := None;
      partnerLeft := false;
      var entry := WaitingEntry(sessionId, profile.name, profile.location,
                                Some(profile.gender), Some(profile.lookingFor), store.clock);
      store.UpsertWaiting(entry);
    }

    /** The end of `startMatching`: when the first attempt found nobody, start the
        poll with the profile it was given. */
    method StartPolling(profile: UserProfile, matched: bool)
      modifies this`poll
      ensures poll == if matched then old(poll) else Some(profile)
    {
      if !matched {
        poll := Some(profile);
      }
    }

    /** One tick of the 2-second poll. If an active room already names this session
        (someone matched with it), take the other participant as partner, with the
        details of its presence record, delete only this session's waiting entry,
        stop polling and connect. Otherwise run `tryMatch` again with the captured profile. */
    method PollTick(accepted: bool)
      requires store.Valid() && poll.Some?
      modifies this`status, this`roomId, this`partnerSession, this`partnerInfo, this`poll
      modifies store`waiting, store`rooms
      ensures store.Valid() && RoomsFollow(old(store.rooms), store.rooms)
      ensures var found := ActiveRoomFor(old(store.rooms), sessionId);
        if found.Some? then
          var room := old(store.rooms)[found.value];
          var partner := OtherParticipant(room, sessionId);
          && store.rooms == old(store.rooms)
          && store.waiting == Drop(old(store.waiting), {sessionId})
          && status == Connected && poll.None? && roomId == Some(room.id)
          && partnerSession == Some(partner)
          && partnerInfo == Some(PartnerFromPresence(PresenceOf(store.online, partner)))
        else
          exists matched :: TriedMatch(old(poll).value, accepted, matched)
    {
      var found := ActiveRoomFor(store.rooms, sessionId);
      if found.Some? {
        var room := store.rooms[found.value];
        var partner := OtherParticipant(room, sessionId);
        var record := PresenceOf(store.online, partner);
        store.DeleteWaiting({sessionId});
        poll := None;
        roomId := Some(room.id);
        partnerSession := Some(partner);
        partnerInfo := Some(PartnerFromPresence(record));
        status := Connected;
      } else {
        var matched := TryMatch(poll.value, accepted);
      }
    }

    /** The room effect: with a room and a session id, load the room's history and
        subscribe to its change streams. */
    method OpenRoom()
      modifies this`messages, this`channel
      ensures roomId.None? || sessionId == "" ==> unchanged(this)
      ensures roomId.Some? && sessionId != "" ==>
        messages == History(store.messages, roomId.value, sessionId) && channel == roomId
    {
      if roomId.None? || sessionId == "" { return; }
      messages := History(store.messages, roomId.value, sessionId);
      channel := roomId;
    }

    /** Relay of an inserted message: appended at the end, in arrival order, only when it
        belongs to the subscribed room and was sent by the partner (own messages were
        already listed when sent). */
    method OnMessageInserted(row: StoredMessage)
      modifies this`messages
      ensures messages == if channel == Some(row.roomId) && row.sender != sessionId
                          then old(messages) + [ChatMessage(row.id, row.content, false, row.createdAt)]
                          else old(messages)
    {
      if channel == Some(row.roomId) && row.sender != sessionId {
        messages := messages + [ChatMessage(row.id, row.content, false, row.createdAt)];
      }
    }

    /** Relay of a room update: the subscribed room becoming inactive means the partner left. */
    method OnRoomUpdated(row: Room)
      modifies this`partnerLeft, this`status
      ensures if channel == Some(row.id) && !row.isActive
              then partnerLeft && status == Disconnected
              else unchanged(this)
    {
      if channel == Some(row.id) && !row.isActive {
        partnerLeft := true;
        status := Disconnected;
      }
    }

    /** Relay of a typing change: only the partner's rows of the subscribed room count. */
    method OnTypingChanged(row: TypingRow)
      modifies this`isPartnerTyping
      ensures isPartnerTyping == if channel == Some(row.roomId) && row.sessionId != sessionId
                                 then row.isTyping else old(isPartnerTyping)
    {
      if channel == Some(row.roomId) && row.sessionId != sessionId {
        isPartnerTyping := row.isTyping;
      }
    }

    /** `sendMessage`: without a room or a session id, or when the text trims to empty,
        nothing happens. Otherwise the trimmed text is stored (when the insert is
        `accepted`) and listed once at the end as this session's own, and this
        session's typing row is upserted to false. */
    method SendMessage(content: string, accepted: bool)
      requires store.Valid()
      modifies this`messages, store`messages, store`typing
      ensures store.Valid()
      ensures roomId.None? || sessionId == "" || Trim(content) == "" ==> unchanged(this) && unchanged(store)
      ensures roomId.Some? && sessionId != "" && Trim(content) != "" ==>
        var id := |old(store.messages)|;
        var text := Trim(content);
        && store.messages == old(store.messages) +
             (if accepted then [StoredMessage(id, roomId.value, sessionId, text, store.clock)] else [])
        && messages == old(messages) + (if accepted then [ChatMessage(id, text, true, store.clock)] else [])
        && store.typing == old(store.typing)[(roomId.value, sessionId) :=
                                             TypingRow(roomId.value, sessionId, false, store.clock)]
    {
      if roomId.None? || sessionId == "" || Trim(content) == "" { return; }
      var room := roomId.value;
      var text := Trim(content);
      if accepted {
        var id := store.InsertMessage(room, sessionId, text);
        messages := messages + [ChatMessage(id, text, true, store.clock)];
      }
      store.UpsertTyping(room, sessionId, false);
    }

    /** `setTyping`: upsert this session's typing row; without a room or a session id, nothing. */
    method SetTyping(isTyping: bool)
      requires store.Valid()
      modifies store`typing
      ensures store.Valid()
      ensures store.typing == if roomId.None? || sessionId == "" then old(store.typing)
                              else old(store.typing)[(roomId.value, sessionId) :=
                                                     TypingRow(roomId.value, sessionId, isTyping, store.clock)]
    {
      if roomId.None? || sessionId == "" { return; }
      var room := roomId.value;
      store.UpsertTyping(room, sessionId, isTyping);
    }

    /** What `disconnect` leaves: channel and poll gone, this session out of the
        queue, the room ended, the status disconnected and no room or partner session. */
    twostate predicate TornDown()
      reads this, store
    {
      channel.None? && poll.None? && status == Disconnected && roomId.None? && partnerSession.None? &&
      store.waiting == (if sessionId == "" then old(store.waiting) else Drop(old(store.waiting), {sessionId})) &&
      store.rooms == (if old(roomId).None? then old(store.rooms)
                      else EndRoomRow(old(store.rooms), old(roomId).value, store.clock))
    }

    /** `disconnect`: clean up, leave the queue, end the room, and become disconnected. */
    method Disconnect()
      requires store.Valid()
      modifies this`channel, this`poll, this`status, this`roomId, this`partnerSession
      modifies store`waiting, store`rooms
      ensures store.Valid() && RoomsFollow(old(store.rooms), store.rooms)
      ensures TornDown()
    {
      Cleanup();
      LeaveQueue();
      EndRoom();
      status := Disconnected;
      roomId := None;
      partnerSession := None;
    }

    /** `findNew`: clean up, end the room, clear messages, partner and profile, and
        go back to the profile form. It neither leaves the queue nor forgets the room id. */
    method FindNew()
      requires store.Valid()
      modifies this`channel, this`poll, this`messages, this`partnerLeft, this`partnerInfo
      modifies this`userProfile, this`status, store`rooms
      ensures store.Valid() && RoomsFollow(old(store.rooms), store.rooms)
      ensures channel.None? && poll.None? && messages == [] && !partnerLeft && partnerInfo.None?
      ensures userProfile.None? && status == Profile
      ensures store.rooms == if roomId.None? then old(store.rooms)
                             else EndRoomRow(old(store.rooms), roomId.value, store.clock)
    {
      Cleanup();
      EndRoom();
      messages := [];
      partnerLeft := false;
      partnerInfo := None;
      userProfile := None;
      status := Profile;
    }

    /** `reportUser`: unless room, partner and session id are all known, nothing.
        Otherwise insert one report naming this session as reporter and the partner
        as reported, then disconnect. */
    method ReportUser(reason: Option<string>)
      requires store.Valid()
      modifies this`channel, this`poll, this`status, this`roomId, this`partnerSession
      modifies store`waiting, store`rooms, store`reports
      ensures store.Valid() && RoomsFollow(old(store.rooms), store.rooms)
      ensures old(roomId).None? || !Known(old(partnerSession)) || sessionId == "" ==>
        unchanged(this) && unchanged(store)
      ensures old(roomId).Some? && Known(old(partnerSession)) && sessionId != "" ==>
        && store.reports == old(store.reports) +
             [Report(old(roomId).value, sessionId, old(partnerSession).value, reason)]
        && TornDown()
    {
      if roomId.None? || !Known(partnerSession) || sessionId == "" { return; }
      store.InsertReport(Report(roomId.value, sessionId, partnerSession.value, reason));
      Disconnect();
    }
  }
}
