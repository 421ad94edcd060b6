/** The storage substrate: the six tables the core reads and writes, held in
    memory by one `Store` object that every client shares, with one clock in
    milliseconds standing for `new Date()`. */
module Tables {
  import opened Wrappers
  import opened Domain

  /** A row of `waiting_queue`, keyed by `sessionId`. The nullable `gender` and
      `lookingFor` columns are options. */
  datatype WaitingEntry = WaitingEntry(
    sessionId: string, name: string, location: string,
    gender: Option<Gender>, lookingFor: Option<LookingFor>, createdAt: int)

  /** A row of `chat_rooms`; its id is its position in the table. */
  datatype Room = Room(id: nat, user1: string, user2: string, isActive: bool, endedAt: Option<int>)

  /** A row of `messages`; its id is its position, `createdAt` is stamped by the store. */
  datatype StoredMessage = StoredMessage(id: nat, roomId: nat, sender: string, content: string, createdAt: int)

  /** A row of `typing_status`, keyed by (room, session). */
  datatype TypingRow = TypingRow(roomId: nat, sessionId: string, isTyping: bool, updatedAt: int)

  /** A row of `reports`; the reason is optional. */
  datatype Report = Report(roomId: nat, reporter: string, reported: string, reason: Option<string>)

  /** A row of `online_users`, keyed by `sessionId`. */
  datatype PresenceRecord = PresenceRecord(
    sessionId: string, name: string, location: string,
    gender: Option<Gender>, lookingFor: Option<LookingFor>, lastSeen: int)

  // ---------------------------------------------------------------- waiting_queue

  /** How many entries of `q` belong to `sid`. */
  function EntriesOf(q: seq<WaitingEntry>, sid: string): (n: nat)
    ensures n <= |q|
  {
    if q == [] then 0
    else EntriesOf(q[..|q| - 1], sid) + (if q[|q| - 1].sessionId == sid then 1 else 0)
  }

  /** The queue as the store keeps it, read from the newest entry back: every entry
      is stamped no later than the one after it (the newest no later than `clock`),
      and no older entry shares its session. */
  predicate WaitingTable(q: seq<WaitingEntry>, clock: int) {
    q == [] ||
    (var last := q[|q| - 1];
     last.createdAt <= clock && EntriesOf(q[..|q| - 1], last.sessionId) == 0 &&
     WaitingTable(q[..|q| - 1], last.createdAt))
  }

  /** Entries stand in ascending `created_at` order. */
  predicate OldestFirst(q: seq<WaitingEntry>) {
    forall i, j :: 0 <= i < j < |q| ==> q[i].createdAt <= q[j].createdAt
  }

  /** `session_id` is the key: no two entries share it. */
  predicate DistinctSessions(q: seq<WaitingEntry>) {
    forall i, j :: 0 <= i < j < |q| ==> q[i].sessionId != q[j].sessionId
  }

  /** A session has no entry exactly when no entry carries its id. */
  lemma {:induction false} NoEntries(q: seq<WaitingEntry>, sid: string)
    ensures EntriesOf(q, sid) == 0 <==> forall i :: 0 <= i < |q| ==> q[i].sessionId != sid
  {
    if q != [] {
      var init := q[..|q| - 1];
      NoEntries(init, sid);
      assert forall i :: 0 <= i < |init| ==> init[i] == q[i];
    }
  }

  /** What the stored form means: the queue is in `created_at` order, keyed by
      session, and stamped no later than `clock`; and conversely. */
  lemma {:induction false} WaitingTableMeans(q: seq<WaitingEntry>, clock: int)
    ensures WaitingTable(q, clock) <==>
      OldestFirst(q) && DistinctSessions(q) && forall i :: 0 <= i < |q| ==> q[i].createdAt <= clock
  {
    if q != [] {
      var init, last := q[..|q| - 1], q[|q| - 1];
      WaitingTableMeans(init, last.createdAt);
      NoEntries(init, last.sessionId);
      assert forall i :: 0 <= i < |init| ==> init[i] == q[i];
    }
  }

  /** A later clock keeps the queue well formed. */
  lemma WaitingTableLater(q: seq<WaitingEntry>, clock: int, later: int)
    requires WaitingTable(q, clock) && clock <= later
    ensures WaitingTable(q, later)
  {
  }

  /** `delete().in('session_id', ids)`: the entries whose session is not in `ids`, in their order. */
  function Drop(q: seq<WaitingEntry>, ids: set<string>): seq<WaitingEntry> {
    if q == [] then []
    else
      var init, last := q[..|q| - 1], q[|q| - 1];
      if last.sessionId in ids then Drop(init, ids) else Drop(init, ids) + [last]
  }

  /** A delete keeps exactly the entries of the other sessions. */
  lemma {:induction false} DropMembers(q: seq<WaitingEntry>, ids: set<string>)
    ensures forall e :: e in Drop(q, ids) <==> e in q && e.sessionId !in ids
  {
    if q != [] {
      var init, last := q[..|q| - 1], q[|q| - 1];
      DropMembers(init, ids);
      assert q == init + [last];
    }
  }

  /** After a delete, the deleted sessions have no entry left. */
  lemma {:induction false} DropRemoves(q: seq<WaitingEntry>, ids: set<string>, sid: string)
    requires sid in ids
    ensures EntriesOf(Drop(q, ids), sid) == 0
  {
    if q != [] {
      var init, last := q[..|q| - 1], q[|q| - 1];
      DropRemoves(init, ids, sid);
      var r := Drop(init, ids);
      if last.sessionId !in ids { assert (r + [last])[..|r|] == r; }
    }
  }

  /** A delete leaves every other session's entries as they were. */
  lemma {:induction false} DropKeepsOthers(q: seq<WaitingEntry>, ids: set<string>, sid: string)
    requires sid !in ids
    ensures EntriesOf(Drop(q, ids), sid) == EntriesOf(q, sid)
  {
    if q != [] {
      var init, last := q[..|q| - 1], q[|q| - 1];
      DropKeepsOthers(init, ids, sid);
      var r := Drop(init, ids);
      assert EntriesOf(q, sid) == EntriesOf(init, sid) + (if last.sessionId == sid then 1 else 0);
      if last.sessionId in ids {
        assert Drop(q, ids) == r;
      } else {
        assert Drop(q, ids) == r + [last];
        assert (r + [last])[..|r|] == r;
        assert EntriesOf(r + [last], sid) == EntriesOf(r, sid) + (if last.sessionId == sid then 1 else 0);
      }
    }
  }

  /** A delete keeps the queue keyed and ordered. */
  lemma {:induction false} DropKeepsTable(q: seq<WaitingEntry>, ids: set<string>, clock: int)
    requires WaitingTable(q, clock)
    ensures WaitingTable(Drop(q, ids), clock)
  {
    if q != [] {
      var init, last := q[..|q| - 1], q[|q| - 1];
      DropKeepsTable(init, ids, last.createdAt);
      var r := Drop(init, ids);
      if last.sessionId in ids {
        WaitingTableLater(r, last.createdAt, clock);
      } else {
        DropKeepsOthers(init, ids, last.sessionId);
        assert (r + [last])[..|r|] == r;
      }
    }
  }

  /** `upsert` of one waiting entry: the session's old entry, if any, is replaced. */
  function Enqueue(q: seq<WaitingEntry>, e: WaitingEntry): seq<WaitingEntry> {
    Drop(q, {e.sessionId}) + [e]
  }

  /** After the upsert the queue holds the new entry and every entry of the other sessions, and nothing else. */
  lemma EnqueueMembers(q: seq<WaitingEntry>, e: WaitingEntry)
    ensures forall x :: x in Enqueue(q, e) <==> x == e || (x in q && x.sessionId != e.sessionId)
  {
    DropMembers(q, {e.sessionId});
  }

  /** An entry stamped now keeps the queue keyed and ordered. */
  lemma EnqueueKeepsTable(q: seq<WaitingEntry>, e: WaitingEntry, clock: int)
    requires WaitingTable(q, clock) && e.createdAt == clock
    ensures WaitingTable(Enqueue(q, e), clock)
  {
    var d := Drop(q, {e.sessionId});
    DropKeepsTable(q, {e.sessionId}, clock);
    DropRemoves(q, {e.sessionId}, e.sessionId);
    assert (d + [e])[..|d|] == d;
  }

  /** Re-entering the queue replaces rather than duplicates: after the upsert the
      session has exactly one entry, and every other session as many as before. */
  lemma EnqueueReplaces(q: seq<WaitingEntry>, e: WaitingEntry, sid: string)
    ensures EntriesOf(Enqueue(q, e), e.sessionId) == 1
    ensures sid != e.sessionId ==> EntriesOf(Enqueue(q, e), sid) == EntriesOf(q, sid)
  {
    var d := Drop(q, {e.sessionId});
    assert (d + [e])[..|d|] == d;
    assert Enqueue(q, e) == d + [e];
    DropRemoves(q, {e.sessionId}, e.sessionId);
    assert EntriesOf(d + [e], e.sessionId) == EntriesOf(d, e.sessionId) + 1;
    if sid != e.sessionId {
      DropKeepsOthers(q, {e.sessionId}, sid);
      assert EntriesOf(d + [e], sid) == EntriesOf(d, sid);
    }
  }

  // ---------------------------------------------------------------- chat_rooms

  /** Room ids are positions in the table. */
  predicate RoomTable(rooms: seq<Room>) {
    forall i :: 0 <= i < |rooms| ==> rooms[i].id == i
  }

  /** How the room table may evolve: rooms are only added, their participants never
      change, and a room that is inactive never becomes active again. */
  predicate RoomsFollow(before: seq<Room>, after: seq<Room>) {
    |before| <= |after| &&
    forall i :: 0 <= i < |before| ==>
      after[i].id == before[i].id && after[i].user1 == before[i].user1 &&
      after[i].user2 == before[i].user2 && (!before[i].isActive ==> !after[i].isActive)
  }

  /** `update({ is_active: false, ended_at }).eq('id', id)`: no other row and no other column changes. */
  function EndRoomRow(rooms: seq<Room>, id: nat, at: int): (r: seq<Room>)
    ensures |r| == |rooms| && RoomsFollow(rooms, r)
    ensures id < |rooms| ==> !r[id].isActive && r[id].endedAt == Some(at)
    ensures forall i :: 0 <= i < |rooms| && i != id ==> r[i] == rooms[i]
    ensures RoomTable(rooms) ==> RoomTable(r)
  {
    if id < |rooms| then rooms[id := rooms[id].(isActive := false, endedAt := Some(at))] else rooms
  }

  // ---------------------------------------------------------------- messages

  /** The message table read from the newest row back: each row's id is its
      position, and each is stamped no later than the one after it (the newest no
      later than `clock`). */
  predicate MessageTable(ms: seq<StoredMessage>, clock: int) {
    ms == [] ||
    (var last := ms[|ms| - 1];
     last.id == |ms| - 1 && last.createdAt <= clock && MessageTable(ms[..|ms| - 1], last.createdAt))
  }

  /** In a well-formed table every id is its position and no row is stamped after `clock`. */
  lemma {:induction false} MessageTableMeans(ms: seq<StoredMessage>, clock: int)
    requires MessageTable(ms, clock)
    ensures forall i :: 0 <= i < |ms| ==> ms[i].id == i && ms[i].createdAt <= clock
  {
    if ms != [] {
      var init := ms[..|ms| - 1];
      MessageTableMeans(init, ms[|ms| - 1].createdAt);
      assert forall i :: 0 <= i < |init| ==> init[i] == ms[i];
    }
  }

  /** A row with the next id stamped now keeps the table well formed. */
  lemma MessageTableAppend(ms: seq<StoredMessage>, m: StoredMessage, clock: int)
    requires MessageTable(ms, clock) && m.id == |ms| && m.createdAt == clock
    ensures MessageTable(ms + [m], clock)
  {
    assert (ms + [m])[..|ms|] == ms;
  }

  /** A later clock keeps the table well formed. */
  lemma MessageTableLater(ms: seq<StoredMessage>, clock: int, later: int)
    requires MessageTable(ms, clock) && clock <= later
    ensures MessageTable(ms, later)
  {
  }

  // ---------------------------------------------------------------- online_users

  /** `select(...).eq('session_id', sid).maybeSingle()`: the session's presence record, if any. */
  function PresenceOf(online: map<string, PresenceRecord>, sid: string): Option<PresenceRecord>
  {
    if sid in online then Some(online[sid]) else None
  }

  // ---------------------------------------------------------------- the store

  class Store {
    /** The current time in milliseconds. */
    var clock: int
    var waiting: seq<WaitingEntry>
    var rooms: seq<Room>
    var messages: seq<StoredMessage>
    var typing: map<(nat, string), TypingRow>
    var reports: seq<Report>
    var online: map<string, PresenceRecord>

    /** The tables' keys and orders. */
    ghost predicate Valid()
      reads this
    {
      WaitingTable(waiting, clock) && RoomTable(rooms) && MessageTable(messages, clock)
    }

    /** Empty tables at time `now`. */
    constructor (now: int)
      ensures Valid()
      ensures clock == now && waiting == [] && rooms == [] && messages == []
      ensures typing == map[] && reports == [] && online == map[]
    {
      clock, waiting, rooms, messages := now, [], [], [];
      typing, reports, online := map[], [], map[];
    }

    /** `waiting_queue.upsert(entry)`, the entry stamped now. */
    method UpsertWaiting(e: WaitingEntry)
      requires Valid() && e.createdAt == clock
      modifies this`waiting
      ensures Valid() && waiting == Enqueue(old(waiting), e)
    {
      EnqueueKeepsTable(waiting, e, clock);
      waiting := Enqueue(waiting, e);
    }

    /** `waiting_queue.delete().in('session_id', ids)`. */
    method DeleteWaiting(ids: set<string>)
      requires Valid()
      modifies this`waiting
      ensures Valid() && waiting == Drop(old(waiting), ids)
    {
      DropKeepsTable(waiting, ids, clock);
      waiting := Drop(waiting, ids);
    }

    /** `chat_rooms.insert(room)`: the new room takes the next id. */
    method InsertRoom(room: Room)
      requires Valid() && room.id == |rooms|
      modifies this`rooms
      ensures Valid() && rooms == old(rooms) + [room] && RoomsFollow(old(rooms), rooms)
    {
      rooms := rooms + [room];
    }

    /** The two writes of a successful match: insert the room, then delete the
        listed sessions' waiting entries. */
    method InsertRoomAndDequeue(room: Room, ids: set<string>)
      requires Valid() && room.id == |rooms|
      modifies this`rooms, this`waiting
      ensures Valid() && rooms == old(rooms) + [room] && RoomsFollow(old(rooms), rooms)
      ensures waiting == Drop(old(waiting), ids)
    {
      InsertRoom(room);
      DeleteWaiting(ids);
    }

    /** `chat_rooms.update({ is_active: false, ended_at: now }).eq('id', id)`. */
    method EndRoom(id: nat)
      requires Valid()
      modifies this`rooms
      ensures Valid() && rooms == EndRoomRow(old(rooms), id, clock) && RoomsFollow(old(rooms), rooms)
    {
      rooms := EndRoomRow(rooms, id, clock);
    }

    /** `messages.insert(...)`: the row takes the next id and is stamped now. */
    method InsertMessage(roomId: nat, sender: string, content: string) returns (id: nat)
      requires Valid()
      modifies this`messages
      ensures Valid() && id == |old(messages)|
      ensures messages == old(messages) + [StoredMessage(id, roomId, sender, content, clock)]
    {
      id := |messages|;
      MessageTableAppend(messages, StoredMessage(id, roomId, sender, content, clock), clock);
      messages := messages + [StoredMessage(id, roomId, sender, content, clock)];
    }

    /** `typing_status.upsert(...)`, keyed by (room, session) and stamped now. */
    method UpsertTyping(roomId: nat, sessionId: string, isTyping: bool)
      requires Valid()
      modifies this`typing
      ensures Valid()
      ensures typing == old(typing)[(roomId, sessionId) := TypingRow(roomId, sessionId, isTyping, clock)]
    {
      typing := typing[(roomId, sessionId) := TypingRow(roomId, sessionId, isTyping, clock)];
    }

    /** `reports.insert(report)`. */
    method InsertReport(report: Report)
      requires Valid()
      modifies this`reports
      ensures Valid() && reports == old(reports) + [report]
    {
      reports := reports + [report];
    }

    /** `online_users.upsert(record)`: the session's record replaced or created. */
    method UpsertPresence(r: PresenceRecord)
      requires Valid()
      modifies this`online
      ensures Valid() && online == old(online)[r.sessionId := r]
    {
      online := online[r.sessionId := r];
    }

    /** `online_users.update({ last_seen: now }).eq('session_id', sid)`: an
        update, so a missing record stays missing. */
    method TouchPresence(sid: string)
      requires Valid()
      modifies this`online
      ensures Valid()
      ensures online == if sid in old(online) then old(online)[sid := old(online)[sid].(lastSeen := clock)]
                        else old(online)
    {
      if sid in online {
        online := online[sid := online[sid].(lastSeen := clock)];
      }
    }

    /** `online_users.delete().eq('session_id', sid)`. */
    method DeletePresence(sid: string)
      requires Valid()
      modifies this`online
      ensures Valid() && online == old(online) - {sid}
    {
      online := online - {sid};
    }

    /** Time passes; no table changes. */
    method Tick(ms: nat)
      requires Valid()
      modifies this`clock
      ensures Valid() && clock == old(clock) + ms
    {
      WaitingTableLater(waiting, clock, clock + ms);
      MessageTableLater(messages, clock, clock + ms);
      clock := clock + ms;
    }
  }
}
