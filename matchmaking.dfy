/** The pure part of matchmaking: the symmetric preference test, the scan of the
    waiting queue for the first compatible entry, the search for an active room
    that already names a session, and the partner summaries with their defaults. */
module Matchmaking {
  import opened Wrappers
  import opened Domain
  import opened Tables

  /** One side's half of the test: a preference accepts a gender when it is
      "everyone" or names that very gender. */
  predicate Accepts(lookingFor: LookingFor, otherGender: Gender) {
    match lookingFor
    case Everyone => true
    case SeekMale => otherGender == Male
    case SeekFemale => otherGender == Female
  }

  /** `Accepts` is the source's comparison of the stored strings,
      `lookingFor === 'everyone' || lookingFor === otherGender`; in particular
      nobody but "everyone" accepts "other". */
  lemma AcceptsIsStringTest(lookingFor: LookingFor, otherGender: Gender)
    ensures Accepts(lookingFor, otherGender) <==>
      LookingForName(lookingFor) == "everyone" || LookingForName(lookingFor) == GenderName(otherGender)
    ensures otherGender == Other ==> (Accepts(lookingFor, otherGender) <==> lookingFor == Everyone)
  {
    assert "male" != "female" && "male" != "other" && "female" != "other";
    assert "everyone" != "male" && "everyone" != "female" && "everyone" != "other";
  }

  /** `isMatch`: each side's preference accepts the other's gender. */
  predicate IsMatch(userLookingFor: LookingFor, otherGender: Gender,
                    otherLookingFor: LookingFor, myGender: Gender) {
    Accepts(userLookingFor, otherGender) && Accepts(otherLookingFor, myGender)
  }

  /** `isMatch` is true exactly when each side's lookingFor is "everyone" or equals
      the other's gender, compared as the stored strings. */
  lemma IsMatchIsStringTest(userLookingFor: LookingFor, otherGender: Gender,
                            otherLookingFor: LookingFor, myGender: Gender)
    ensures IsMatch(userLookingFor, otherGender, otherLookingFor, myGender) <==>
      (LookingForName(userLookingFor) == "everyone" || LookingForName(userLookingFor) == GenderName(otherGender)) &&
      (LookingForName(otherLookingFor) == "everyone" || LookingForName(otherLookingFor) == GenderName(myGender))
  {
    AcceptsIsStringTest(userLookingFor, otherGender);
    AcceptsIsStringTest(otherLookingFor, myGender);
  }

  /** `isMatch` is symmetric: swapping the two users' (gender, lookingFor) pairs gives the same answer. */
  lemma IsMatchSymmetric(g1: Gender, l1: LookingFor, g2: Gender, l2: LookingFor)
    ensures IsMatch(l1, g2, l2, g1) == IsMatch(l2, g1, l1, g2)
  {
  }

  /** `user.gender || 'other'` */
  function GenderOrDefault(g: Option<Gender>): Gender {
    g.GetOr(Other)
  }

  /** `user.looking_for || 'everyone'` */
  function LookingForOrDefault(l: Option<LookingFor>): LookingFor {
    l.GetOr(Everyone)
  }

  /** The test `tryMatch` applies to one waiting entry, with the defaults for missing columns. */
  predicate Compatible(profile: UserProfile, e: WaitingEntry) {
    IsMatch(profile.lookingFor, GenderOrDefault(e.gender), LookingForOrDefault(e.lookingFor), profile.gender)
  }

  /** A missing gender counts as "other" and a missing preference as "everyone": such an
      entry is compatible exactly with profiles that look for everyone. */
  lemma DefaultsMeaning(profile: UserProfile, e: WaitingEntry)
    requires e.gender.None? && e.lookingFor.None?
    ensures Compatible(profile, e) <==> profile.lookingFor == Everyone
  {
  }

  /** `waitingUsers.find(...)`: the position of the first compatible entry, if any. */
  function FirstCompatible(profile: UserProfile, rows: seq<WaitingEntry>): (r: Option<nat>)
    ensures r.Some? ==> r.value < |rows|
  {
    if rows == [] then None
    else if Compatible(profile, rows[0]) then Some(0)
    else
      match FirstCompatible(profile, rows[1..])
      case None => None
      case Some(k) => Some(k + 1)
  }

  /** The scan finds a compatible entry with no compatible one before it, and finds
      nothing exactly when no entry is compatible. */
  lemma {:induction false} FirstCompatibleIsFirst(profile: UserProfile, rows: seq<WaitingEntry>)
    ensures var r := FirstCompatible(profile, rows);
            (r.Some? ==> r.value < |rows| && Compatible(profile, rows[r.value])) &&
            (r.Some? ==> forall j :: 0 <= j < r.value ==> !Compatible(profile, rows[j])) &&
            (r.None? <==> forall j :: 0 <= j < |rows| ==> !Compatible(profile, rows[j]))
  {
    if rows != [] && !Compatible(profile, rows[0]) {
      FirstCompatibleIsFirst(profile, rows[1..]);
      assert forall j :: 1 <= j < |rows| ==> rows[j] == rows[1..][j - 1];
    }
  }

  /** The outcome of a successful `tryMatch`: the matched entry, the room inserted
      for the pair, and the queue once both sessions' entries are deleted. */
  datatype Pairing = Pairing(partner: WaitingEntry, room: Room, queue: seq<WaitingEntry>)

  /** The decision `tryMatch` takes for session `self` with `profile`: scan the other
      sessions' entries in queue order for the first compatible one; pair with it
      in a new room numbered `roomCount`, and delete both entries. */
  function FindPairing(profile: UserProfile, self: string, queue: seq<WaitingEntry>, roomCount: nat): Option<Pairing> {
    var others := Drop(queue, {self});
    match FirstCompatible(profile, others)
    case None => None
    case Some(i) =>
      var m := others[i];
      Some(Pairing(m, Room(roomCount, self, m.sessionId, true, None), Drop(queue, {self, m.sessionId})))
  }

  /** `tryMatch` pairs exactly when some other session's entry is compatible. */
  lemma FindPairingExists(profile: UserProfile, self: string, queue: seq<WaitingEntry>, roomCount: nat)
    ensures FindPairing(profile, self, queue, roomCount).None? <==>
            forall e :: e in queue && e.sessionId != self ==> !Compatible(profile, e)
  {
    var others := Drop(queue, {self});
    DropMembers(queue, {self});
    FirstCompatibleIsFirst(profile, others);
    if FirstCompatible(profile, others).None? {
      forall e | e in queue && e.sessionId != self ensures !Compatible(profile, e) {
        assert e in others;
      }
    }
  }

  /** A pairing names a compatible waiting entry of another session; the pair's
      room is the next one, active, with this session as `user1` and the partner as
      `user2`; and the queue loses both sessions' entries. */
  lemma FindPairingShape(profile: UserProfile, self: string, queue: seq<WaitingEntry>, roomCount: nat)
    ensures var r := FindPairing(profile, self, queue, roomCount);
            r.Some? ==>
              r.value.partner in queue && r.value.partner.sessionId != self &&
              Compatible(profile, r.value.partner) &&
              r.value.room == Room(roomCount, self, r.value.partner.sessionId, true, None) &&
              r.value.queue == Drop(queue, {self, r.value.partner.sessionId})
  {
    var others := Drop(queue, {self});
    DropMembers(queue, {self});
    FirstCompatibleIsFirst(profile, others);
  }

  /** The pairing `tryMatch` finds is compatible, and it is an oldest one: no
      compatible entry of another session was enqueued before it. */
  lemma PairingIsOldestCompatible(profile: UserProfile, self: string, queue: seq<WaitingEntry>, roomCount: nat, clock: int)
    requires WaitingTable(queue, clock)
    ensures var r := FindPairing(profile, self, queue, roomCount);
            r.Some? ==>
              Compatible(profile, r.value.partner) &&
              forall e :: e in queue && e.sessionId != self && Compatible(profile, e) ==>
                r.value.partner.createdAt <= e.createdAt
  {
    var others := Drop(queue, {self});
    var pick := FirstCompatible(profile, others);
    DropMembers(queue, {self});
    FirstCompatibleIsFirst(profile, others);
    if pick.Some? {
      DropKeepsTable(queue, {self}, clock);
      WaitingTableMeans(others, clock);
      forall e | e in queue && e.sessionId != self && Compatible(profile, e)
        ensures others[pick.value].createdAt <= e.createdAt
      {
        assert e in others;
        var k :| 0 <= k < |others| && others[k] == e;
        assert pick.value <= k;
        if pick.value < k {
          assert others[pick.value].createdAt <= others[k].createdAt;
        }
      }
    }
  }

  /** After a pairing, neither of the two sessions has a waiting entry, every
      other session keeps its entries, and the queue stays keyed and ordered. */
  lemma PairingEmptiesBoth(profile: UserProfile, self: string, queue: seq<WaitingEntry>, roomCount: nat, clock: int)
    requires WaitingTable(queue, clock)
    ensures var r := FindPairing(profile, self, queue, roomCount);
            r.Some? ==>
              WaitingTable(r.value.queue, clock) &&
              EntriesOf(r.value.queue, self) == 0 &&
              EntriesOf(r.value.queue, r.value.partner.sessionId) == 0 &&
              forall e :: e in r.value.queue <==>
                e in queue && e.sessionId != self && e.sessionId != r.value.partner.sessionId
  {
    var r := FindPairing(profile, self, queue, roomCount);
    FindPairingShape(profile, self, queue, roomCount);
    if r.Some? {
      var ids := {self, r.value.partner.sessionId};
      DropMembers(queue, ids);
      DropKeepsTable(queue, ids, clock);
      DropRemoves(queue, ids, self);
      DropRemoves(queue, ids, r.value.partner.sessionId);
    }
  }

  /** The session is one of the room's two participants. */
  predicate Names(room: Room, sid: string) {
    room.user1 == sid || room.user2 == sid
  }

  /** The poll's query `eq('is_active', true).or(user1 = self, user2 = self).limit(1)`:
      the first active room that names `sid`, if any. */
  function ActiveRoomFor(rooms: seq<Room>, sid: string): (r: Option<nat>)
    ensures r.Some? ==> r.value < |rooms| && rooms[r.value].isActive && Names(rooms[r.value], sid)
    ensures r.Some? ==> forall j :: 0 <= j < r.value ==> !(rooms[j].isActive && Names(rooms[j], sid))
    ensures r.None? <==> forall j :: 0 <= j < |rooms| ==> !(rooms[j].isActive && Names(rooms[j], sid))
  {
    if rooms == [] then None
    else if rooms[0].isActive && Names(rooms[0], sid) then Some(0)
    else
      match ActiveRoomFor(rooms[1..], sid)
      case None => None
      case Some(k) => Some(k + 1)
  }

  /** `room.user1_session === sessionId ? room.user2_session : room.user1_session`:
      for a room naming `sid`, the participants are `sid` and the result. */
  function OtherParticipant(room: Room, sid: string): (p: string)
    ensures Names(room, sid) ==> {room.user1, room.user2} == {sid, p}
    ensures room.user1 != sid ==> p == room.user1
  {
    if room.user1 == sid then room.user2 else room.user1
  }

  /** `value || fallback` on a string column: an empty or missing value gives the fallback. */
  function OrElse(value: string, fallback: string): (r: string)
    ensures r == value || r == fallback
    ensures fallback != "" ==> r != ""
    ensures value != "" ==> r == value
  {
    if value == "" then fallback else value
  }

  /** The partner summary `tryMatch` builds from the matched waiting entry. */
  function PartnerFromEntry(e: WaitingEntry): (p: PartnerInfo)
    ensures p.name != "" && p.location != ""
    ensures e.name != "" ==> p.name == e.name
    ensures e.location != "" ==> p.location == e.location
    ensures e.gender.Some? ==> p.gender == e.gender.value
    ensures e.name == "" ==> p.name == "Stranger"
    ensures e.location == "" ==> p.location == "Unknown"
    ensures e.gender.None? ==> p.gender == Other
    ensures e.name == "" && e.location == "" && e.gender.None? ==> p == PartnerInfo("Stranger", "Unknown", Other)
  {
    PartnerInfo(OrElse(e.name, "Stranger"), OrElse(e.location, "Unknown"), GenderOrDefault(e.gender))
  }

  /** The partner summary the poll builds from the partner's presence record, when there is one. */
  function PartnerFromPresence(rec: Option<PresenceRecord>): (p: PartnerInfo)
    ensures p.name != "" && p.location != ""
    ensures rec.None? ==> p == PartnerInfo("Stranger", "Unknown", Other)
    ensures rec.Some? && rec.value.name != "" ==> p.name == rec.value.name
    ensures rec.Some? && rec.value.location != "" ==> p.location == rec.value.location
    ensures rec.Some? && rec.value.gender.Some? ==> p.gender == rec.value.gender.value
    ensures rec.Some? && rec.value.name == "" ==> p.name == "Stranger"
    ensures rec.Some? && rec.value.location == "" ==> p.location == "Unknown"
    ensures rec.Some? && rec.value.gender.None? ==> p.gender == Other
  {
    match rec
    case None => PartnerInfo("Stranger", "Unknown", Other)
    case Some(r) => PartnerInfo(OrElse(r.name, "Stranger"), OrElse(r.location, "Unknown"), GenderOrDefault(r.gender))
  }
}
