/** The presence hook: one client's record in `online_users`, kept alive by a
    heartbeat, and the count of sessions seen within the last two minutes. */
module Presence {
  import opened Wrappers
  import opened Domain
  import opened Tables

  /** A record counts as online for two minutes after it was last seen. */
  const FreshnessWindowMs: int := 2 * 60 * 1000

  /** `gte('last_seen', now - 2 minutes)`: the boundary itself is still online. */
  predicate IsFresh(r: PresenceRecord, now: int)
  {
    r.lastSeen >= now - FreshnessWindowMs
  }

  /** The sessions whose records the count query matches. */
  function FreshSessions(online: map<string, PresenceRecord>, now: int): (s: set<string>)
    ensures s <= online.Keys
  {
    set sid | sid in online && IsFresh(online[sid], now)
  }

  /** The window is inclusive at its far end: a record last seen exactly two
      minutes ago is still counted, one a millisecond older is not, and one seen
      later than now is counted too. */
  lemma FreshnessBoundary(online: map<string, PresenceRecord>, sid: string, now: int)
    requires sid in online
    ensures online[sid].lastSeen == now - 120000 ==> sid in FreshSessions(online, now)
    ensures online[sid].lastSeen == now - 120001 ==> sid !in FreshSessions(online, now)
    ensures online[sid].lastSeen >= now ==> sid in FreshSessions(online, now)
  {
  }

  /** `select('*', { count: 'exact', head: true })` over the fresh records. */
  function OnlineCount(online: map<string, PresenceRecord>, now: int): nat
  {
    |FreshSessions(online, now)|
  }

  /** A subset is no larger than its superset. */
  lemma {:induction false} SubsetNoLarger<T>(a: set<T>, b: set<T>)
    requires a <= b
    ensures |a| <= |b|
    decreases |a|
  {
    if a != {} {
      var x :| x in a;
      SubsetNoLarger(a - {x}, b - {x});
    }
  }

  /** The count never exceeds the number of records. */
  lemma CountBounded(online: map<string, PresenceRecord>, now: int)
    ensures OnlineCount(online, now) <= |online|
  {
    SubsetNoLarger(FreshSessions(online, now), online.Keys);
  }

  /** Writing a record stamped within the window adds its session to the count,
      unless it was already counted; no other session's standing changes. */
  lemma FreshWriteCounts(online: map<string, PresenceRecord>, sid: string, r: PresenceRecord, now: int)
    requires IsFresh(r, now)
    ensures FreshSessions(online[sid := r], now) == FreshSessions(online, now) + {sid}
    ensures OnlineCount(online[sid := r], now) ==
            OnlineCount(online, now) + (if sid in FreshSessions(online, now) then 0 else 1)
  {
    assert FreshSessions(online[sid := r], now) == FreshSessions(online, now) + {sid};
  }

  /** Removing a record takes its session out of the count, if it was counted. */
  lemma RemovalCounts(online: map<string, PresenceRecord>, sid: string, now: int)
    ensures FreshSessions(online - {sid}, now) == FreshSessions(online, now) - {sid}
    ensures OnlineCount(online - {sid}, now) ==
            OnlineCount(online, now) - (if sid in FreshSessions(online, now) then 1 else 0)
  {
    assert FreshSessions(online - {sid}, now) == FreshSessions(online, now) - {sid};
  }

  /** A record last seen three minutes ago is not counted; the heartbeat's
      refresh brings it back. */
  lemma HeartbeatRestores(online: map<string, PresenceRecord>, sid: string, now: int)
    requires sid in online && online[sid].lastSeen == now - 3 * 60 * 1000
    ensures sid !in FreshSessions(online, now)
    ensures OnlineCount(online[sid := online[sid].(lastSeen := now)], now) == OnlineCount(online, now) + 1
  {
    FreshWriteCounts(online, sid, online[sid].(lastSeen := now), now);
  }

  /** The hook's state over the shared store. */
  class Tracker {
    const store: Store
    /** The browser session's id; empty before it has been read. */
    const sessionId: string
    var onlineCount: nat

    constructor (store: Store, sessionId: string)
      ensures this.store == store && this.sessionId == sessionId && onlineCount == 0
    {
      this.store, this.sessionId, onlineCount := store, sessionId, 0;
    }

    /** `registerUser`: upsert this session's record, last seen now. */
    method RegisterUser(name: string, location: string, gender: Gender, lookingFor: LookingFor)
      requires store.Valid()
      modifies store`online
      ensures store.Valid()
      ensures sessionId == "" ==> store.online == old(store.online)
      ensures sessionId != "" ==>
        store.online == old(store.online)[sessionId :=
          PresenceRecord(sessionId, name, location, Some(gender), Some(lookingFor), store.clock)]
    {
      if sessionId == "" { return; }
      store.UpsertPresence(PresenceRecord(sessionId, name, location, Some(gender), Some(lookingFor), store.clock));
    }

    /** `updateOnlineStatus`, the heartbeat: only `lastSeen` of an existing record moves. */
    method UpdateOnlineStatus()
      requires store.Valid()
      modifies store`online
      ensures store.Valid()
      ensures sessionId == "" || sessionId !in old(store.online) ==> store.online == old(store.online)
      ensures sessionId != "" && sessionId in old(store.online) ==>
        store.online == old(store.online)[sessionId := old(store.online)[sessionId].(lastSeen := store.clock)]
    {
      if sessionId == "" { return; }
      store.TouchPresence(sessionId);
    }

    /** `unregisterUser`: this session's record goes; every other stays. */
    method UnregisterUser()
      requires store.Valid()
      modifies store`online
      ensures store.Valid()
      ensures store.online == if sessionId == "" then old(store.online) else old(store.online) - {sessionId}
    {
      if sessionId == "" { return; }
      store.DeletePresence(sessionId);
    }

    /** `fetchOnlineCount`; `answered` is false when the query yields no count,
        which the hook shows as zero. */
    method FetchOnlineCount(answered: bool)
      modifies this`onlineCount
      ensures onlineCount == if answered then OnlineCount(store.online, store.clock) else 0
      ensures onlineCount <= |store.online|
    {
      CountBounded(store.online, store.clock);
      onlineCount := if answered then OnlineCount(store.online, store.clock) else 0;
    }
  }
}
