/** Logins by token, and the cache of answers to commands that were already processed. */
module SessionStores {
  import opened Protocol

  datatype Login = Login(playerId: PlayerId, createdAt: int, lastSeenAt: int, roomId: Option<RoomId>)

  /** What a handler remembers of a command: the event it answered with, or just that it is done. */
  datatype Stored = Reply(event: Event) | Processed

  datatype Cached = Cached(result: Stored, cachedAt: int)

  type Logins = map<SessionToken, Login>

  type Cache = map<CommandId, Cached>

  predicate LoginExpired(login: Login, now: int) {
    now - login.createdAt > SESSION_TTL_MS
  }

  predicate Stale(entry: Cached, now: int) {
    now - entry.cachedAt > COMMAND_DEDUP_TTL_MS
  }

  /** Looking a login up evicts it if it has expired. */
  function LoginsSeen(logins: Logins, token: SessionToken, now: int): Logins {
    if token in logins && LoginExpired(logins[token], now) then logins - {token} else logins
  }

  function CacheSeen(cache: Cache, id: CommandId, now: int): Cache {
    if id in cache && Stale(cache[id], now) then cache - {id} else cache
  }

  function Recording(cache: Cache, id: CommandId, result: Stored, now: int): Cache {
    cache[id := Cached(result, now)]
  }

  function Touched(logins: Logins, token: SessionToken, now: int): Logins {
    if token in logins then logins[token := logins[token].(lastSeenAt := now)] else logins
  }

  function WithRoom(logins: Logins, token: SessionToken, roomId: Option<RoomId>): Logins {
    if token in logins then logins[token := logins[token].(roomId := roomId)] else logins
  }

  predicate HasToken(logins: Logins, token: SessionToken, playerId: PlayerId) {
    token in logins && logins[token].playerId == playerId
  }

  /** Players are generated with their login, so no two logins share one. */
  ghost predicate OneLoginEach(logins: Logins) {
    forall t, u | t in logins && u in logins && logins[t].playerId == logins[u].playerId :: t == u
  }

  /** The player's login, if there is one, forgets its room. */
  function RoomForgotten(logins: Logins, playerId: PlayerId): Logins {
    map t | t in logins ::
      if logins[t].playerId == playerId then logins[t].(roomId := None) else logins[t]
  }

  lemma ForgettingOne(logins: Logins, token: SessionToken, playerId: PlayerId)
    requires OneLoginEach(logins) && HasToken(logins, token, playerId)
    ensures RoomForgotten(logins, playerId) == WithRoom(logins, token, None)
  {
  }

  lemma ForgettingNone(logins: Logins, playerId: PlayerId)
    requires forall t :: !HasToken(logins, t, playerId)
    ensures RoomForgotten(logins, playerId) == logins
  {
    forall t | t in logins ensures logins[t].playerId != playerId {
      assert !HasToken(logins, t, playerId);
    }
  }

  function LoginsPurged(logins: Logins, now: int): Logins {
    map t | t in logins && !LoginExpired(logins[t], now) :: logins[t]
  }

  function CachePurged(cache: Cache, now: int): Cache {
    map id | id in cache && !Stale(cache[id], now) :: cache[id]
  }

  class SessionStore {
    var sessions: Logins
    var dedupCache: Cache

    constructor ()
      ensures sessions == map[] && dedupCache == map[]
    {
      sessions, dedupCache := map[], map[];
    }

    /** Token and player id are generated, never seen before. */
    method CreateSession(token: SessionToken, playerId: PlayerId, now: int) returns (login: Login)
      requires token !in sessions && (forall t :: !HasToken(sessions, t, playerId)) && OneLoginEach(sessions)
      modifies this`sessions
      ensures login == Login(playerId, now, now, None)
      ensures sessions == old(sessions)[token := login] && OneLoginEach(sessions)
    {
      login := Login(playerId, now, now, None);
      assert forall t | t in sessions :: HasToken(sessions, t, sessions[t].playerId);
      sessions := sessions[token := login];
    }

    method GetSession(token: SessionToken, now: int) returns (login: Option<Login>)
      modifies this`sessions
      ensures sessions == LoginsSeen(old(sessions), token, now)
      ensures login == if token in sessions then Some(sessions[token]) else None
    {
      if token !in sessions {
        return None;
      }
      if now - sessions[token].createdAt > SESSION_TTL_MS {
        DeleteSession(token);
        return None;
      }
      return Some(sessions[token]);
    }

    method Touch(token: SessionToken, now: int)
      modifies this`sessions
      ensures sessions == Touched(old(sessions), token, now)
    {
      if token in sessions {
        sessions := sessions[token := sessions[token].(lastSeenAt := now)];
      }
    }

    method SetRoom(token: SessionToken, roomId: Option<RoomId>)
      modifies this`sessions
      ensures sessions == WithRoom(old(sessions), token, roomId)
    {
      if token in sessions {
        sessions := sessions[token := sessions[token].(roomId := roomId)];
      }
    }

    method DeleteSession(token: SessionToken)
      modifies this`sessions
      ensures sessions == old(sessions) - {token}
    {
      sessions := sessions - {token};
    }

    method RecordCommand(id: CommandId, result: Stored, now: int)
      modifies this`dedupCache
      ensures dedupCache == Recording(old(dedupCache), id, result, now)
    {
      dedupCache := dedupCache[id := Cached(result, now)];
    }

    method GetCachedResult(id: CommandId, now: int) returns (result: Option<Stored>)
      modifies this`dedupCache
      ensures dedupCache == CacheSeen(old(dedupCache), id, now)
      ensures result == if id in dedupCache then Some(dedupCache[id].result) else None
    {
      if id !in dedupCache {
        return None;
      }
      if now - dedupCache[id].cachedAt > COMMAND_DEDUP_TTL_MS {
        dedupCache := dedupCache - {id};
        return None;
      }
      return Some(dedupCache[id].result);
    }

    method PurgeExpired(now: int)
      modifies this
      ensures sessions == LoginsPurged(old(sessions), now) && dedupCache == CachePurged(old(dedupCache), now)
    {
      var tokens := sessions.Keys;
      while tokens != {}
        invariant dedupCache == old(dedupCache) && tokens <= sessions.Keys <= old(sessions).Keys
        invariant forall t | t in sessions :: sessions[t] == old(sessions)[t]
        invariant forall t | t in old(sessions) && t !in tokens ::
                    t in sessions <==> !LoginExpired(old(sessions)[t], now)
        decreases |tokens|
      {
        var token :| token in tokens;
        tokens := tokens - {token};
        if now - sessions[token].createdAt > SESSION_TTL_MS {
          DeleteSession(token);
        }
      }
      var ids := dedupCache.Keys;
      while ids != {}
        invariant sessions == LoginsPurged(old(sessions), now)
        invariant ids <= dedupCache.Keys <= old(dedupCache).Keys
        invariant forall i | i in dedupCache :: dedupCache[i] == old(dedupCache)[i]
        invariant forall i | i in old(dedupCache) && i !in ids ::
                    i in dedupCache <==> !Stale(old(dedupCache)[i], now)
        decreases |ids|
      {
        var id :| id in ids;
        ids := ids - {id};
        if now - dedupCache[id].cachedAt > COMMAND_DEDUP_TTL_MS {
          dedupCache := dedupCache - {id};
        }
      }
    }

    method GetTokenByPlayerId(playerId: PlayerId) returns (token: Option<SessionToken>)
      ensures token.Some? ==> HasToken(sessions, token.value, playerId)
      ensures token.None? ==> forall t :: !HasToken(sessions, t, playerId)
    {
      var tokens := sessions.Keys;
      while tokens != {}
        invariant tokens <= sessions.Keys
        invariant forall t | HasToken(sessions, t, playerId) :: t in tokens
        decreases |tokens|
      {
        var t :| t in tokens;
        if sessions[t].playerId == playerId {
          return Some(t);
        }
        tokens := tokens - {t};
      }
      return None;
    }
  }
}
