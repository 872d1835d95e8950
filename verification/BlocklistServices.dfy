/** The Redis-backed blocklist object: an in-place store proved against the pure statements. */
module BlocklistServices {
  import opened Clock
  import opened Blocklist

  class BlocklistService {
    var store: Store

    constructor ()
      ensures store == map[]
    {
      store := map[];
    }

    method BlockToken(jti: string, ttl: int, now: int, redisUp: bool)
      modifies this
      ensures store == Blocklist.BlockToken(old(store), jti, ttl, now, redisUp)
    {
      if ttl <= 0 { return; }
      if redisUp {
        store := store[TokenKey(jti) := Entry(1, now + ttl * SECOND)];
      }
    }

    method RevokeUser(user: nat, at: int, ttl: int, now: int, redisUp: bool)
      modifies this
      ensures store == Blocklist.RevokeUser(old(store), user, at, ttl, now, redisUp)
    {
      if ttl <= 0 { return; }
      if redisUp {
        store := store[EpochKey(user) := Entry(CeilSeconds(at), now + ttl * SECOND)];
      }
    }

    method IsBlocked(jti: string, user: nat, issuedAt: int, now: int, redisUp: bool) returns (blocked: bool)
      ensures blocked == Blocklist.IsBlocked(store, jti, user, issuedAt, now, redisUp)
      ensures blocked <==>
                && redisUp
                && (Live(store, TokenKey(jti), now) ||
                    (Live(store, EpochKey(user), now) && issuedAt < store[EpochKey(user)].value * SECOND))
    {
      if !redisUp { return false; }
      var tokenBlocked, userEpoch := Get(store, TokenKey(jti), now), Get(store, EpochKey(user), now);
      if tokenBlocked.Some? { return true; }
      blocked := userEpoch.Some? && issuedAt < userEpoch.value * SECOND;
    }
  }
}
