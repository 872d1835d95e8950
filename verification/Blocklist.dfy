/**
 * Access-token revocation: expiring Redis keys, and the set of revocations they stand for.
 *
 * Redis holds one key per revoked token and one overwritten epoch per user.  The ideal store keeps
 * every revocation for ever.  `Complete` and `NoFalseKey` are the two halves of their agreement.
 */
module Blocklist {
  import opened Options
  import opened Clock
  import opened AccessTokens

  datatype Key = TokenKey(jti: string) | EpochKey(user: nat)

  /** A value and the instant at which Redis drops it. */
  datatype Entry = Entry(value: int, deadline: int)

  type Store = map<Key, Entry>

  /** `SET key value EX ttl`, unless Redis fails; failures are swallowed. */
  function Put(store: Store, key: Key, value: int, ttl: int, now: int, redisUp: bool): Store {
    if redisUp then store[key := Entry(value, now + ttl * SECOND)] else store
  }

  function Get(store: Store, key: Key, now: int): Option<int> {
    if key in store && now < store[key].deadline then Some(store[key].value) else None
  }

  /** Redis still holds the key. */
  predicate Live(store: Store, key: Key, now: int) {
    key in store && now < store[key].deadline
  }

  function BlockToken(store: Store, jti: string, ttl: int, now: int, redisUp: bool): Store {
    if ttl <= 0 then store else Put(store, TokenKey(jti), 1, ttl, now, redisUp)
  }

  function RevokeUser(store: Store, user: nat, at: int, ttl: int, now: int, redisUp: bool): Store {
    if ttl <= 0 then store else Put(store, EpochKey(user), CeilSeconds(at), ttl, now, redisUp)
  }

  /** Both keys are read at one instant; a failed read lets the request through. */
  function IsBlocked(store: Store, jti: string, user: nat, issuedAt: int, now: int, redisUp: bool): bool {
    redisUp &&
    (Get(store, TokenKey(jti), now).Some? ||
     match Get(store, EpochKey(user), now)
     case None => false
     case Some(epoch) => issuedAt < epoch * SECOND)
  }

  /** The logout handler's lifetime for a token key: whole seconds up to the expiry, never negative. */
  function RemainingTtl(expiresAt: int, now: int): int {
    Max(0, CeilSeconds(expiresAt - now))
  }

  /**
   * What a write leaves: with Redis answering and a positive lifetime the one key, readable for exactly
   * that many seconds, and every other key as it was; otherwise nothing.
   */
  lemma KeysAfterWrite(store: Store, jti: string, user: nat, at: int, ttl: int, now: int, redisUp: bool)
    ensures
      var blocked, revoked :=
        BlockToken(store, jti, ttl, now, redisUp), RevokeUser(store, user, at, ttl, now, redisUp);
      && (!redisUp || ttl <= 0 ==> blocked == store && revoked == store)
      && (forall key :: key != TokenKey(jti) ==>
            (key in blocked <==> key in store) && (key in store ==> blocked[key] == store[key]))
      && (forall key :: key != EpochKey(user) ==>
            (key in revoked <==> key in store) && (key in store ==> revoked[key] == store[key]))
      && (redisUp && 0 < ttl ==>
            && TokenKey(jti) in blocked && blocked[TokenKey(jti)].deadline == now + ttl * SECOND
            && EpochKey(user) in revoked && revoked[EpochKey(user)].deadline == now + ttl * SECOND
            && revoked[EpochKey(user)].value * SECOND - SECOND < at <= revoked[EpochKey(user)].value * SECOND)
  {
  }

  // ---------------------------------------------------------------- the ideal store

  datatype Revocation = TokenRevoked(jti: string) | UserRevoked(user: nat, at: int)

  /** A user revocation stands for every token whose truncated issue time is below the epoch. */
  ghost predicate IdealBlocked(revocations: set<Revocation>, g: Grant) {
    || TokenRevoked(g.jti) in revocations
    || exists at :: UserRevoked(g.user, at) in revocations && FloorSeconds(g.at) < CeilSeconds(at)
  }

  ghost function Expiry(cfg: Settings, g: Grant): int {
    ExpirySeconds(cfg, g) * SECOND
  }

  /** Every key stands for a revocation. */
  ghost predicate NoFalseKey(store: Store, revocations: set<Revocation>) {
    && (forall jti :: TokenKey(jti) in store ==> TokenRevoked(jti) in revocations)
    && (forall user :: EpochKey(user) in store ==>
          exists at :: UserRevoked(user, at) in revocations && store[EpochKey(user)].value == CeilSeconds(at))
  }

  /** Every revocation is held by a key for as long as a token it concerns is unexpired. */
  ghost predicate Complete(cfg: Settings, store: Store, revocations: set<Revocation>, issued: set<Grant>, now: int) {
    && (forall user, at :: UserRevoked(user, at) in revocations ==> Held(cfg, store, user, at))
    && (forall g :: g in issued && TokenRevoked(g.jti) in revocations ==> Sealed(cfg, store, g, now))
  }

  ghost predicate Held(cfg: Settings, store: Store, user: nat, at: int) {
    && EpochKey(user) in store
    && CeilSeconds(at) <= store[EpochKey(user)].value
    && at + cfg.accessSeconds * SECOND <= store[EpochKey(user)].deadline
  }

  ghost predicate Sealed(cfg: Settings, store: Store, g: Grant, now: int) {
    || Expiry(cfg, g) <= now
    || (TokenKey(g.jti) in store && Expiry(cfg, g) <= store[TokenKey(g.jti)].deadline)
  }

  /** The guard's Redis lookup and the ideal store agree on every unexpired token. */
  lemma BlockedAgrees(cfg: Settings, store: Store, revocations: set<Revocation>, issued: set<Grant>, g: Grant, now: int)
    requires NoFalseKey(store, revocations) && Complete(cfg, store, revocations, issued, now)
    requires g in issued && now < Expiry(cfg, g)
    ensures IsBlocked(store, g.jti, g.user, FloorSeconds(g.at) * SECOND, now, true) <==> IdealBlocked(revocations, g)
  {
    if IdealBlocked(revocations, g) && TokenRevoked(g.jti) !in revocations {
      var at :| UserRevoked(g.user, at) in revocations && FloorSeconds(g.at) < CeilSeconds(at);
      assert Held(cfg, store, g.user, at);
    }
  }

  /** Half of the agreement needs no assumption on lost writes or failed reads. */
  lemma BlockedOnlyIfRevoked(store: Store, revocations: set<Revocation>, g: Grant, now: int, redisUp: bool)
    requires NoFalseKey(store, revocations)
    requires IsBlocked(store, g.jti, g.user, FloorSeconds(g.at) * SECOND, now, redisUp)
    ensures IdealBlocked(revocations, g)
  {
  }

  /** A user revocation overwrites an older epoch of the user with one that holds both. */
  lemma RevokeUserAgrees(cfg: Settings, store: Store, revocations: set<Revocation>, issued: set<Grant>,
                         user: nat, at: int, now: int, redisUp: bool)
    requires forall earlier :: UserRevoked(user, earlier) in revocations ==> earlier <= at
    requires at <= now
    ensures
      var after := RevokeUser(store, user, at, AccessTtl(cfg), now, redisUp);
      var all := revocations + {UserRevoked(user, at)};
      && (NoFalseKey(store, revocations) ==> NoFalseKey(after, all))
      && (redisUp && Complete(cfg, store, revocations, issued, now) ==> Complete(cfg, after, all, issued, now))
  {
    var after, all := RevokeUser(store, user, at, AccessTtl(cfg), now, redisUp), revocations + {UserRevoked(user, at)};
    if NoFalseKey(store, revocations) {
      forall u | EpochKey(u) in after
        ensures exists a :: UserRevoked(u, a) in all && after[EpochKey(u)].value == CeilSeconds(a)
      {
        if redisUp && u == user {
          assert UserRevoked(u, at) in all;
        } else {
          var a :| UserRevoked(u, a) in revocations && store[EpochKey(u)].value == CeilSeconds(a);
          assert UserRevoked(u, a) in all;
        }
      }
    }
    if redisUp && Complete(cfg, store, revocations, issued, now) {
      forall u: nat, a | UserRevoked(u, a) in all ensures Held(cfg, after, u, a) {
        assert (u, a) == (user, at) || Held(cfg, store, u, a);
      }
      forall g | g in issued && TokenRevoked(g.jti) in all ensures Sealed(cfg, after, g, now) {
        assert Sealed(cfg, store, g, now);
      }
    }
  }

  /**
   * A logout of token `g`: the lifetime is computed at `asked` and the key is written at `now`.
   */
  lemma BlockTokenAgrees(cfg: Settings, store: Store, revocations: set<Revocation>, issued: set<Grant>,
                         g: Grant, asked: int, now: int, redisUp: bool)
    requires asked <= now
    requires forall h :: h in issued && h.jti == g.jti ==> h == g
    ensures
      var after := BlockToken(store, g.jti, RemainingTtl(Expiry(cfg, g), asked), now, redisUp);
      var all := revocations + {TokenRevoked(g.jti)};
      && (NoFalseKey(store, revocations) ==> NoFalseKey(after, all))
      && (redisUp && Complete(cfg, store, revocations, issued, now) ==> Complete(cfg, after, all, issued, now))
  {
    var after := BlockToken(store, g.jti, RemainingTtl(Expiry(cfg, g), asked), now, redisUp);
    var all := revocations + {TokenRevoked(g.jti)};
    if NoFalseKey(store, revocations) {
      forall u | EpochKey(u) in after
        ensures exists a :: UserRevoked(u, a) in all && after[EpochKey(u)].value == CeilSeconds(a)
      {
        var a :| UserRevoked(u, a) in revocations && store[EpochKey(u)].value == CeilSeconds(a);
        assert UserRevoked(u, a) in all;
      }
    }
    if redisUp && Complete(cfg, store, revocations, issued, now) {
      forall u: nat, a | UserRevoked(u, a) in all ensures Held(cfg, after, u, a) {
        assert Held(cfg, store, u, a);
      }
      forall h | h in issued && TokenRevoked(h.jti) in all ensures Sealed(cfg, after, h, now) {
        if h == g {
          TokenKeyLifetime(Expiry(cfg, g), asked, now);
        } else {
          assert Sealed(cfg, store, h, now);
        }
      }
    }
  }

  /**
   * A token key is written unless the token has expired, lives at least until the expiry, and when
   * it is written at the instant its lifetime was computed it outlives the expiry by under a second.
   */
  lemma TokenKeyLifetime(expiresAt: int, asked: int, now: int)
    requires asked <= now
    ensures RemainingTtl(expiresAt, asked) <= 0 <==> expiresAt <= asked
    ensures asked < expiresAt ==> expiresAt <= now + RemainingTtl(expiresAt, asked) * SECOND
    ensures asked < expiresAt && asked == now ==> now + RemainingTtl(expiresAt, asked) * SECOND < expiresAt + SECOND
  {
  }

  /** Time passing and tokens with fresh ids keep the agreement. */
  lemma CompleteLater(cfg: Settings, store: Store, revocations: set<Revocation>, issued: set<Grant>, more: set<Grant>,
                      now: int, later: int)
    requires Complete(cfg, store, revocations, issued, now) && now <= later
    requires forall g :: g in more && g !in issued ==> TokenRevoked(g.jti) !in revocations
    ensures Complete(cfg, store, revocations, more, later)
  {
    forall g | g in more && TokenRevoked(g.jti) in revocations ensures Sealed(cfg, store, g, later) {
      assert Sealed(cfg, store, g, now);
    }
  }
}
