/** Instants are integer microseconds; token claims and Redis lifetimes are whole seconds. */
module Clock {
  const SECOND: int := 1_000_000

  /** The JWT library truncates a datetime to whole seconds. */
  function FloorSeconds(at: int): int {
    at / SECOND
  }

  /** `math.ceil(at.timestamp())`. */
  function CeilSeconds(at: int): int {
    (at + SECOND - 1) / SECOND
  }

  function Max(a: int, b: int): int {
    if a < b then b else a
  }

  /** Deployment settings: both lifetimes are positive, the access lifetime in whole seconds. */
  datatype SettingsData = Settings(accessSeconds: int, refreshLifetime: int)

  type Settings = s: SettingsData | 0 < s.accessSeconds && 0 < s.refreshLifetime
    witness Settings(900, 604_800_000_000)

  /** The Redis lifetime given to a user epoch: `max(1, int(ACCESS_TOKEN_LIFETIME))`. */
  function AccessTtl(cfg: Settings): int {
    Max(1, cfg.accessSeconds)
  }

  /**
   * Rounding is sound and tight.  With `iat` rounded down and the stored epoch rounded up, a token
   * issued strictly before a revocation always falls below the epoch, a token issued from the next
   * whole second on never does, and the instants that are blocked too much span less than a second.
   */
  lemma EpochRounding(issued: int, revoked: int)
    ensures issued < revoked ==> FloorSeconds(issued) < CeilSeconds(revoked)
    ensures FloorSeconds(issued) < CeilSeconds(revoked) <==> issued < CeilSeconds(revoked) * SECOND
    ensures 0 <= CeilSeconds(revoked) * SECOND - revoked < SECOND
  {
    // both quotients against their defining bounds
    var f, c := FloorSeconds(issued), CeilSeconds(revoked);
    assert f * SECOND <= issued < f * SECOND + SECOND;
    assert c * SECOND <= revoked + SECOND - 1 < c * SECOND + SECOND;
  }
}
