/**
 * API authentication: keys stored under their hash, per-key verification with usage
 * accounting, revocation, permissions, and a sliding one-hour rate limit.
 *
 * The hash (SHA-256 in the system) and the clock are parameters: the manager is built
 * with a hash function, and every operation that reads the time takes `now`.
 */
module Auth {
  import opened Wrappers
  import opened Lists

  datatype ApiKey = ApiKey(keyHash: string, name: string, createdAt: real, lastUsed: real, usageCount: nat,
                           rateLimit: int, isActive: bool, permissions: seq<string>)

  /** Request times kept for a key, the limit captured for it, and the window in seconds. */
  datatype RateLimitInfo = RateLimitInfo(requests: seq<real>, limit: int, window: int)

  const DefaultPermissions: seq<string> := ["read", "write"]

  /** The window of a new rate-limit record: one hour. */
  const Window := 3600

  /** The key behind a hash can be used: it exists and is active. */
  predicate Usable(keys: map<string, ApiKey>, h: string)
  {
    h in keys && keys[h].isActive
  }

  /** The key as a successful verification leaves it. */
  function Used(k: ApiKey, now: real): (r: ApiKey)
    ensures r.usageCount == k.usageCount + 1 && r.lastUsed == now
    ensures r.(usageCount := k.usageCount, lastUsed := k.lastUsed) == k
  {
    k.(lastUsed := now, usageCount := k.usageCount + 1)
  }

  /** The keys after `revoke_key`: the key behind the hash, if any, is deactivated. */
  function Revoked(keys: map<string, ApiKey>, h: string): map<string, ApiKey>
  {
    if h in keys then keys[h := keys[h].(isActive := false)] else keys
  }

  /** The key behind the hash holds the permission; whether it is active does not matter. */
  predicate Permitted(keys: map<string, ApiKey>, h: string, permission: string)
  {
    h in keys && permission in keys[h].permissions
  }

  /** A revoked key no longer verifies, and no other key is affected. */
  lemma RevokedNotUsable(keys: map<string, ApiKey>, h: string, other: string)
    ensures !Usable(Revoked(keys, h), h)
    ensures other != h ==> (Usable(Revoked(keys, h), other) <==> Usable(keys, other))
    ensures Revoked(keys, h).Keys == keys.Keys
  {
  }

  /** Revocation leaves every key's permissions as they were: the permission check still passes. */
  lemma PermissionIgnoresRevocation(keys: map<string, ApiKey>, h: string, other: string, permission: string)
    ensures Permitted(Revoked(keys, h), other, permission) <==> Permitted(keys, other, permission)
  {
  }

  /** The request times still inside the window at `now`. */
  function Live(requests: seq<real>, now: real, window: int): (r: seq<real>)
    ensures |r| <= |requests|
    ensures forall i :: 0 <= i < |r| ==> r[i] in requests && now - r[i] < window as real
    ensures forall i :: 0 <= i < |requests| && now - requests[i] < window as real ==> requests[i] in r
  {
    Where(requests, t => now - t < window as real)
  }

  /** A request is admitted when fewer than `limit` requests are live. */
  predicate Admits(info: RateLimitInfo, now: real)
  {
    |Live(info.requests, now, info.window)| < info.limit
  }

  /** The record after `check_rate_limit`: expired times dropped, and `now` added when admitted. */
  function AfterCheck(info: RateLimitInfo, now: real): (r: RateLimitInfo)
    ensures r.limit == info.limit && r.window == info.window
    ensures Admits(info, now) ==> r.requests == Live(info.requests, now, info.window) + [now]
    ensures !Admits(info, now) ==> r.requests == Live(info.requests, now, info.window)
  {
    var live := Live(info.requests, now, info.window);
    info.(requests := if |live| < info.limit then live + [now] else live)
  }

  /** The live count never exceeds the limit (nothing is kept under a limit below one). */
  predicate WithinLimit(info: RateLimitInfo)
  {
    |info.requests| <= info.limit || info.requests == []
  }

  /** A check keeps the record within its limit, and keeps only times inside the window. */
  lemma CheckKeepsLimit(info: RateLimitInfo, now: real)
    requires WithinLimit(info) && info.window > 0
    ensures WithinLimit(AfterCheck(info, now))
    ensures forall t :: t in AfterCheck(info, now).requests ==> now - t < info.window as real
  {
  }

  /** `max(0, limit - live count)`. */
  function Remaining(info: RateLimitInfo, now: real): (r: int)
    ensures r >= 0
    ensures info.limit >= 0 ==> r <= info.limit
    ensures r > 0 <==> Admits(info, now)
  {
    var live := |Live(info.requests, now, info.window)|;
    if info.limit - live > 0 then info.limit - live else 0
  }

  lemma {:induction false} LiveIdempotent(requests: seq<real>, now: real, window: int)
    ensures Live(Live(requests, now, window), now, window) == Live(requests, now, window)
  {
    if requests != [] {
      var init, last := requests[..|requests| - 1], requests[|requests| - 1];
      LiveIdempotent(init, now, window);
      var l := Live(init, now, window);
      assert Live(requests, now, window) == l + (if now - last < window as real then [last] else []);
      assert Live(l, now, window) == l;
      if now - last < window as real {
        assert (l + [last])[..|l|] == l;
        assert Live(l + [last], now, window) == Live(l, now, window) + [last];
        assert Live(requests, now, window) == l + [last];
      } else {
        assert Live(requests, now, window) == l;
      }
    }
  }

  /** Each admitted request uses up exactly one of the remaining requests, as the status reports them. */
  lemma AdmittedUsesOne(info: RateLimitInfo, now: real)
    requires Admits(info, now) && info.window > 0
    ensures Remaining(AfterCheck(info, now), now) == Remaining(info, now) - 1
  {
    var live := Live(info.requests, now, info.window);
    LiveIdempotent(info.requests, now, info.window);
    assert (live + [now])[..|live|] == live;
    assert Live(live + [now], now, info.window) == live + [now];
  }

  /** A refused request changes nothing the status reports. */
  lemma RefusedChangesNothing(info: RateLimitInfo, now: real)
    requires !Admits(info, now)
    ensures Remaining(AfterCheck(info, now), now) == Remaining(info, now) == 0
  {
    LiveIdempotent(info.requests, now, info.window);
  }

  /** The first record for a key: no requests, the key's limit, the one-hour window. */
  function FreshInfo(k: ApiKey): RateLimitInfo
  {
    RateLimitInfo([], k.rateLimit, Window)
  }

  datatype RateStatus = InvalidKey | Status(limit: int, remaining: int, resetAt: real)

  /** What `require_auth` answers: the first failing check, or access. */
  datatype Outcome = KeyRequired | InvalidApiKey | RateLimitExceeded | PermissionDenied(permission: string) | Allowed

  /** The HTTP status of each outcome. */
  function StatusCode(o: Outcome): (code: int)
    ensures o.Allowed? <==> code == 200
  {
    match o
    case KeyRequired => 401
    case InvalidApiKey => 401
    case RateLimitExceeded => 429
    case PermissionDenied(_) => 403
    case Allowed => 200
  }

  class AuthManager {
    const hash: string -> string
    var apiKeys: map<string, ApiKey>
    var rateLimits: map<string, RateLimitInfo>

    /** Every rate-limit record keeps within its limit over a positive window. */
    predicate Valid()
      reads this
    {
      forall h :: h in rateLimits ==> WithinLimit(rateLimits[h]) && rateLimits[h].window > 0
    }

    /** The manager over the keys loaded from storage, with no rate-limit history. */
    constructor (hash: string -> string, stored: map<string, ApiKey>)
      ensures this.hash == hash && apiKeys == stored && rateLimits == map[]
      ensures Valid()
    {
      this.hash := hash;
      apiKeys := stored;
      rateLimits := map[];
    }

    /**
     * `generate_api_key`: stores a new active key under the hash of `rawKey` (the random
     * token) and returns the token.
     */
    method GenerateApiKey(name: string, rateLimit: int, permissions: Option<seq<string>>, rawKey: string, now: real)
      returns (key: string)
      modifies this
      ensures key == rawKey
      ensures apiKeys == old(apiKeys)[hash(rawKey) := ApiKey(hash(rawKey), name, now, 0.0, 0, rateLimit, true,
        if permissions.Some? then permissions.value else DefaultPermissions)]
      ensures rateLimits == old(rateLimits)
    {
      var perms := if permissions.None? then DefaultPermissions else permissions.value;
      var h := hash(rawKey);
      apiKeys := apiKeys[h := ApiKey(h, name, now, 0.0, 0, rateLimit, true, perms)];
      key := rawKey;
    }

    /** `verify_key`: an unknown or inactive key gives nothing; otherwise its use is recorded. */
    method VerifyKey(key: string, now: real) returns (r: Option<ApiKey>)
      modifies this
      ensures r.Some? <==> Usable(old(apiKeys), hash(key))
      ensures r.Some? ==> r.value == Used(old(apiKeys)[hash(key)], now) && apiKeys == old(apiKeys)[hash(key) := r.value]
      ensures r.None? ==> apiKeys == old(apiKeys)
      ensures rateLimits == old(rateLimits)
    {
      var h := hash(key);
      if h !in apiKeys {
        return None;
      }
      var k := apiKeys[h];
      if !k.isActive {
        return None;
      }
      k := k.(lastUsed := now, usageCount := k.usageCount + 1);
      apiKeys := apiKeys[h := k];
      r := Some(k);
    }

    /**
     * `check_rate_limit`: an unknown key is refused. The key's record (created with the
     * key's limit the first time) drops expired times, and the request is admitted and
     * recorded only when fewer than the limit are live.
     */
    method CheckRateLimit(key: string, now: real) returns (ok: bool)
      requires Valid()
      modifies this
      ensures Valid()
      ensures apiKeys == old(apiKeys)
      ensures hash(key) !in apiKeys ==> !ok && rateLimits == old(rateLimits)
      ensures hash(key) in apiKeys ==>
        var info := if hash(key) in old(rateLimits) then old(rateLimits)[hash(key)] else FreshInfo(apiKeys[hash(key)]);
        ok == Admits(info, now) && rateLimits == old(rateLimits)[hash(key) := AfterCheck(info, now)]
    {
      var h := hash(key);
      if h !in apiKeys {
        return false;
      }
      if h !in rateLimits {
        rateLimits := rateLimits[h := RateLimitInfo([], apiKeys[h].rateLimit, Window)];
      }
      var info := rateLimits[h];
      var live := Where(info.requests, t => now - t < info.window as real);
      info := info.(requests := live);
      if |live| >= info.limit {
        rateLimits := rateLimits[h := info];
        CheckKeepsLimit(rateLimits[h], now);
        return false;
      }
      info := info.(requests := live + [now]);
      rateLimits := rateLimits[h := info];
      ok := true;
      assert Valid() by {
        CheckKeepsLimit(old(if h in rateLimits then rateLimits[h] else FreshInfo(apiKeys[h])), now);
      }
    }

    /** `check_permission`. */
    function CheckPermission(key: string, permission: string): (r: bool)
      reads this
      ensures r ==> hash(key) in apiKeys
    {
      Permitted(apiKeys, hash(key), permission)
    }

    /** `revoke_key`. */
    method RevokeKey(key: string)
      modifies this
      ensures apiKeys == Revoked(old(apiKeys), hash(key))
      ensures rateLimits == old(rateLimits)
    {
      var h := hash(key);
      if h in apiKeys {
        apiKeys := apiKeys[h := apiKeys[h].(isActive := false)];
      }
    }

    /**
     * `get_rate_limit_status`: the full limit when the key has no history; otherwise the
     * record drops expired times and the remaining count and reset time are reported.
     */
    method RateLimitStatus(key: string, now: real) returns (status: RateStatus)
      requires Valid()
      modifies this
      ensures Valid()
      ensures apiKeys == old(apiKeys)
      ensures hash(key) !in apiKeys ==> status == InvalidKey && rateLimits == old(rateLimits)
      ensures hash(key) in apiKeys && hash(key) !in old(rateLimits) ==>
        status == Status(apiKeys[hash(key)].rateLimit, apiKeys[hash(key)].rateLimit, now + Window as real)
        && rateLimits == old(rateLimits)
      ensures hash(key) in apiKeys && hash(key) in old(rateLimits) ==>
        var info := old(rateLimits)[hash(key)];
        var live := Live(info.requests, now, info.window);
        status == Status(info.limit, Remaining(info, now), if live != [] then live[0] + info.window as real else now + info.window as real)
        && rateLimits == old(rateLimits)[hash(key) := info.(requests := live)]
    {
      var h := hash(key);
      if h !in apiKeys {
        return InvalidKey;
      }
      if h !in rateLimits {
        return Status(apiKeys[h].rateLimit, apiKeys[h].rateLimit, now + Window as real);
      }
      var info := rateLimits[h];
      var live := Where(info.requests, t => now - t < info.window as real);
      rateLimits := rateLimits[h := info.(requests := live)];
      var remaining := if info.limit - |live| > 0 then info.limit - |live| else 0;
      var resetAt := if live != [] then live[0] + info.window as real else now + info.window as real;
      status := Status(info.limit, remaining, resetAt);
    }

    /**
     * `require_auth`'s wrapper: the key is the `api_key` argument, or `x_api_key` when
     * that is missing or empty. A missing key, then verification, then the rate limit,
     * then the permission refuse in turn. Verification records the use and the rate check
     * takes its slot before the permission is looked at.
     */
    method Authorize(apiKey: Option<string>, xApiKey: Option<string>, permission: string, now: real)
      returns (outcome: Outcome)
      requires Valid()
      modifies this
      ensures Valid()
      ensures Authorized(old(apiKeys), old(rateLimits), PresentedKey(apiKey, xApiKey), permission, now,
                         outcome, apiKeys, rateLimits)
    {
      var key := PresentedKey(apiKey, xApiKey);
      if key.None? || key.value == "" {
        return KeyRequired;
      }
      var verified := VerifyKey(key.value, now);
      if verified.None? {
        return InvalidApiKey;
      }
      var ok := CheckRateLimit(key.value, now);
      if !ok {
        return RateLimitExceeded;
      }
      if !CheckPermission(key.value, permission) {
        return PermissionDenied(permission);
      }
      outcome := Allowed;
    }

    /**
     * The outcome and the new state of `require_auth` for the presented key: nothing
     * changes without a key or with one that does not verify; otherwise the use is
     * recorded and the rate-limit slot taken whatever comes next, and the request is let
     * through exactly when it is admitted and the key holds the permission.
     */
    ghost predicate Authorized(keys: map<string, ApiKey>, limits: map<string, RateLimitInfo>, key: Option<string>,
                               permission: string, now: real, outcome: Outcome,
                               keys': map<string, ApiKey>, limits': map<string, RateLimitInfo>)
    {
      if key.None? || key.value == "" then outcome == KeyRequired && keys' == keys && limits' == limits
      else
        var h := hash(key.value);
        if !Usable(keys, h) then outcome == InvalidApiKey && keys' == keys && limits' == limits
        else
          var info := if h in limits then limits[h] else FreshInfo(keys[h]);
          keys' == keys[h := Used(keys[h], now)] &&
          limits' == limits[h := AfterCheck(info, now)] &&
          outcome == (if !Admits(info, now) then RateLimitExceeded
                      else if !Permitted(keys, h, permission) then PermissionDenied(permission)
                      else Allowed)
    }
  }

  /** Python's `api_key or x_api_key`: the first argument unless it is missing or empty. */
  function PresentedKey(apiKey: Option<string>, xApiKey: Option<string>): (r: Option<string>)
    ensures apiKey.Some? && apiKey.value != "" ==> r == apiKey
    ensures apiKey.None? || apiKey.value == "" ==> r == xApiKey
  {
    if apiKey.Some? && apiKey.value != "" then apiKey else xApiKey
  }

  /**
   * A request is let through exactly when a non-empty key was presented, it verifies,
   * the rate limit admits it and the key holds the permission.
   */
  lemma AllowedExactly(m: AuthManager, keys: map<string, ApiKey>, limits: map<string, RateLimitInfo>,
                       key: Option<string>, permission: string, now: real, outcome: Outcome,
                       keys': map<string, ApiKey>, limits': map<string, RateLimitInfo>)
    requires m.Authorized(keys, limits, key, permission, now, outcome, keys', limits')
    ensures outcome.Allowed? <==>
      key.Some? && key.value != "" && Usable(keys, m.hash(key.value)) &&
      Admits(if m.hash(key.value) in limits then limits[m.hash(key.value)] else FreshInfo(keys[m.hash(key.value)]), now) &&
      Permitted(keys, m.hash(key.value), permission)
    ensures outcome.Allowed? ==> keys'[m.hash(key.value)].usageCount == keys[m.hash(key.value)].usageCount + 1
  {
  }

  /** A freshly generated key verifies, and without explicit permissions it may read and write. */
  lemma GeneratedKeyUsable(keys: map<string, ApiKey>, h: string, name: string, now: real, rateLimit: int)
    ensures var k := keys[h := ApiKey(h, name, now, 0.0, 0, rateLimit, true, DefaultPermissions)];
      Usable(k, h) && Permitted(k, h, "read") && Permitted(k, h, "write") && !Permitted(k, h, "admin")
  {
  }
}
