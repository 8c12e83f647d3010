/**
 * API-key authentication: the cached standard and admin key sets with their
 * five-minute reuse window, the per-key per-minute request counter, and the
 * decision chain every protected endpoint runs before its body. Reading the
 * key secrets and the clock are parameters.
 */
module Auth {
  import opened Wrappers
  import opened Text
  import Config

  /** One entry of a key secret; absent optional fields are None. */
  datatype KeyInfo = KeyInfo(keyValue: string, keyId: Option<string>, active: Option<bool>, expiresAt: Option<string>)

  /** An entry is active unless its `active` field says false; a missing field counts as active. */
  predicate IsActive(k: KeyInfo) {
    k.active.GetOr(true)
  }

  /** The active entries keyed by their key value, a later entry replacing an earlier one with the same value. */
  function ActiveKeys(keys: seq<KeyInfo>): map<string, KeyInfo> {
    if keys == [] then map[]
    else
      var k := keys[|keys| - 1];
      var m := ActiveKeys(keys[..|keys| - 1]);
      if IsActive(k) then m[k.keyValue := k] else m
  }

  /** Exactly the active keys are kept, each under its own value. */
  lemma {:induction false} ActiveKeysMembers(keys: seq<KeyInfo>, v: string)
    ensures v in ActiveKeys(keys) <==> exists i :: 0 <= i < |keys| && keys[i].keyValue == v && IsActive(keys[i])
    ensures v in ActiveKeys(keys) ==>
      ActiveKeys(keys)[v] in keys && ActiveKeys(keys)[v].keyValue == v && IsActive(ActiveKeys(keys)[v])
  {
    if keys != [] {
      var n := |keys| - 1;
      ActiveKeysMembers(keys[..n], v);
      if exists i :: 0 <= i < |keys| && keys[i].keyValue == v && IsActive(keys[i]) {
        var i :| 0 <= i < |keys| && keys[i].keyValue == v && IsActive(keys[i]);
        if i < n {
          assert keys[..n][i] == keys[i];
        }
      }
      if v in ActiveKeys(keys[..n]) {
        assert ActiveKeys(keys[..n])[v] in keys[..n];
      }
    }
  }

  /** A repeated key value keeps its last active entry. */
  lemma {:induction false} ActiveKeysLastWins(keys: seq<KeyInfo>, i: nat)
    requires i < |keys| && IsActive(keys[i])
    requires forall j :: i < j < |keys| ==> !(keys[j].keyValue == keys[i].keyValue && IsActive(keys[j]))
    ensures keys[i].keyValue in ActiveKeys(keys) && ActiveKeys(keys)[keys[i].keyValue] == keys[i]
  {
    var n := |keys| - 1;
    if i < n {
      ActiveKeysLastWins(keys[..n], i);
    }
  }

  /** An inactive entry is never a usable key, whatever else the secret holds. */
  lemma InactiveKeyDropped(keys: seq<KeyInfo>, v: string)
    requires forall i :: 0 <= i < |keys| && keys[i].keyValue == v ==> !IsActive(keys[i])
    ensures v !in ActiveKeys(keys)
  {
    ActiveKeysMembers(keys, v);
  }

  /** The counter of one key: the minute it counts and the requests seen in it. */
  datatype Tracker = Tracker(minute: int, count: nat)

  const CacheTtlSeconds: int := 300

  /** The tracker entry after one request in `minute`: created at count 0, reset in a later minute, then incremented. */
  function Bump(tracker: map<string, Tracker>, keyId: string, minute: int): (t: Tracker)
    ensures keyId !in tracker ==> t == Tracker(minute, 1)
    ensures keyId in tracker && tracker[keyId].minute < minute ==> t == Tracker(minute, 1)
    ensures keyId in tracker && tracker[keyId].minute >= minute ==>
      t == Tracker(tracker[keyId].minute, tracker[keyId].count + 1)
  {
    var t0 := if keyId in tracker then tracker[keyId] else Tracker(minute, 0);
    var t1 := if t0.minute < minute then Tracker(minute, 0) else t0;
    Tracker(t1.minute, t1.count + 1)
  }

  /** `n` requests of one key within one minute, starting from a tracker that has not counted that minute yet. */
  function BumpMany(tracker: map<string, Tracker>, keyId: string, minute: int, n: nat): map<string, Tracker>
  {
    if n == 0 then tracker
    else
      var before := BumpMany(tracker, keyId, minute, n - 1);
      before[keyId := Bump(before, keyId, minute)]
  }

  /** Within one fresh minute the n-th request counts n, so exactly the first 60 pass; other keys are untouched. */
  lemma {:induction false} FirstSixtyPass(tracker: map<string, Tracker>, keyId: string, minute: int, n: nat)
    requires keyId !in tracker || tracker[keyId].minute < minute
    requires n >= 1
    ensures keyId in BumpMany(tracker, keyId, minute, n)
    ensures BumpMany(tracker, keyId, minute, n)[keyId] == Tracker(minute, n)
    ensures BumpMany(tracker, keyId, minute, n)[keyId].count <= Config.RateLimitPerMinute <==> n <= 60
    ensures forall k :: k != keyId ==> (k in BumpMany(tracker, keyId, minute, n) <==> k in tracker)
    ensures forall k :: k != keyId && k in tracker ==> BumpMany(tracker, keyId, minute, n)[k] == tracker[k]
  {
    if n > 1 {
      FirstSixtyPass(tracker, keyId, minute, n - 1);
    }
  }

  /** The details of a rate-limit refusal: the per-minute limit and the window it applies to. */
  datatype RateDetails = RateDetails(rateLimit: nat, window: string)

  /** What the endpoint answers; only the rate-limit refusal carries details. */
  datatype AuthOutcome =
    | Authorized(info: KeyInfo)
    | Rejected(status: nat, errorCode: string, message: string, details: Option<RateDetails>)
    /** A membership test against key sets that were never loaded raises TypeError. */
    | Crashed

  const MissingKey: AuthOutcome := Rejected(401, "INVALID_API_KEY", "API key is missing. Provide X-API-Key header.", None)
  const InvalidKey: AuthOutcome := Rejected(401, "INVALID_API_KEY", "API key is invalid", None)
  const NotAdminKey: AuthOutcome := Rejected(403, "INVALID_ADMIN_KEY", "Admin API key required for this endpoint", None)
  const ExpiredKey: AuthOutcome := Rejected(401, "EXPIRED_API_KEY", "API key has expired", None)
  const RateLimited: AuthOutcome :=
    Rejected(429, "RATE_LIMIT_EXCEEDED", "Too many requests. Please try again later.",
             Some(RateDetails(Config.RateLimitPerMinute, "1 minute")))
  const SystemError: AuthOutcome := Rejected(500, "AUTH_SYSTEM_ERROR", "Authentication system unavailable", None)

  /** A key expires once the current ISO timestamp sorts after its expires_at; no (or empty) expires_at never expires. */
  predicate IsExpired(info: KeyInfo, nowIso: string) {
    info.expiresAt.Some? && info.expiresAt.value != "" && LexLess(info.expiresAt.value, nowIso)
  }

  /** Membership of a key in a key set that may not have been loaded; None where the test would raise. */
  function Member(keys: Option<map<string, KeyInfo>>, apiKey: string): Option<bool> {
    if keys.None? then None else Some(apiKey in keys.value)
  }

  /**
   * The decision chain before the rate limit: the missing header, key resolution (admin set only
   * for admin endpoints, otherwise the standard set first) and expiry. Admit carries the key found.
   */
  datatype Gate = Admit(info: KeyInfo) | Refuse(outcome: AuthOutcome)

  function KeyGate(apiKeys: Option<map<string, KeyInfo>>, adminKeys: Option<map<string, KeyInfo>>,
                   apiKey: string, adminOnly: bool, nowIso: string): (g: Gate)
    ensures apiKey == "" ==> g == Refuse(MissingKey)
    ensures g.Admit? ==> !IsExpired(g.info, nowIso)
    ensures g.Admit? && adminOnly ==> adminKeys.Some? && apiKey in adminKeys.value && g.info == adminKeys.value[apiKey]
    ensures g.Admit? && !adminOnly ==>
      (apiKeys.Some? && apiKey in apiKeys.value && g.info == apiKeys.value[apiKey])
      || (apiKeys.Some? && apiKey !in apiKeys.value && adminKeys.Some? && apiKey in adminKeys.value
          && g.info == adminKeys.value[apiKey])
    ensures apiKey != "" && adminOnly && adminKeys.Some? && apiKey !in adminKeys.value ==> g == Refuse(NotAdminKey)
    ensures (apiKey != "" && !adminOnly && apiKeys.Some? && adminKeys.Some?
             && apiKey !in apiKeys.value && apiKey !in adminKeys.value) ==> g == Refuse(InvalidKey)
    ensures apiKey != "" && adminOnly && adminKeys.Some? && apiKey in adminKeys.value ==>
      g == (if IsExpired(adminKeys.value[apiKey], nowIso) then Refuse(ExpiredKey) else Admit(adminKeys.value[apiKey]))
    ensures apiKey != "" && !adminOnly && apiKeys.Some? && apiKey in apiKeys.value ==>
      g == (if IsExpired(apiKeys.value[apiKey], nowIso) then Refuse(ExpiredKey) else Admit(apiKeys.value[apiKey]))
    ensures apiKey != "" && !adminOnly && apiKeys.Some? && apiKey !in apiKeys.value
            && adminKeys.Some? && apiKey in adminKeys.value ==>
      g == (if IsExpired(adminKeys.value[apiKey], nowIso) then Refuse(ExpiredKey) else Admit(adminKeys.value[apiKey]))
    ensures apiKey != "" && (if adminOnly then adminKeys.None?
                             else apiKeys.None? || (apiKey !in apiKeys.value && adminKeys.None?)) ==>
      g == Refuse(Crashed)
  {
    if apiKey == "" then Refuse(MissingKey)
    else
      var found :=
        if adminOnly then
          match Member(adminKeys, apiKey)
          case None => Refuse(Crashed)
          case Some(false) => Refuse(NotAdminKey)
          case Some(true) => Admit(adminKeys.value[apiKey])
        else
          match Member(apiKeys, apiKey)
          case None => Refuse(Crashed)
          case Some(true) => Admit(apiKeys.value[apiKey])
          case Some(false) =>
            match Member(adminKeys, apiKey)
            case None => Refuse(Crashed)
            case Some(false) => Refuse(InvalidKey)
            case Some(true) => Admit(adminKeys.value[apiKey]);
      if found.Admit? && IsExpired(found.info, nowIso) then Refuse(ExpiredKey) else found
  }

  /** A key that is in both sets resolves to its standard entry on standard endpoints. */
  lemma StandardSetFirst(apiKeys: map<string, KeyInfo>, adminKeys: map<string, KeyInfo>, apiKey: string, nowIso: string)
    requires apiKey != "" && apiKey in apiKeys && apiKey in adminKeys
    requires !IsExpired(apiKeys[apiKey], nowIso)
    ensures KeyGate(Some(apiKeys), Some(adminKeys), apiKey, false, nowIso) == Admit(apiKeys[apiKey])
  {
  }

  /** An active, unexpired entry of the standard secret, the last active one with its value, is
      admitted on standard endpoints once the secrets are loaded. */
  lemma ActiveStandardKeyAdmitted(standard: seq<KeyInfo>, admin: seq<KeyInfo>, i: nat, nowIso: string)
    requires i < |standard| && IsActive(standard[i]) && standard[i].keyValue != ""
    requires forall j :: i < j < |standard| ==> !(standard[j].keyValue == standard[i].keyValue && IsActive(standard[j]))
    requires !IsExpired(standard[i], nowIso)
    ensures KeyGate(Some(ActiveKeys(standard)), Some(ActiveKeys(admin)), standard[i].keyValue, false, nowIso) == Admit(standard[i])
  {
    ActiveKeysLastWins(standard, i);
  }

  /** An active, unexpired entry of the admin secret, the last active one with its value, is
      admitted on admin endpoints, and on standard endpoints when the standard secret has no
      active entry with that value. */
  lemma ActiveAdminKeyAdmitted(standard: seq<KeyInfo>, admin: seq<KeyInfo>, i: nat, nowIso: string)
    requires i < |admin| && IsActive(admin[i]) && admin[i].keyValue != ""
    requires forall j :: i < j < |admin| ==> !(admin[j].keyValue == admin[i].keyValue && IsActive(admin[j]))
    requires !IsExpired(admin[i], nowIso)
    ensures KeyGate(Some(ActiveKeys(standard)), Some(ActiveKeys(admin)), admin[i].keyValue, true, nowIso) == Admit(admin[i])
    ensures (forall j :: 0 <= j < |standard| && standard[j].keyValue == admin[i].keyValue ==> !IsActive(standard[j])) ==>
      KeyGate(Some(ActiveKeys(standard)), Some(ActiveKeys(admin)), admin[i].keyValue, false, nowIso) == Admit(admin[i])
  {
    ActiveKeysLastWins(admin, i);
    ActiveKeysMembers(standard, admin[i].keyValue);
  }

  /** A loaded key whose expires_at sorts before the current timestamp is refused as expired,
      however it was found. */
  lemma ExpiredKeyRefused(apiKeys: map<string, KeyInfo>, adminKeys: map<string, KeyInfo>, apiKey: string,
                          adminOnly: bool, nowIso: string)
    requires apiKey != ""
    requires apiKey in apiKeys ==> IsExpired(apiKeys[apiKey], nowIso)
    requires apiKey in adminKeys ==> IsExpired(adminKeys[apiKey], nowIso)
    requires if adminOnly then apiKey in adminKeys else apiKey in apiKeys || apiKey in adminKeys
    ensures KeyGate(Some(apiKeys), Some(adminKeys), apiKey, adminOnly, nowIso) == Refuse(ExpiredKey)
  {
  }

  /** A key without expires_at never expires. */
  lemma NoExpiryNeverExpires(info: KeyInfo, nowIso: string)
    requires info.expiresAt.None?
    ensures !IsExpired(info, nowIso)
  {
  }

  /** A key expiring exactly now is still valid: only a strictly later timestamp expires it. */
  lemma ExpiryIsStrict(info: KeyInfo)
    requires info.expiresAt.Some?
    ensures !IsExpired(info, info.expiresAt.value)
  {
    LexLessIrreflexive(info.expiresAt.value);
  }

  class Authenticator {
    var apiKeys: Option<map<string, KeyInfo>>
    var adminKeys: Option<map<string, KeyInfo>>
    var cacheTimestamp: int
    var rateTracker: map<string, Tracker>

    constructor ()
      ensures apiKeys == None && adminKeys == None && cacheTimestamp == 0 && rateTracker == map[]
    {
      apiKeys := None;
      adminKeys := None;
      cacheTimestamp := 0;
      rateTracker := map[];
    }

    /** The cached keys are reused while the standard set is non-empty and less than five minutes old. */
    predicate CacheFresh(now: int)
      reads this
    {
      apiKeys.Some? && |apiKeys.value| > 0 && now - cacheTimestamp < CacheTtlSeconds
    }

    /**
     * _load_api_keys. `standard` and `admin` are what reading and parsing each secret would give.
     * A failure leaves what was already replaced replaced; `ok` is false when it raised.
     */
    method LoadApiKeys(now: int, standard: Result<seq<KeyInfo>, string>, admin: Result<seq<KeyInfo>, string>)
      returns (ok: bool)
      modifies this
      ensures rateTracker == old(rateTracker)
      ensures old(CacheFresh(now)) ==>
        ok && apiKeys == old(apiKeys) && adminKeys == old(adminKeys) && cacheTimestamp == old(cacheTimestamp)
      ensures !old(CacheFresh(now)) && standard.Failure? ==>
        !ok && apiKeys == old(apiKeys) && adminKeys == old(adminKeys) && cacheTimestamp == old(cacheTimestamp)
      ensures !old(CacheFresh(now)) && standard.Success? && admin.Failure? ==>
        !ok && apiKeys == Some(ActiveKeys(standard.value)) && adminKeys == old(adminKeys)
        && cacheTimestamp == old(cacheTimestamp)
      ensures !old(CacheFresh(now)) && standard.Success? && admin.Success? ==>
        ok && apiKeys == Some(ActiveKeys(standard.value)) && adminKeys == Some(ActiveKeys(admin.value))
        && cacheTimestamp == now
    {
      if CacheFresh(now) {
        return true;
      }
      if standard.Failure? {
        return false;
      }
      apiKeys := Some(ActiveKeys(standard.value));
      if admin.Failure? {
        return false;
      }
      adminKeys := Some(ActiveKeys(admin.value));
      cacheTimestamp := now;
      return true;
    }

    /** _check_rate_limit at time `now` (seconds): only the caller's own entry changes. */
    method CheckRateLimit(keyId: string, now: nat) returns (allowed: bool)
      modifies this
      ensures rateTracker == old(rateTracker)[keyId := Bump(old(rateTracker), keyId, now / 60)]
      ensures allowed <==> rateTracker[keyId].count <= Config.RateLimitPerMinute
      ensures apiKeys == old(apiKeys) && adminKeys == old(adminKeys) && cacheTimestamp == old(cacheTimestamp)
    {
      var currentMinute := now / 60;
      if keyId !in rateTracker {
        rateTracker := rateTracker[keyId := Tracker(currentMinute, 0)];
      }
      var tracker := rateTracker[keyId];
      if tracker.minute < currentMinute {
        tracker := Tracker(currentMinute, 0);
      }
      tracker := tracker.(count := tracker.count + 1);
      rateTracker := rateTracker[keyId := tracker];
      allowed := tracker.count <= Config.RateLimitPerMinute;
    }

    /**
     * The decorator's checks for one request carrying header value `apiKey` ("" when absent).
     * The rate counter moves only for a key that was found and has not expired.
     */
    method RequireApiKey(apiKey: string, adminOnly: bool, now: nat, nowIso: string,
                         standard: Result<seq<KeyInfo>, string>, admin: Result<seq<KeyInfo>, string>)
      returns (r: AuthOutcome)
      modifies this
      ensures old(CacheFresh(now)) ==>
        apiKeys == old(apiKeys) && adminKeys == old(adminKeys) && cacheTimestamp == old(cacheTimestamp)
      ensures !old(CacheFresh(now)) && standard.Failure? ==>
        apiKeys == old(apiKeys) && adminKeys == old(adminKeys) && cacheTimestamp == old(cacheTimestamp)
      ensures !old(CacheFresh(now)) && standard.Success? && admin.Failure? ==>
        apiKeys == Some(ActiveKeys(standard.value)) && adminKeys == old(adminKeys) && cacheTimestamp == old(cacheTimestamp)
      ensures !old(CacheFresh(now)) && standard.Success? && admin.Success? ==>
        apiKeys == Some(ActiveKeys(standard.value)) && adminKeys == Some(ActiveKeys(admin.value)) && cacheTimestamp == now
      ensures var loaded := old(CacheFresh(now)) || (standard.Success? && admin.Success?);
        (!loaded ==> r == SystemError && rateTracker == old(rateTracker))
        && (loaded && KeyGate(apiKeys, adminKeys, apiKey, adminOnly, nowIso).Refuse? ==>
              r == KeyGate(apiKeys, adminKeys, apiKey, adminOnly, nowIso).outcome && rateTracker == old(rateTracker))
        && (loaded && KeyGate(apiKeys, adminKeys, apiKey, adminOnly, nowIso).Admit? ==>
              var info := KeyGate(apiKeys, adminKeys, apiKey, adminOnly, nowIso).info;
              var id := info.keyId.GetOr("unknown");
              rateTracker == old(rateTracker)[id := Bump(old(rateTracker), id, now / 60)]
              && (r == Authorized(info) <==> rateTracker[id].count <= Config.RateLimitPerMinute)
              && (r != Authorized(info) ==> r == RateLimited))
    {
      var ok := LoadApiKeys(now, standard, admin);
      if !ok {
        return SystemError;
      }
      var gate := KeyGate(apiKeys, adminKeys, apiKey, adminOnly, nowIso);
      if gate.Refuse? {
        return gate.outcome;
      }
      var id := gate.info.keyId.GetOr("unknown");
      var allowed := CheckRateLimit(id, now);
      if !allowed {
        return RateLimited;
      }
      return Authorized(gate.info);
    }
  }
}
