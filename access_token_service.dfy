/**
 * The token service: an expiring key-value cache in front of a durable
 * token table. Store faults (a broken connection, a failed insert) are
 * inputs of the operations, since the stores themselves are not modelled.
 */
module AccessTokenService {
  import opened Wrappers
  import opened GoBase
  import opened Entity

  /** The cache key under which a bank's token is saved and looked up. */
  function CacheKey(bank: string): (key: string)
    ensures key == bank + ":access_token"
    ensures |key| == |bank| + 13 && key[..|bank|] == bank
  {
    bank + ":access_token"
  }

  /** Distinct banks never share a cache key. */
  lemma CacheKeyInjective(a: string, b: string)
    requires CacheKey(a) == CacheKey(b)
    ensures a == b
  {
    assert a == CacheKey(a)[..|a|] && b == CacheKey(b)[..|b|];
  }

  /** The cache lifetime for a token lifetime: max(expiresIn, 30) - 30 seconds. */
  function TtlSeconds(expiresIn: int16): (ttl: int)
    ensures 0 <= ttl <= 32737
    ensures ttl == 0 <==> expiresIn <= 30
    ensures expiresIn > 30 ==> ttl == expiresIn as int - 30
  {
    var clamped := if expiresIn <= 30 then 30 else expiresIn;
    (clamped - 30) as int
  }

  /** A cached value, its time to live and the moment it was set (Unix seconds). */
  datatype CacheEntry = CacheEntry(value: string, ttl: int, setAt: int)
  {
    predicate LiveAt(now: int)
    {
      now < setAt + ttl
    }
  }

  /** A token is valid at `now` when it expires strictly later. */
  predicate ValidAt(t: AccessToken, now: int)
  {
    t.expiresDate > now
  }

  /**
   * The row `expires_date > now ORDER BY expires_date DESC LIMIT 1` selects:
   * a valid token expiring no earlier than any other valid one. Among rows
   * with the same date the earliest inserted is taken.
   */
  function LatestValid(tokens: seq<AccessToken>, now: int): (r: Option<AccessToken>)
    ensures r.None? <==> forall i :: 0 <= i < |tokens| ==> !ValidAt(tokens[i], now)
    ensures r.Some? ==> r.value in tokens && ValidAt(r.value, now)
    ensures r.Some? ==> forall i :: 0 <= i < |tokens| && ValidAt(tokens[i], now) ==> tokens[i].expiresDate <= r.value.expiresDate
    ensures r.Some? ==>
              exists i :: 0 <= i < |tokens| && tokens[i] == r.value
                          && forall j :: 0 <= j < i && ValidAt(tokens[j], now) ==> tokens[j].expiresDate < r.value.expiresDate
  {
    if tokens == [] then None
    else
      var rest := LatestValid(tokens[..|tokens| - 1], now);
      var last := tokens[|tokens| - 1];
      assert forall i :: 0 <= i < |tokens| - 1 ==> tokens[i] == tokens[..|tokens| - 1][i];
      if ValidAt(last, now) && (rest.None? || rest.value.expiresDate < last.expiresDate) then Some(last)
      else rest
  }

  /** Of two valid rows expiring at the same moment, the one inserted first is selected. */
  lemma TieGoesToEarliestInserted(first: AccessToken, second: AccessToken, now: int)
    requires ValidAt(first, now) && first.expiresDate == second.expiresDate
    ensures LatestValid([first, second], now) == Some(first)
  {
  }

  class TokenService {
    /** The cache: key to value with its time to live. */
    var cache: map<string, CacheEntry>
    /** The token table, in insertion order. */
    var tokens: seq<AccessToken>

    constructor ()
      ensures cache == map[] && tokens == []
    {
      cache := map[];
      tokens := [];
    }

    /** Reading a key: a store fault, a miss (absent or expired), or the value. */
    function GetToken(key: string, now: int, fault: Option<GoError>): (r: Result<string, GoError>)
      reads this
      ensures fault.Some? ==> r == Failure(fault.value)
      ensures r.Success? <==> fault.None? && key in cache && cache[key].LiveAt(now)
      ensures r.Success? ==> r.value == cache[key].value
    {
      if fault.Some? then Failure(fault.value)
      else if key in cache && cache[key].LiveAt(now) then Success(cache[key].value)
      else Failure(NewError("access token not found in redis"))
    }

    /** Writing a key: a lifetime of zero or less is refused before the store is reached. */
    method SetToken(key: string, value: string, ttl: int, now: int, fault: Option<GoError>) returns (err: Option<GoError>)
      modifies this
      ensures tokens == old(tokens)
      ensures err.None? <==> ttl > 0 && fault.None?
      ensures err.None? ==> cache == old(cache)[key := CacheEntry(value, ttl, now)]
      ensures err.Some? ==> cache == old(cache)
      ensures ttl <= 0 ==> err == Some(NewError("invalid ttl value"))
    {
      if ttl <= 0 {
        return Some(NewError("invalid ttl value"));
      }
      if fault.Some? {
        return Some(Wrap("failed to set redis token", fault.value));
      }
      cache := cache[key := CacheEntry(value, ttl, now)];
      return None;
    }

    /** The latest valid token of any bank, or the "record not found" error. */
    function FindToken(now: int, fault: Option<GoError>): (r: Result<AccessToken, GoError>)
      reads this
      ensures fault.Some? ==> r == Failure(fault.value)
      ensures r.Success? <==> fault.None? && exists i :: 0 <= i < |tokens| && ValidAt(tokens[i], now)
      ensures r.Success? ==> r.value in tokens && ValidAt(r.value, now) && Some(r.value) == LatestValid(tokens, now)
    {
      if fault.Some? then Failure(fault.value)
      else
        match LatestValid(tokens, now)
        case None => Failure(NewError("record not found"))
        case Some(t) => Success(t)
    }

    /** The transactional insert: the row is appended exactly when the insert succeeds. */
    method SaveAccessTokenDB(token: AccessToken, fault: Option<GoError>) returns (err: Option<GoError>)
      modifies this
      ensures cache == old(cache)
      ensures err.None? <==> fault.None?
      ensures fault.None? ==> tokens == old(tokens) + [token]
      ensures fault.Some? ==> tokens == old(tokens) && err == Some(Wrap("failed to save new access token to database", fault.value))
    {
      if fault.Some? {
        return Some(Wrap("failed to save new access token to database", fault.value));
      }
      tokens := tokens + [token];
      return None;
    }

    /**
     * Caches the token under the bank's key for TtlSeconds(expiresIn); any
     * lifetime of 30 seconds or less yields a zero TTL and is always refused.
     */
    method SaveAccessTokenRedis(bank: string, token: AccessToken, now: int, fault: Option<GoError>) returns (err: Option<GoError>)
      modifies this
      ensures tokens == old(tokens)
      ensures err.None? <==> token.expiresIn > 30 && fault.None?
      ensures token.expiresIn <= 30 ==> err.Some? && cache == old(cache)
      ensures err.None? ==> cache == old(cache)[CacheKey(bank) := CacheEntry(token.accessToken, token.expiresIn as int - 30, now)]
      ensures err.Some? ==> cache == old(cache) && err == Some(NewError("failed to set new access token to redis"))
    {
      var ttl := TtlSeconds(token.expiresIn);
      var e := SetToken(CacheKey(bank), token.accessToken, ttl, now, fault);
      if e.Some? {
        return Some(NewError("failed to set new access token to redis"));
      }
      return None;
    }

    /**
     * Cache first; on any cache error the table's latest valid token (of any
     * bank), written back under this bank's key with a TTL from its stored
     * lifetime, a failed write-back being ignored.
     */
    method GetActiveAccessToken(bank: string, now: int, cacheFault: Option<GoError>, dbFault: Option<GoError>,
                                writeFault: Option<GoError>) returns (r: Result<string, GoError>)
      modifies this
      ensures tokens == old(tokens)
      ensures old(GetToken(CacheKey(bank), now, cacheFault)).Success? ==>
        r == old(GetToken(CacheKey(bank), now, cacheFault)) && cache == old(cache)
      ensures old(GetToken(CacheKey(bank), now, cacheFault)).Failure? && old(FindToken(now, dbFault)).Failure? ==>
        r == Failure(Wrap("token not found in redis and database", old(FindToken(now, dbFault)).error)) && cache == old(cache)
      ensures old(GetToken(CacheKey(bank), now, cacheFault)).Failure? && old(FindToken(now, dbFault)).Success? ==>
        var found := old(FindToken(now, dbFault)).value;
        && r == Success(found.accessToken)
        && (found.expiresIn > 30 && writeFault.None? ==>
              cache == old(cache)[CacheKey(bank) := CacheEntry(found.accessToken, TtlSeconds(found.expiresIn), now)])
        && (found.expiresIn <= 30 || writeFault.Some? ==> cache == old(cache))
    {
      var key := CacheKey(bank);
      var cached := GetToken(key, now, cacheFault);
      if cached.Success? {
        return cached;
      }
      var found := FindToken(now, dbFault);
      if found.Failure? {
        return Failure(Wrap("token not found in redis and database", found.error));
      }
      var ttl := TtlSeconds(found.value.expiresIn);
      var _ := SetToken(key, found.value.accessToken, ttl, now, writeFault);
      return Success(found.value.accessToken);
    }
  }
}
