/**
 * The access-token cache of the content client: one (token, expiry) record per
 * application id, served while still valid and otherwise refreshed from the
 * token issuer. The clock readings and the issuer's reply are inputs.
 */
module TokenCaching {
  import opened Wrappers
  import opened PyText

  /** Every record is stored under this prefix followed by the application id. */
  const KeyPrefix: string := "access_token_"
  /** Seconds taken off the issuer-declared lifetime, so a token is refreshed early. */
  const RefreshMargin: int := 200
  /** The lifetime assumed when the issuer's reply has no `expires_in`. */
  const DefaultExpiresIn: int := 7200
  const TokenUrl: string := "https://api.weixin.qq.com/cgi-bin/token"
  const GrantType: string := "client_credential"

  /** A cached record: the token and the instant from which it is no longer served. */
  datatype Entry = Entry(token: string, expireAt: real)

  /**
   * What the issuer exchange came to: a reply carrying `access_token` (with its
   * `expires_in` field when present), or a failure (a reply without a token,
   * or an exception while requesting or decoding).
   */
  datatype Issue = Issued(token: string, expiresIn: Option<int>) | Failed

  /** The GET the cache sends to the issuer: url and query parameters. */
  datatype TokenRequest = TokenRequest(url: string, grantType: string, appId: string, secret: string)

  /** One `get_access_token` call: its result, the issuer request it made if any, and the new store. */
  datatype Lookup = Lookup(token: Option<string>, request: Option<TokenRequest>, entries: map<string, Entry>)

  /** The store key of an application: the prefix followed by the id. */
  function CacheKey(appId: string): (k: string)
    ensures |k| == |KeyPrefix| + |appId|
    ensures k[..|KeyPrefix|] == KeyPrefix && k[|KeyPrefix|..] == appId
  {
    KeyPrefix + appId
  }

  /** Distinct application ids never share a record. */
  lemma CacheKeyInjective(a: string, b: string)
    ensures CacheKey(a) == CacheKey(b) <==> a == b
  {
    if CacheKey(a) == CacheKey(b) {
      assert a == CacheKey(a)[|KeyPrefix|..];
    }
  }

  /** The issuer request for an application. */
  function RequestFor(appId: string, secret: string): TokenRequest
  {
    TokenRequest(TokenUrl, GrantType, appId, secret)
  }

  /** Whether the store holds a record for the key that is still valid at `now`. */
  predicate HasValid(entries: map<string, Entry>, key: string, now: real)
  {
    key in entries && now < entries[key].expireAt
  }

  /** `issued_at + expires_in - 200`, with `expires_in` defaulting to 7200. */
  function ExpireAt(issuedAt: real, expiresIn: Option<int>): (t: real)
    ensures expiresIn.Some? ==> t == issuedAt + expiresIn.value as real - RefreshMargin as real
    ensures expiresIn.None? ==> t == issuedAt + 7000.0
  {
    issuedAt + expiresIn.GetOr(DefaultExpiresIn) as real - RefreshMargin as real
  }

  /**
   * `get_access_token(app_id, secret)` as a function of the store. `now` is the
   * clock reading taken to test the cached record, `issuedAt` the reading taken
   * after the issuer replied, and `issue` what the issuer exchange came to.
   */
  function GetToken(entries: map<string, Entry>, appId: string, secret: string,
                    now: real, issuedAt: real, issue: Issue): (r: Lookup)
    // the issuer is asked exactly when there is no valid record
    ensures r.request.None? <==> HasValid(entries, CacheKey(appId), now)
    ensures r.request.Some? ==> r.request.value == RequestFor(appId, secret)
    // a valid record is returned as it is and the store is left alone
    ensures HasValid(entries, CacheKey(appId), now) ==>
              r.token == Some(entries[CacheKey(appId)].token) && r.entries == entries
    // a token is returned exactly on a hit or a successful exchange
    ensures r.token.Some? <==> HasValid(entries, CacheKey(appId), now) || issue.Issued?
    // whatever is returned is what the store now holds for the application
    ensures r.token.Some? ==> CacheKey(appId) in r.entries && r.entries[CacheKey(appId)].token == r.token.value
    // a successful exchange replaces the record with the new token and its shortened lifetime
    ensures r.request.Some? && issue.Issued? ==>
              r.entries == entries[CacheKey(appId) := Entry(issue.token, ExpireAt(issuedAt, issue.expiresIn))]
    // a failed exchange writes nothing, not even over a stale record
    ensures issue.Failed? ==> r.entries == entries
    // no other application's record changes
    ensures forall k :: k != CacheKey(appId) ==> (k in r.entries <==> k in entries)
    ensures forall k :: k != CacheKey(appId) && k in entries ==> r.entries[k] == entries[k]
  {
    var key := CacheKey(appId);
    if HasValid(entries, key, now) then
      Lookup(Some(entries[key].token), None, entries)
    else
      match issue
      case Issued(token, expiresIn) =>
        Lookup(Some(token), Some(RequestFor(appId, secret)),
               entries[key := Entry(token, ExpireAt(issuedAt, expiresIn))])
      case Failed =>
        Lookup(None, Some(RequestFor(appId, secret)), entries)
  }

  /** `clear_cache(app_id)`: a truthy id removes that application's record, otherwise every record goes. */
  function Cleared(entries: map<string, Entry>, appId: Option<string>): (r: map<string, Entry>)
    ensures IsTruthy(appId) ==> r.Keys == entries.Keys - {CacheKey(appId.value)}
    ensures IsTruthy(appId) ==> forall k :: k in r ==> r[k] == entries[k]
    ensures !IsTruthy(appId) ==> r == map[]
  {
    if IsTruthy(appId) then entries - {CacheKey(appId.value)} else map[]
  }

  /** The store, with `get_access_token` and `clear_cache` updating it in place. */
  class TokenCache {
    var entries: map<string, Entry>

    /** A cache over an empty store. */
    constructor ()
      ensures entries == map[]
    {
      entries := map[];
    }

    method GetAccessToken(appId: string, appSecret: string, now: real, issuedAt: real, issue: Issue)
      returns (token: Option<string>, request: Option<TokenRequest>)
      modifies this
      ensures Lookup(token, request, entries) == GetToken(old(entries), appId, appSecret, now, issuedAt, issue)
    {
      var key := CacheKey(appId);
      if key in entries {
        var cached := entries[key];
        if now < cached.expireAt {
          return Some(cached.token), None;
        }
      }
      request := Some(RequestFor(appId, appSecret));
      match issue
      case Issued(t, expiresIn) =>
        entries := entries[key := Entry(t, ExpireAt(issuedAt, expiresIn))];
        token := Some(t);
      case Failed =>
        token := None;
    }

    method ClearCache(appId: Option<string>)
      modifies this
      ensures entries == Cleared(old(entries), appId)
    {
      if IsTruthy(appId) {
        entries := entries - {CacheKey(appId.value)};
      } else {
        entries := map[];
      }
    }
  }

  /** The module-level `_token_cache` slot behind `get_token_cache`. */
  class TokenCacheSlot {
    var instance: TokenCache?

    constructor ()
      ensures instance == null
    {
      instance := null;
    }

    /** `get_token_cache()`: creates the cache on the first call and hands out that one ever after. */
    method GetTokenCache() returns (c: TokenCache)
      modifies this
      ensures old(instance) != null ==> c == old(instance)
      ensures old(instance) == null ==> fresh(c) && c.entries == map[]
      ensures instance == c
    {
      if instance == null {
        instance := new TokenCache();
      }
      c := instance;
    }
  }

  /** Two calls of `get_token_cache` give the same object. */
  method GetTokenCacheTwice(slot: TokenCacheSlot) returns (first: TokenCache, second: TokenCache)
    modifies slot
    ensures first == second && slot.instance == first
    ensures old(slot.instance) != null ==> first == old(slot.instance)
  {
    first := slot.GetTokenCache();
    second := slot.GetTokenCache();
  }

  // ----- sequences of calls -----

  /** One call on the cache, with the inputs that call sees. */
  datatype CacheCall =
    | Get(appId: string, secret: string, now: real, issuedAt: real, issue: Issue)
    | Clear(target: Option<string>)

  function Step(entries: map<string, Entry>, c: CacheCall): map<string, Entry>
  {
    match c
    case Get(a, s, now, issuedAt, issue) => GetToken(entries, a, s, now, issuedAt, issue).entries
    case Clear(target) => Cleared(entries, target)
  }

  /** The store after the calls, in order. */
  function Run(entries: map<string, Entry>, calls: seq<CacheCall>): map<string, Entry>
    decreases |calls|
  {
    if calls == [] then entries else Run(Step(entries, calls[0]), calls[1..])
  }

  /** How many issuer requests the calls make, in order. */
  function Fetches(entries: map<string, Entry>, calls: seq<CacheCall>): nat
    decreases |calls|
  {
    if calls == [] then 0
    else
      var here := match calls[0]
        case Get(a, s, now, issuedAt, issue) =>
          if GetToken(entries, a, s, now, issuedAt, issue).request.Some? then 1 else 0
        case Clear(_) => 0;
      here + Fetches(Step(entries, calls[0]), calls[1..])
  }

  /**
   * Whether a call leaves the record `e` of application `a` in place: a call
   * for another application, one that still finds `e` valid, one whose
   * exchange fails, or the removal of another application's record.
   */
  predicate Spares(c: CacheCall, a: string, e: Entry)
  {
    match c
    case Get(b, _, now, _, issue) => b != a || now < e.expireAt || issue.Failed?
    case Clear(target) => IsTruthy(target) && target.value != a
  }

  /** A record survives every sequence of calls that spares it. */
  lemma {:induction false} RecordSurvives(entries: map<string, Entry>, a: string, calls: seq<CacheCall>)
    requires CacheKey(a) in entries
    requires forall i :: 0 <= i < |calls| ==> Spares(calls[i], a, entries[CacheKey(a)])
    ensures CacheKey(a) in Run(entries, calls)
    ensures Run(entries, calls)[CacheKey(a)] == entries[CacheKey(a)]
    decreases |calls|
  {
    if calls != [] {
      var next := Step(entries, calls[0]);
      match calls[0] {
        case Get(b, s, now, issuedAt, issue) =>
          CacheKeyInjective(a, b);
        case Clear(target) =>
          CacheKeyInjective(a, target.value);
      }
      assert CacheKey(a) in next && next[CacheKey(a)] == entries[CacheKey(a)];
      assert forall i :: 0 <= i < |calls[1..]| ==> calls[1..][i] == calls[i + 1];
      RecordSurvives(next, a, calls[1..]);
    }
  }

  /** Whether every call is a lookup for application `a` before instant `t`. */
  predicate LookupsBefore(calls: seq<CacheCall>, a: string, t: real)
  {
    forall i :: 0 <= i < |calls| ==> calls[i].Get? && calls[i].appId == a && calls[i].now < t
  }

  /** While the record of `a` is valid, lookups for `a` never reach the issuer and change nothing. */
  lemma {:induction false} NoFetchWhileValid(entries: map<string, Entry>, a: string, calls: seq<CacheCall>)
    requires CacheKey(a) in entries
    requires LookupsBefore(calls, a, entries[CacheKey(a)].expireAt)
    ensures Fetches(entries, calls) == 0
    ensures Run(entries, calls) == entries
    decreases |calls|
  {
    if calls != [] {
      assert Step(entries, calls[0]) == entries;
      assert forall i :: 0 <= i < |calls[1..]| ==> calls[1..][i] == calls[i + 1];
      NoFetchWhileValid(entries, a, calls[1..]);
    }
  }

  /**
   * One fetch per lifetime: a lookup that misses and whose exchange succeeds at
   * `issuedAt` with lifetime `expiresIn` asks the issuer once; every later
   * lookup for the same application before `issuedAt + expiresIn - 200` is
   * served from the store, so the whole run asks exactly once and ends with
   * the new record in place.
   */
  lemma RefreshThenServe(entries: map<string, Entry>, a: string, s: string, now: real,
                         issuedAt: real, token: string, expiresIn: Option<int>, later: seq<CacheCall>)
    requires !HasValid(entries, CacheKey(a), now)
    requires LookupsBefore(later, a, ExpireAt(issuedAt, expiresIn))
    ensures Fetches(entries, [Get(a, s, now, issuedAt, Issued(token, expiresIn))] + later) == 1
    ensures Run(entries, [Get(a, s, now, issuedAt, Issued(token, expiresIn))] + later)
            == entries[CacheKey(a) := Entry(token, ExpireAt(issuedAt, expiresIn))]
    ensures forall i :: 0 <= i < |later| ==>
              GetToken(entries[CacheKey(a) := Entry(token, ExpireAt(issuedAt, expiresIn))],
                       a, later[i].secret, later[i].now, later[i].issuedAt, later[i].issue).token == Some(token)
  {
    var calls := [Get(a, s, now, issuedAt, Issued(token, expiresIn))] + later;
    var first := GetToken(entries, a, s, now, issuedAt, Issued(token, expiresIn));
    assert calls[0] == Get(a, s, now, issuedAt, Issued(token, expiresIn));
    assert calls[1..] == later;
    NoFetchWhileValid(first.entries, a, later);
  }

  /** A fresh store, a reply {"access_token": "T1", "expires_in": 7200}, then an immediate second lookup. */
  lemma FreshStoreScenario(now: real, issuedAt: real, again: real)
    requires now <= issuedAt <= again < issuedAt + 7000.0
    ensures var first := GetToken(map[], "appX", "secretY", now, issuedAt, Issued("T1", Some(7200)));
            && first.token == Some("T1")
            && first.request == Some(TokenRequest(TokenUrl, "client_credential", "appX", "secretY"))
            && first.entries == map["access_token_appX" := Entry("T1", issuedAt + 7000.0)]
            && GetToken(first.entries, "appX", "secretY", again, again, Failed)
               == Lookup(Some("T1"), None, first.entries)
  {
    assert CacheKey("appX") == "access_token_appX";
  }
}
