/** The bearer-token authenticator `RedisAuth`: REFRESH and ACCESS tokens kept as hashes in
    a key-value store whose keys expire, one key `{namespace}:{token}` per token. */
module Auth {
  import opened JsValues

  /** `Number.MIN_SAFE_INTEGER`: what `hera.parseInt` yields for a missing or unparsable `expired`. */
  const MinSafeInteger: int := -9007199254740991

  const Refresh: string := "REFRESH"
  const Access: string := "ACCESS"
  const Bearer: string := "bearer"
  const InvalidToken: string := "Invalid token"

  datatype AuthUser = AuthUser(id: int, scope: string)

  /** The hash stored for one token; `expired` is in milliseconds since the epoch and
      is `None` when the field is missing or does not parse as an integer. */
  datatype TokenData = TokenData(id: int, scope: string, tokenType: string, expired: Option<int>)

  /** One key of the store: its hash, and the instant (in milliseconds) at which the
      TTL armed by EXPIRE evicts it, if one was armed. */
  datatype Entry = Entry(data: TokenData, evictAt: Option<int>)

  type Store = map<string, Entry>

  /** Wall-clock time, milliseconds since the epoch. */
  type Millis = nat

  /** What `genTokens` returns (`IAuth`); `accessToken` is `None` where the source returns null. */
  datatype Tokens = Tokens(accessToken: Option<string>, expiresIn: nat, refreshToken: string, tokenType: string)

  datatype Result<+T> = Success(value: T) | Failure(error: string)

  /** The store key of a token: `${key}:${token}`. */
  function Key(ns: string, token: string): string {
    ns + ":" + token
  }

  /** Distinct tokens of one namespace have distinct keys. */
  lemma {:induction false} KeyInjective(ns: string, t: string, u: string)
    ensures Key(ns, t) == Key(ns, u) <==> t == u
  {
    if Key(ns, t) == Key(ns, u) {
      assert t == Key(ns, t)[|ns| + 1..];
      assert u == Key(ns, u)[|ns| + 1..];
    }
  }

  /** `hera.parseInt(data.expired, 10, Number.MIN_SAFE_INTEGER)`. */
  function ExpiryOf(d: TokenData): int {
    match d.expired
    case Some(e) => e
    case None => MinSafeInteger
  }

  /** The embedded-expiry check every read makes: the key holds a hash whose `expired`
      has not passed. A missing key reads as an empty hash, which never passes. */
  predicate Unexpired(s: Store, k: string, now: Millis) {
    k in s && ExpiryOf(s[k].data) >= now
  }

  /** The check `genAccessToken` and `renewToken` make: unexpired and of the given type. */
  predicate UsableAs(s: Store, k: string, tokenType: string, now: Millis) {
    Unexpired(s, k, now) && s[k].data.tokenType == tokenType
  }

  /** The record written for a new token: `expired = now + 1000 * lifetime` and a TTL of
      `1 + lifetime` seconds armed at `now`. */
  function NewEntry(id: int, scope: string, tokenType: string, now: Millis, lifetime: nat): Entry {
    Entry(TokenData(id, scope, tokenType, Some(now + 1000 * lifetime)), Some(now + 1000 * (1 + lifetime)))
  }

  /** A record's TTL fires exactly one second after its embedded expiry, so the store never
      evicts a token that the embedded check would still accept. */
  predicate TtlBacksExpiry(e: Entry) {
    e.data.expired.Some? && e.evictAt == Some(e.data.expired.value + 1000)
  }

  /** The store invariant for one namespace: every token record keeps TTL and expiry in step. */
  ghost predicate Inv(s: Store, ns: string) {
    forall t :: Key(ns, t) in s ==> TtlBacksExpiry(s[Key(ns, t)])
  }

  function Slot(s: Store, k: string): Option<Entry> {
    if k in s then Some(s[k]) else None
  }

  /** Every token of namespace `ns` other than `token` has the same record (or none) in both stores. */
  ghost predicate OthersUnchanged(s: Store, s': Store, ns: string, token: string) {
    forall t :: t != token ==> Slot(s', Key(ns, t)) == Slot(s, Key(ns, t))
  }

  lemma NewEntryBacksExpiry(id: int, scope: string, tokenType: string, now: Millis, lifetime: nat)
    ensures TtlBacksExpiry(NewEntry(id, scope, tokenType, now, lifetime))
    ensures ExpiryOf(NewEntry(id, scope, tokenType, now, lifetime).data) >= now
  {
  }

  /** Writing one token's key leaves every other token's record alone. */
  lemma {:induction false} WriteIsolated(s: Store, ns: string, token: string, e: Entry)
    ensures OthersUnchanged(s, s[Key(ns, token) := e], ns, token)
  {
    forall t | t != token
      ensures Slot(s[Key(ns, token) := e], Key(ns, t)) == Slot(s, Key(ns, t))
    {
      KeyInjective(ns, t, token);
    }
  }

  /** Deleting one token's key leaves every other token's record alone. */
  lemma {:induction false} DeleteIsolated(s: Store, ns: string, token: string)
    ensures OthersUnchanged(s, s - {Key(ns, token)}, ns, token)
  {
    forall t | t != token
      ensures Slot(s - {Key(ns, token)}, Key(ns, t)) == Slot(s, Key(ns, t))
    {
      KeyInjective(ns, t, token);
    }
  }

  /** A write that keeps TTL and expiry in step preserves the store invariant. */
  lemma {:induction false} WritePreservesInv(s: Store, ns: string, token: string, e: Entry)
    requires Inv(s, ns) && TtlBacksExpiry(e)
    ensures Inv(s[Key(ns, token) := e], ns)
  {
    var s' := s[Key(ns, token) := e];
    forall t | Key(ns, t) in s'
      ensures TtlBacksExpiry(s'[Key(ns, t)])
    {
      KeyInjective(ns, t, token);
    }
  }

  /** Under the store invariant, a record the embedded-expiry check accepts is still held by
      the store: its TTL fires strictly after `now`, so eviction never removes a token that a
      read would accept. */
  lemma {:induction false} AcceptedNotEvicted(s: Store, ns: string, token: string, now: Millis)
    requires Inv(s, ns) && Unexpired(s, Key(ns, token), now)
    ensures s[Key(ns, token)].evictAt.Some? && s[Key(ns, token)].evictAt.value > now
  {
    assert TtlBacksExpiry(s[Key(ns, token)]);
  }

  class RedisAuth {
    /** The namespace every key is prefixed with. */
    const key: string
    /** Lifetimes in seconds. */
    const accessTokenExpires: nat
    const refreshTokenExpires: nat
    /** The contents of the Redis database the authenticator talks to. */
    var store: Store

    ghost predicate Valid()
      reads this
    {
      Inv(store, key)
    }

    constructor(redis: Store, key: string, accessTokenExpires: nat, refreshTokenExpires: nat)
      ensures this.key == key && store == redis
      ensures this.accessTokenExpires == accessTokenExpires
      ensures this.refreshTokenExpires == refreshTokenExpires
    {
      this.key := key;
      this.accessTokenExpires := accessTokenExpires;
      this.refreshTokenExpires := refreshTokenExpires;
      store := redis;
    }

    /** Stores a REFRESH record for `user` under the freshly drawn `token` and returns it. */
    method GenRefreshToken(user: AuthUser, now: Millis, token: string) returns (r: string)
      modifies this
      ensures r == token
      ensures store == old(store)[Key(key, token) := NewEntry(user.id, user.scope, Refresh, now, refreshTokenExpires)]
      ensures OthersUnchanged(old(store), store, key, token)
      ensures old(Valid()) ==> Valid()
    {
      var k := Key(key, token);
      var expired := now + 1000 * refreshTokenExpires;
      // HMSET writes the four fields and keeps whatever TTL the key had
      var ttl := if k in store then store[k].evictAt else None;
      store := store[k := Entry(TokenData(user.id, user.scope, Refresh, Some(expired)), ttl)];
      // EXPIRE k (1 + refreshTokenExpires)
      store := store[k := store[k].(evictAt := Some(now + 1000 * (1 + refreshTokenExpires)))];
      r := token;
      WriteIsolated(old(store), key, token, store[k]);
      NewEntryBacksExpiry(user.id, user.scope, Refresh, now, refreshTokenExpires);
      if old(Valid()) {
        WritePreservesInv(old(store), key, token, store[k]);
      }
    }

    /** Derives an ACCESS token from a live REFRESH token; returns `None` (and writes
        nothing) when the refresh record is missing, of another type, or expired. */
    method GenAccessToken(refreshToken: string, now: Millis, token: string) returns (r: Option<string>)
      modifies this
      ensures var rk := Key(key, refreshToken);
        if UsableAs(old(store), rk, Refresh, now) then
          r == Some(token) &&
          store == old(store)[Key(key, token) :=
                     NewEntry(old(store)[rk].data.id, old(store)[rk].data.scope, Access, now, accessTokenExpires)]
        else
          r == None && store == old(store)
      ensures OthersUnchanged(old(store), store, key, token)
      ensures old(Valid()) ==> Valid()
    {
      var rk := Key(key, refreshToken);
      // HGETALL rk
      if rk in store && store[rk].data.tokenType == Refresh && ExpiryOf(store[rk].data) >= now {
        var data := store[rk].data;
        var k := Key(key, token);
        var expired := now + 1000 * accessTokenExpires;
        var ttl := if k in store then store[k].evictAt else None;
        store := store[k := Entry(TokenData(data.id, data.scope, Access, Some(expired)), ttl)];
        store := store[k := store[k].(evictAt := Some(now + 1000 * (1 + accessTokenExpires)))];
        r := Some(token);
        WriteIsolated(old(store), key, token, store[k]);
        NewEntryBacksExpiry(data.id, data.scope, Access, now, accessTokenExpires);
        if old(Valid()) {
          WritePreservesInv(old(store), key, token, store[k]);
        }
      } else {
        r := None;
      }
    }

    /** Extends a live ACCESS token: only `expired` and the TTL change. Anything else is a no-op. */
    method RenewToken(accessToken: string, now: Millis)
      modifies this
      ensures var k := Key(key, accessToken);
        if UsableAs(old(store), k, Access, now) then
          store == old(store)[k := Entry(old(store)[k].data.(expired := Some(now + 1000 * accessTokenExpires)),
                                         Some(now + 1000 * (1 + accessTokenExpires)))]
        else
          store == old(store)
      ensures OthersUnchanged(old(store), store, key, accessToken)
      ensures old(Valid()) ==> Valid()
    {
      var k := Key(key, accessToken);
      if k in store && store[k].data.tokenType == Access && ExpiryOf(store[k].data) >= now {
        var expired := now + 1000 * accessTokenExpires;
        // HSET k expired, then EXPIRE k (1 + accessTokenExpires)
        store := store[k := store[k].(data := store[k].data.(expired := Some(expired)))];
        store := store[k := store[k].(evictAt := Some(now + 1000 * (1 + accessTokenExpires)))];
        WriteIsolated(old(store), key, accessToken, store[k]);
        if old(Valid()) {
          WritePreservesInv(old(store), key, accessToken, store[k]);
        }
      }
    }

    /** Deletes the token's key, whether or not it exists. */
    method RevokeToken(token: string)
      modifies this
      ensures store == old(store) - {Key(key, token)}
      ensures Key(key, token) !in store
      ensures Key(key, token) !in old(store) ==> store == old(store)
      ensures OthersUnchanged(old(store), store, key, token)
      ensures old(Valid()) ==> Valid()
    {
      store := store - {Key(key, token)};
      DeleteIsolated(old(store), key, token);
    }

    /** The stored record of a token whose embedded expiry has not passed, of either type;
        `Invalid token` otherwise. */
    method ParseToken(token: string, now: Millis) returns (r: Result<TokenData>)
      ensures r.Success? <==> Unexpired(store, Key(key, token), now)
      ensures r.Success? ==> r.value == store[Key(key, token)].data
      ensures r.Failure? ==> r.error == InvalidToken
    {
      var k := Key(key, token);
      if k in store && ExpiryOf(store[k].data) >= now {
        r := Success(store[k].data);
      } else {
        r := Failure(InvalidToken);
      }
    }

    /** Issues a refresh token at `issuedAt` and derives an access token from it at `derivedAt`
        (the two clock readings the source takes). */
    method GenTokens(user: AuthUser, issuedAt: Millis, derivedAt: Millis, refreshToken: string, accessToken: string)
      returns (auth: Tokens)
      modifies this
      ensures auth.refreshToken == refreshToken && auth.tokenType == Bearer
      ensures auth.expiresIn == accessTokenExpires
      ensures auth.accessToken ==
                (if derivedAt <= issuedAt + 1000 * refreshTokenExpires then Some(accessToken) else None)
      ensures var withRefresh := old(store)[Key(key, refreshToken) :=
                                   NewEntry(user.id, user.scope, Refresh, issuedAt, refreshTokenExpires)];
        store == if auth.accessToken.Some?
                 then withRefresh[Key(key, accessToken) :=
                        NewEntry(user.id, user.scope, Access, derivedAt, accessTokenExpires)]
                 else withRefresh
      ensures auth.accessToken.Some? ==>
                UsableAs(store, Key(key, accessToken), Access, derivedAt) &&
                store[Key(key, accessToken)].data.id == user.id &&
                store[Key(key, accessToken)].data.scope == user.scope
      ensures old(Valid()) ==> Valid()
    {
      var rt := GenRefreshToken(user, issuedAt, refreshToken);
      var at := GenAccessToken(rt, derivedAt, accessToken);
      auth := Tokens(at, accessTokenExpires, rt, Bearer);
    }
  }

  /** Once a token is revoked, parsing it fails at any time. */
  method RevokeThenParse(auth: RedisAuth, token: string, now: Millis) returns (r: Result<TokenData>)
    modifies auth
    ensures r == Failure(InvalidToken)
  {
    auth.RevokeToken(token);
    r := auth.ParseToken(token, now);
  }

  /** The access token `genTokens` hands out parses back to the user's id and scope,
      at any time up to its expiry. */
  method GenTokensThenParse(auth: RedisAuth, user: AuthUser, issuedAt: Millis, derivedAt: Millis,
                            refreshToken: string, accessToken: string, later: Millis)
    returns (tokens: Tokens, r: Result<TokenData>)
    requires later <= derivedAt + 1000 * auth.accessTokenExpires
    modifies auth
    ensures tokens.accessToken.Some? ==>
              r.Success? && r.value.id == user.id && r.value.scope == user.scope && r.value.tokenType == Access
  {
    tokens := auth.GenTokens(user, issuedAt, derivedAt, refreshToken, accessToken);
    r := auth.ParseToken(accessToken, later);
  }

  /** Renewing a REFRESH token, or a token whose expiry has passed, leaves what parsing reports unchanged. */
  method RenewInvalidIsNoOp(auth: RedisAuth, token: string, now: Millis, later: Millis)
    returns (before: Result<TokenData>, after: Result<TokenData>)
    requires !UsableAs(auth.store, Key(auth.key, token), Access, now)
    modifies auth
    ensures before == after
  {
    before := auth.ParseToken(token, later);
    auth.RenewToken(token, now);
    after := auth.ParseToken(token, later);
  }
}
