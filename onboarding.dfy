/**
 * `OnboardingTokenStore`: the Kakao tokens of a user who has not finished
 * registering, kept in memory by Kakao id until they are consumed once.
 * Instants are epoch milliseconds handed in by the clock.
 */
module Onboarding {
  import opened Common

  datatype Entry = Entry(accessToken: Option<string>, refreshToken: Option<string>, expiresAt: int)

  /** The value `consume` hands back. */
  datatype Tokens = Tokens(accessToken: Option<string>, refreshToken: Option<string>, expiresAt: int)

  /** `Entry.expired`: strictly after the expiry instant; at the instant itself the entry is still good. */
  predicate Expired(e: Entry, now: int)
  {
    now > e.expiresAt
  }

  /** What `consume` returns for `kakaoId` from `entries` at `now`. */
  function Consumed(entries: map<string, Entry>, kakaoId: string, now: int): (r: Option<Tokens>)
    ensures r.Some? <==> kakaoId in entries && !Expired(entries[kakaoId], now)
    ensures r.Some? ==> (var e := entries[kakaoId];
                         r.value == Tokens(e.accessToken, e.refreshToken, e.expiresAt) && now <= r.value.expiresAt)
  {
    if kakaoId !in entries || Expired(entries[kakaoId], now) then None
    else
      var e := entries[kakaoId];
      Some(Tokens(e.accessToken, e.refreshToken, e.expiresAt))
  }

  class OnboardingTokenStore {
    var entries: map<string, Entry>

    constructor ()
      ensures entries == map[]
    {
      entries := map[];
    }

    /** `put`: the entry for `kakaoId` is replaced by one expiring `ttlMillis` after now. */
    method Put(kakaoId: string, accessToken: Option<string>, refreshToken: Option<string>, ttlMillis: int, now: int)
      modifies this
      ensures entries == old(entries)[kakaoId := Entry(accessToken, refreshToken, now + ttlMillis)]
    {
      entries := entries[kakaoId := Entry(accessToken, refreshToken, now + ttlMillis)];
    }

    /** `consume`: the entry is removed whether or not it has expired; an unexpired one is returned. */
    method Consume(kakaoId: string, now: int) returns (r: Option<Tokens>)
      modifies this
      ensures r == Consumed(old(entries), kakaoId, now)
      ensures entries == old(entries) - {kakaoId}
    {
      if kakaoId !in entries {
        return None;
      }
      var e := entries[kakaoId];
      entries := entries - {kakaoId};
      if Expired(e, now) {
        return None;
      }
      return Some(Tokens(e.accessToken, e.refreshToken, e.expiresAt));
    }
  }

  /**
   * Tokens put under a key are consumed once, up to and including their
   * expiry instant, whatever was stored there before; the key is then gone
   * and a second consume finds nothing.
   */
  lemma PutThenConsume(
    entries: map<string, Entry>, kakaoId: string, accessToken: Option<string>, refreshToken: Option<string>,
    ttlMillis: int, putAt: int, now: int, later: int)
    ensures var stored := entries[kakaoId := Entry(accessToken, refreshToken, putAt + ttlMillis)];
      && (Consumed(stored, kakaoId, now) == Some(Tokens(accessToken, refreshToken, putAt + ttlMillis)) <==> now <= putAt + ttlMillis)
      && (Consumed(stored, kakaoId, now).None? <==> now > putAt + ttlMillis)
      && Consumed(stored - {kakaoId}, kakaoId, later).None?
  {
  }

  /** Consuming one key leaves every other key's answer as it was. */
  lemma ConsumeIsolated(entries: map<string, Entry>, kakaoId: string, other: string, now: int)
    requires other != kakaoId
    ensures Consumed(entries - {kakaoId}, other, now) == Consumed(entries, other, now)
  {
  }
}
