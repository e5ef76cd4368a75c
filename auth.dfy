/**
 * `AuthService`: login after the Kakao exchange, refresh-token rotation,
 * single-device and all-device logout.
 *
 * Tokens are opaque strings: the JWTs `JwtProvider` would issue and the
 * Kakao answers are parameters. Instants are epoch milliseconds handed in
 * by the clock; `refreshTokenExpMs` is the configured lifetime.
 */
module Auth {
  import opened Common
  import opened Onboarding

  /** A `refresh_tokens` row. */
  datatype RefreshTokenRow = RefreshTokenRow(
    id: int,
    userId: int,
    refreshToken: string,
    expiresAt: int,
    usedAt: Option<int>,
    revokedAt: Option<int>,
    createdAt: int)

  /**
   * The four 401 answers of `rotateTokens`, and the unique-key violation a
   * refresh token already on file would raise on insert.
   */
  datatype AuthError = InvalidToken | RevokedToken | AlreadyUsed | ExpiredToken | DuplicateToken

  datatype TokenRefreshResponse = TokenRefreshResponse(accessToken: string, refreshToken: string, tokenType: string)

  datatype AuthResult = AuthResult(accessToken: string, refreshToken: Option<string>, isNewUser: bool)

  /** The lifetime of an onboarding entry: ten minutes. */
  const ONBOARDING_TTL_MS: int := 10 * 60 * 1000

  /** The row `storeRefreshToken` inserts. */
  function Issued(id: int, userId: int, refreshJwt: string, now: int, expMs: int): (row: RefreshTokenRow)
    ensures row.userId == userId && row.refreshToken == refreshJwt
    ensures row.createdAt == now && row.expiresAt == now + expMs
    ensures row.usedAt.None? && row.revokedAt.None?
  {
    RefreshTokenRow(id, userId, refreshJwt, now + expMs, None, None, now)
  }

  /** The first reason `rotateTokens` refuses a token, checked in the order of the source. */
  function RotationRefusal(tokens: map<string, RefreshTokenRow>, refreshToken: string, now: int): (r: Option<AuthError>)
    ensures r.None? <==> (&& refreshToken in tokens && tokens[refreshToken].revokedAt.None?
                          && tokens[refreshToken].usedAt.None? && now <= tokens[refreshToken].expiresAt)
    ensures refreshToken !in tokens ==> r == Some(InvalidToken)
    ensures refreshToken in tokens && tokens[refreshToken].revokedAt.Some? ==> r == Some(RevokedToken)
    ensures r == Some(AlreadyUsed) <==> (refreshToken in tokens && tokens[refreshToken].revokedAt.None? && tokens[refreshToken].usedAt.Some?)
  {
    if refreshToken !in tokens then Some(InvalidToken)
    else
      var rt := tokens[refreshToken];
      if rt.revokedAt.Some? then Some(RevokedToken)
      else if rt.usedAt.Some? then Some(AlreadyUsed)
      else if rt.expiresAt < now then Some(ExpiredToken)
      else None
  }

  /** The table after a successful rotation: the old token spent, the new one on file. */
  function Rotated(tokens: map<string, RefreshTokenRow>, refreshToken: string, now: int, newRefresh: string, newId: int, expMs: int)
    : map<string, RefreshTokenRow>
    requires refreshToken in tokens
  {
    var spent := tokens[refreshToken].(usedAt := Some(now), revokedAt := Some(now));
    tokens[refreshToken := spent][newRefresh := Issued(newId, tokens[refreshToken].userId, newRefresh, now, expMs)]
  }

  /** Rows whose key is their own token, with ids below the next one. */
  predicate WellKeyed(tokens: map<string, RefreshTokenRow>, nextId: int)
  {
    forall t :: t in tokens ==> tokens[t].refreshToken == t && tokens[t].id < nextId
  }

  /**
   * A rotated token cannot be rotated again, at any later instant; the new
   * token belongs to the same user and can be rotated from now until its
   * expiry, inclusive; every other token is as it was.
   */
  lemma RotationIsOneShot(
    tokens: map<string, RefreshTokenRow>, refreshToken: string, now: int, newRefresh: string, newId: int, expMs: int,
    later: int, other: string)
    requires RotationRefusal(tokens, refreshToken, now).None? && newRefresh !in tokens
    ensures var after := Rotated(tokens, refreshToken, now, newRefresh, newId, expMs);
      && RotationRefusal(after, refreshToken, later) == Some(RevokedToken)
      && after[newRefresh].userId == tokens[refreshToken].userId
      && (RotationRefusal(after, newRefresh, later).None? <==> later <= now + expMs)
      && (other != refreshToken && other != newRefresh ==> (other in after <==> other in tokens))
      && (other != refreshToken && other != newRefresh && other in tokens ==> after[other] == tokens[other])
  {
  }

  /** A token is accepted at its expiry instant and refused one millisecond later. */
  lemma ExpiryIsInclusive(tokens: map<string, RefreshTokenRow>, refreshToken: string)
    requires refreshToken in tokens && tokens[refreshToken].revokedAt.None? && tokens[refreshToken].usedAt.None?
    ensures RotationRefusal(tokens, refreshToken, tokens[refreshToken].expiresAt).None?
    ensures RotationRefusal(tokens, refreshToken, tokens[refreshToken].expiresAt + 1) == Some(ExpiredToken)
  {
  }

  class AuthStore {
    /** `refresh_tokens`, by its unique token column. */
    var tokens: map<string, RefreshTokenRow>
    var nextId: int
    /** `jwt.refresh-token-exp`. */
    const refreshTokenExpMs: int

    predicate Valid()
      reads this
    {
      WellKeyed(tokens, nextId)
    }

    constructor (refreshTokenExpMs: int)
      ensures Valid() && tokens == map[] && this.refreshTokenExpMs == refreshTokenExpMs
    {
      tokens := map[];
      nextId := 1;
      this.refreshTokenExpMs := refreshTokenExpMs;
    }

    /** `storeRefreshToken`: a token already on file violates the unique key and nothing is stored. */
    method StoreRefreshToken(userId: int, refreshJwt: string, now: int) returns (r: Result<(), AuthError>)
      requires Valid()
      modifies this
      ensures Valid()
      ensures refreshJwt in old(tokens) ==> r == Err(DuplicateToken) && tokens == old(tokens) && nextId == old(nextId)
      ensures refreshJwt !in old(tokens) ==>
        && r == Ok(())
        && tokens == old(tokens)[refreshJwt := Issued(old(nextId), userId, refreshJwt, now, refreshTokenExpMs)]
        && nextId == old(nextId) + 1
    {
      if refreshJwt in tokens {
        return Err(DuplicateToken);
      }
      tokens := tokens[refreshJwt := Issued(nextId, userId, refreshJwt, now, refreshTokenExpMs)];
      nextId := nextId + 1;
      return Ok(());
    }

    /**
     * `rotateTokens`: a refused token changes nothing; an accepted one is
     * spent (used and revoked at now) and a fresh refresh token for the same
     * user is stored. The whole transaction rolls back when the fresh token
     * is already on file.
     */
    method RotateTokens(refreshToken: string, now: int, newAccess: string, newRefresh: string)
      returns (r: Result<TokenRefreshResponse, AuthError>)
      requires Valid()
      modifies this
      ensures Valid()
      ensures RotationRefusal(old(tokens), refreshToken, now).Some? ==>
        r == Err(RotationRefusal(old(tokens), refreshToken, now).value) && tokens == old(tokens)
      ensures RotationRefusal(old(tokens), refreshToken, now).None? && (newRefresh in old(tokens) || newRefresh == refreshToken) ==>
        r == Err(DuplicateToken) && tokens == old(tokens)
      ensures RotationRefusal(old(tokens), refreshToken, now).None? && newRefresh !in old(tokens) ==>
        && r == Ok(TokenRefreshResponse(newAccess, newRefresh, "Bearer"))
        && tokens == Rotated(old(tokens), refreshToken, now, newRefresh, old(nextId), refreshTokenExpMs)
    {
      var refusal := RotationRefusal(tokens, refreshToken, now);
      if refusal.Some? {
        return Err(refusal.value);
      }
      if newRefresh in tokens {
        return Err(DuplicateToken);
      }
      var rt := tokens[refreshToken];
      tokens := tokens[refreshToken := rt.(usedAt := Some(now), revokedAt := Some(now))];
      var stored := StoreRefreshToken(rt.userId, newRefresh, now);
      return Ok(TokenRefreshResponse(newAccess, newRefresh, "Bearer"));
    }

    /** `logoutByRefreshToken`: a known token is revoked and used at now; an unknown one changes nothing. */
    method LogoutByRefreshToken(refreshToken: string, now: int)
      requires Valid()
      modifies this
      ensures Valid() && nextId == old(nextId)
      ensures refreshToken !in old(tokens) ==> tokens == old(tokens)
      ensures refreshToken in old(tokens) ==>
        tokens == old(tokens)[refreshToken := old(tokens)[refreshToken].(revokedAt := Some(now), usedAt := Some(now))]
    {
      if refreshToken in tokens {
        var rt := tokens[refreshToken];
        tokens := tokens[refreshToken := rt.(revokedAt := Some(now), usedAt := Some(now))];
      }
    }

    /** `logoutAllDevices`: every token of the user is deleted and no other. */
    method LogoutAllDevices(userId: int)
      requires Valid()
      modifies this
      ensures Valid() && nextId == old(nextId)
      ensures tokens == map t | t in old(tokens) && old(tokens)[t].userId != userId :: old(tokens)[t]
    {
      tokens := map t | t in tokens && tokens[t].userId != userId :: tokens[t];
    }

    /**
     * `loginWithAuthorizationCode` after the Kakao exchange. A Kakao id with
     * no user parks the Kakao access token for ten minutes and answers with
     * a guest JWT, no refresh token and `isNewUser`; nothing is stored in
     * `refresh_tokens`. A known user gets an access JWT and a refresh JWT,
     * which is stored.
     */
    method Login(
      onboarding: OnboardingTokenStore, kakaoId: int, kakaoAccessToken: Option<string>, existingUserId: Option<int>, now: int,
      guestJwt: string, accessJwt: string, refreshJwt: string)
      returns (r: Result<AuthResult, AuthError>)
      requires Valid()
      modifies this, onboarding
      ensures Valid()
      ensures existingUserId.None? ==>
        && r == Ok(AuthResult(guestJwt, None, true))
        && tokens == old(tokens) && nextId == old(nextId)
        && onboarding.entries == old(onboarding.entries)[IntToString(kakaoId) := Entry(kakaoAccessToken, None, now + ONBOARDING_TTL_MS)]
      ensures existingUserId.Some? ==>
        && onboarding.entries == old(onboarding.entries)
        && (refreshJwt in old(tokens) ==> r == Err(DuplicateToken) && tokens == old(tokens))
        && (refreshJwt !in old(tokens) ==>
              && r == Ok(AuthResult(accessJwt, Some(refreshJwt), false))
              && tokens == old(tokens)[refreshJwt := Issued(old(nextId), existingUserId.value, refreshJwt, now, refreshTokenExpMs)])
    {
      if existingUserId.None? {
        onboarding.Put(IntToString(kakaoId), kakaoAccessToken, None, ONBOARDING_TTL_MS, now);
        return Ok(AuthResult(guestJwt, None, true));
      }
      var stored := StoreRefreshToken(existingUserId.value, refreshJwt, now);
      if stored.Err? {
        return Err(stored.error);
      }
      return Ok(AuthResult(accessJwt, Some(refreshJwt), false));
    }
  }

  /** After a logout the token is refused as revoked, whenever it is presented. */
  lemma LogoutRevokes(tokens: map<string, RefreshTokenRow>, refreshToken: string, now: int, later: int)
    requires refreshToken in tokens
    ensures RotationRefusal(tokens[refreshToken := tokens[refreshToken].(revokedAt := Some(now), usedAt := Some(now))],
                            refreshToken, later) == Some(RevokedToken)
  {
  }

  /** After logging out of every device, none of the user's tokens is known any more. */
  lemma LogoutAllForgets(tokens: map<string, RefreshTokenRow>, userId: int, refreshToken: string, now: int)
    requires refreshToken in tokens && tokens[refreshToken].userId == userId
    ensures RotationRefusal(map t | t in tokens && tokens[t].userId != userId :: tokens[t], refreshToken, now) == Some(InvalidToken)
  {
  }
}
