/**
 Access tokens. The signature is opaque: a token is its payload, and only payloads this service issued verify. Clocks
 read microseconds; a NumericDate (section 2 of RFC 7519) is a whole number of seconds, rounded down.
 */
module AccessTokens {
  import opened Prelude
  import opened Decimal

  const SECOND := 1_000_000

  datatype Config = Config(issuer: string, audience: string, ttl: int, skew: int)

  /** What the constructor of the token service accepts. */
  predicate ValidConfig(c: Config) {
    c.ttl > 0 && 0 <= c.skew < c.ttl
  }

  datatype Payload = Payload(
    sub: string, iss: string, aud: string, iat: int, nbf: int, exp: int, jti: string, kind: string)

  datatype Claims = Claims(userId: nat, tokenId: string, issuedAt: Time, notBefore: Time, expiresAt: Time)

  function NumericDate(t: Time): int {
    t / SECOND
  }

  function Issue(c: Config, userId: nat, jti: string, now: Time): Payload {
    Payload(Print(userId), c.issuer, c.audience, NumericDate(now), NumericDate(now), NumericDate(now + c.ttl * SECOND),
            jti, "access")
  }

  function SubjectUserId(sub: string): Option<nat> {
    if IsPositiveDecimal(sub) then Some(Read(sub)) else None
  }

  /** The registered claims of section 4.1 of RFC 7519, with the allowed clock skew. */
  predicate Verifies(c: Config, p: Payload, now: Time) {
    && p.iss == c.issuer && p.aud == c.audience
    && now - c.skew * SECOND < p.exp * SECOND
    && p.nbf * SECOND <= now + c.skew * SECOND
    && p.iat * SECOND <= now + c.skew * SECOND
  }

  function Decode(c: Config, p: Payload, now: Time): Option<Claims> {
    if !Verifies(c, p, now) || p.kind != "access" then None
    else
      var user := SubjectUserId(p.sub);
      if user.None? || Blank(p.jti) || !Stripped(p.jti) || p.exp <= p.iat || p.nbf > p.exp then None
      else Some(Claims(user.value, p.jti, p.iat * SECOND, p.nbf * SECOND, p.exp * SECOND))
  }

  /** A subject names one user, and only that user's issued form names it. */
  lemma SubjectsAreCanonical(sub: string, userId: nat)
    ensures SubjectUserId(sub) == Some(userId) <==> userId > 0 && sub == Print(userId)
  {
    if IsPositiveDecimal(sub) {
      PrintAfterRead(sub);
    }
    ReadAfterPrint(userId);
  }

  lemma WholeSeconds(t: Time, seconds: int)
    ensures NumericDate(t + seconds * SECOND) == NumericDate(t) + seconds
    ensures NumericDate(t) * SECOND <= t < NumericDate(t) * SECOND + SECOND
  {
  }

  /**
   A token issued by one service decodes with another, or itself, exactly when issuer and audience agree and the clock
   lies between the second of issue and the end of the TTL, give or take the skew. It then names its user and spans
   exactly the TTL.
   */
  lemma IssuedTokensDecode(c: Config, c': Config, userId: nat, jti: string, issued: Time, now: Time)
    requires ValidConfig(c) && ValidConfig(c') && userId > 0 && !Blank(jti) && Stripped(jti)
    ensures var second := NumericDate(issued) * SECOND;
      var r := Decode(c', Issue(c, userId, jti, issued), now);
      && (r.Some? <==> c'.issuer == c.issuer && c'.audience == c.audience &&
                       second - c'.skew * SECOND <= now < second + (c.ttl + c'.skew) * SECOND)
      && (r.Some? ==> r.value.userId == userId && r.value.tokenId == jti)
      && (r.Some? ==> r.value.issuedAt == r.value.notBefore == second && r.value.issuedAt <= issued)
      && (r.Some? ==> r.value.expiresAt - r.value.issuedAt == c.ttl * SECOND)
  {
    WholeSeconds(issued, c.ttl);
    SubjectsAreCanonical(Print(userId), userId);
  }

  // ---------------------------------------------------------------- the pair of tokens

  datatype Pair = Pair(accessExpiresAt: Time, refreshExpiresAt: Time)

  /**
   The pair issued for a login or a refresh that read the clock at `start`, signed its access token at `issued` and
   decoded it again at `decoded`. `None` is the error of an access token that does not decode, or the ValueError of a
   refresh token that would not outlive it.
   */
  function IssuePair(
    c: Config, refreshTtl: int, userId: nat, jti: string, start: Time, issued: Time, decoded: Time): Option<Pair>
  {
    var claims := Decode(c, Issue(c, userId, jti, issued), decoded);
    if claims.None? then None
    else
      var refreshExpiresAt := start + refreshTtl * SECOND;
      if refreshExpiresAt <= claims.value.expiresAt then None
      else Some(Pair(claims.value.expiresAt, refreshExpiresAt))
  }

  /** A pair is issued exactly when signing came early enough and its access token was still good when decoded. */
  lemma PairIssuedExactly(
    c: Config, refreshTtl: int, userId: nat, jti: string, start: Time, issued: Time, decoded: Time)
    requires ValidConfig(c) && userId > 0 && !Blank(jti) && Stripped(jti) && issued <= decoded
    ensures var r := IssuePair(c, refreshTtl, userId, jti, start, issued, decoded);
      var second := NumericDate(issued) * SECOND;
      && (r.Some? <==> second - start < (refreshTtl - c.ttl) * SECOND && decoded < second + (c.ttl + c.skew) * SECOND)
      && (r.Some? ==> r.value.accessExpiresAt == second + c.ttl * SECOND)
      && (r.Some? ==> r.value.accessExpiresAt < r.value.refreshExpiresAt)
  {
  }

  /**
   A login or refresh always gets its pair when signing takes less than the difference of the two TTLs and the token is
   decoded before its TTL and the skew run out.
   */
  lemma PromptPairsAreIssued(
    c: Config, refreshTtl: int, userId: nat, jti: string, start: Time, issued: Time, decoded: Time)
    requires ValidConfig(c) && userId > 0 && !Blank(jti) && Stripped(jti)
    requires refreshTtl > c.ttl && issued - start < (refreshTtl - c.ttl) * SECOND
    requires issued <= decoded <= issued + (c.ttl + c.skew - 1) * SECOND
    ensures IssuePair(c, refreshTtl, userId, jti, start, issued, decoded).Some?
  {
  }

  /**
   Whoever made it, a token decodes exactly when it is an access token of this issuer and audience, names a user by its
   printed positive id, has a usable identifier and sensible dates, and the clock is within them, give or take the skew.
   */
  lemma DecodesExactly(c: Config, p: Payload, now: Time, userId: nat)
    ensures var r := Decode(c, p, now);
      r.Some? && r.value.userId == userId <==>
      && p.kind == "access" && p.iss == c.issuer && p.aud == c.audience
      && userId > 0 && p.sub == Print(userId) && !Blank(p.jti) && Stripped(p.jti)
      && p.iat < p.exp && p.nbf <= p.exp
      && p.iat * 1_000_000 <= now + c.skew * 1_000_000 && p.nbf * 1_000_000 <= now + c.skew * 1_000_000
      && now - c.skew * 1_000_000 < p.exp * 1_000_000
    ensures var r := Decode(c, p, now);
      r.Some? ==> r.value == Claims(r.value.userId, p.jti, p.iat * 1_000_000, p.nbf * 1_000_000, p.exp * 1_000_000)
  {
    SubjectsAreCanonical(p.sub, userId);
  }
}
