/**
 * The generic token helpers: a token carries a context tag and a string
 * value, is signed with the application's key under `SECURITY_SALT`, and is
 * accepted only for the context it was issued for.
 */
module Tokens {
  import opened Optional
  import opened AppConfig
  import opened Serializer
  import TokenService

  const DefaultSalt := "isrealai-token-salt"
  const DefaultExpiration := 3600
  /** The context both helpers use when the caller names none. */
  const DefaultContext := "default"

  /** The salt of `get_serializer()`. */
  function SerializerSalt(cfg: Config): string {
    cfg.securitySalt.GetOr(DefaultSalt)
  }

  /** `get_expiration()`: `TOKEN_EXPIRATION_SECONDS`, else one hour. */
  function GetExpiration(cfg: Config): (s: int)
    ensures cfg.tokenExpirationSeconds.None? ==> s == 3600
    ensures cfg.tokenExpirationSeconds.Some? ==> s == cfg.tokenExpirationSeconds.value
  {
    cfg.tokenExpirationSeconds.GetOr(DefaultExpiration)
  }

  /** `generate_token(data, context="default")`, issued at time `now`. */
  function GenerateToken(cfg: Config, now: int, data: string, context: string := DefaultContext): (t: Token)
    ensures SignedBy(t, cfg.secretKey, SerializerSalt(cfg))
    ensures t.payload == ContextClaim(context, data) && t.issuedAt == now
  {
    Dumps(cfg.secretKey, SerializerSalt(cfg), ContextClaim(context, data), now)
  }

  /** The lifetime `verify_token` applies: an explicit `max_age`, even 0, wins over the configuration. */
  function Expiration(cfg: Config, maxAge: Option<int>): (s: int)
    ensures maxAge.Some? ==> s == maxAge.value
    ensures maxAge.None? ==> s == GetExpiration(cfg)
  {
    if maxAge.Some? then maxAge.value else GetExpiration(cfg)
  }

  /** `verify_token(token, context="default", max_age=None)`, checked at time `now`. */
  function VerifyToken(cfg: Config, now: int, token: Token, context: string := DefaultContext, maxAge: Option<int> := None): (r: Option<string>)
    ensures r.Some? <==> SignedBy(token, cfg.secretKey, SerializerSalt(cfg))
                         && token.payload.ContextClaim? && token.payload.ctx == context
                         && 0 <= now - token.issuedAt <= Expiration(cfg, maxAge)
    ensures r.Some? ==> r.value == token.payload.val
  {
    match Loads(cfg.secretKey, SerializerSalt(cfg), token, Expiration(cfg, maxAge), now)
    case Loaded(p) => if p.ContextClaim? && p.ctx == context then Some(p.val) else None
    case SignatureExpired => None
    case BadSignature => None
  }

  // ---------------------------------------------------------------------------
  // Properties

  /** Round trip within the lifetime, for the context the token was issued for. */
  lemma VerifyGenerated(cfg: Config, data: string, context: string, maxAge: Option<int>, issued: int, now: int)
    requires issued <= now
    ensures VerifyToken(cfg, now, GenerateToken(cfg, issued, data, context), context, maxAge)
         == if now - issued <= Expiration(cfg, maxAge) then Some(data) else None
  {
  }

  /**
   * Both helpers default to the same context, so a token issued without one
   * verifies without one, under the configured lifetime.
   */
  lemma DefaultContextRoundTrip(cfg: Config, data: string, issued: int, now: int)
    requires issued <= now
    ensures VerifyToken(cfg, now, GenerateToken(cfg, issued, data)).Some?
        <==> now - issued <= GetExpiration(cfg)
    ensures VerifyToken(cfg, now, GenerateToken(cfg, issued, data)).Some?
        ==> VerifyToken(cfg, now, GenerateToken(cfg, issued, data)).value == data
    ensures VerifyToken(cfg, now, GenerateToken(cfg, issued, data), "other") == None
  {
  }

  /** A correctly signed token presented for another context yields `None`. */
  lemma ContextMismatchRejected(cfg: Config, data: string, context: string, other: string, maxAge: Option<int>, at: int, now: int)
    requires context != other
    ensures VerifyToken(cfg, now, GenerateToken(cfg, at, data, context), other, maxAge) == None
  {
  }

  /** With `max_age=0` a token is accepted only in the second it was issued. */
  lemma ZeroMaxAge(cfg: Config, data: string, context: string, issued: int, now: int)
    requires issued <= now
    ensures VerifyToken(cfg, now, GenerateToken(cfg, issued, data, context), context, Some(0)).Some?
        <==> now == issued
  {
  }

  /**
   * The two token families stay apart even when `SECURITY_SALT` is set to one
   * of `TokenService`'s salts: their payload shapes differ.
   */
  lemma FamiliesSeparated(cfg: Config, id: int, data: string, context: string, maxAge: Option<int>, issued: int, now: int)
    ensures VerifyToken(cfg, now, TokenService.GenerateConfirmationToken(cfg, id, issued), context, maxAge) == None
    ensures VerifyToken(cfg, now, TokenService.GenerateResetToken(cfg, id, issued), context, maxAge) == None
    ensures TokenService.ConfirmToken(cfg, GenerateToken(cfg, issued, data, context), now) == None
    ensures TokenService.ConfirmResetToken(cfg, GenerateToken(cfg, issued, data, context), now) == None
  {
  }
}
