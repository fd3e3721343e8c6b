/**
 * `TokenService`: stateless confirmation and reset tokens. Both kinds carry
 * `{"id": user_id}`, are signed with the application's secret key, and differ
 * only in salt and lifetime. Validation keeps no record of use: a token stays
 * valid for its whole window however often it is presented.
 */
module TokenService {
  import opened Optional
  import opened AppConfig
  import opened Serializer

  const SaltConfirm := "email-confirmation"
  const SaltReset := "password-reset"

  /** Lifetimes used when the configuration leaves them unset (one day, one hour). */
  const DefaultConfirmationExpires := 3600 * 24
  const DefaultResetExpires := 3600

  function ConfirmationMaxAge(cfg: Config): (s: int)
    ensures cfg.confirmationTokenExpires.None? ==> s == 86400
    ensures cfg.confirmationTokenExpires.Some? ==> s == cfg.confirmationTokenExpires.value
  {
    cfg.confirmationTokenExpires.GetOr(DefaultConfirmationExpires)
  }

  function ResetMaxAge(cfg: Config): (s: int)
    ensures cfg.resetTokenExpires.None? ==> s == 3600
    ensures cfg.resetTokenExpires.Some? ==> s == cfg.resetTokenExpires.value
  {
    cfg.resetTokenExpires.GetOr(DefaultResetExpires)
  }

  /** `data.get("id")` */
  function IdOf(p: Payload): Option<int> {
    if p.IdClaim? then Some(p.id) else None
  }

  /** The user id a token yields under `salt` and `maxAge`, if any; every failure is `None`. */
  function Validate(cfg: Config, salt: string, maxAge: int, token: Token, now: int): (r: Option<int>)
    ensures r.Some? <==> SignedBy(token, cfg.secretKey, salt) && token.payload.IdClaim?
                         && 0 <= now - token.issuedAt <= maxAge
    ensures r.Some? ==> r.value == token.payload.id
  {
    match Loads(cfg.secretKey, salt, token, maxAge, now)
    case Loaded(p) => IdOf(p)
    case SignatureExpired => None
    case BadSignature => None
  }

  /** `generate_confirmation_token(user_id)` */
  function GenerateConfirmationToken(cfg: Config, userId: int, now: int): (t: Token)
    ensures SignedBy(t, cfg.secretKey, SaltConfirm) && t.payload == IdClaim(userId) && t.issuedAt == now
  {
    Dumps(cfg.secretKey, SaltConfirm, IdClaim(userId), now)
  }

  /** `confirm_token(token)`: the id when the token is an intact, unexpired confirmation token. */
  function ConfirmToken(cfg: Config, token: Token, now: int): (r: Option<int>)
    ensures r.Some? <==> SignedBy(token, cfg.secretKey, SaltConfirm) && token.payload.IdClaim?
                         && 0 <= now - token.issuedAt <= ConfirmationMaxAge(cfg)
    ensures r.Some? ==> r.value == token.payload.id
  {
    Validate(cfg, SaltConfirm, ConfirmationMaxAge(cfg), token, now)
  }

  /** `generate_reset_token(user_id)` */
  function GenerateResetToken(cfg: Config, userId: int, now: int): (t: Token)
    ensures SignedBy(t, cfg.secretKey, SaltReset) && t.payload == IdClaim(userId) && t.issuedAt == now
  {
    Dumps(cfg.secretKey, SaltReset, IdClaim(userId), now)
  }

  /** `confirm_reset_token(token)`: the id when the token is an intact, unexpired reset token. */
  function ConfirmResetToken(cfg: Config, token: Token, now: int): (r: Option<int>)
    ensures r.Some? <==> SignedBy(token, cfg.secretKey, SaltReset) && token.payload.IdClaim?
                         && 0 <= now - token.issuedAt <= ResetMaxAge(cfg)
    ensures r.Some? ==> r.value == token.payload.id
  {
    Validate(cfg, SaltReset, ResetMaxAge(cfg), token, now)
  }

  // ---------------------------------------------------------------------------
  // Properties

  /** A confirmation token yields its id for its whole lifetime and nothing afterwards. */
  lemma ConfirmationRoundTrip(cfg: Config, id: int, issued: int, now: int)
    requires issued <= now
    ensures ConfirmToken(cfg, GenerateConfirmationToken(cfg, id, issued), now)
         == if now - issued <= ConfirmationMaxAge(cfg) then Some(id) else None
  {
  }

  /** A reset token yields its id for its whole lifetime and nothing afterwards. */
  lemma ResetRoundTrip(cfg: Config, id: int, issued: int, now: int)
    requires issued <= now
    ensures ConfirmResetToken(cfg, GenerateResetToken(cfg, id, issued), now)
         == if now - issued <= ResetMaxAge(cfg) then Some(id) else None
  {
  }

  /** The salts keep the two purposes apart: neither kind of token is accepted as the other. */
  lemma SaltSeparation(cfg: Config, id: int, issued: int, now: int)
    ensures ConfirmResetToken(cfg, GenerateConfirmationToken(cfg, id, issued), now) == None
    ensures ConfirmToken(cfg, GenerateResetToken(cfg, id, issued), now) == None
  {
  }

  /** A token signed with another key, or not a signed token at all, yields `None`. */
  lemma ForgedRejected(cfg: Config, token: Token, now: int)
    requires !token.Signed? || token.key != cfg.secretKey
    ensures ConfirmToken(cfg, token, now) == None
    ensures ConfirmResetToken(cfg, token, now) == None
  {
  }

  /**
   * Nothing is consumed: two validations of one token at any two moments of its
   * window return the same id.
   */
  lemma ReusableWithinWindow(cfg: Config, id: int, issued: int, first: int, second: int)
    requires issued <= first <= second
    requires second - issued <= ConfirmationMaxAge(cfg)
    ensures var t := GenerateConfirmationToken(cfg, id, issued);
            ConfirmToken(cfg, t, first) == ConfirmToken(cfg, t, second) == Some(id)
  {
  }
}
