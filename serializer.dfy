/**
 * An ideal timed, salted, signing serializer in the manner of itsdangerous'
 * `URLSafeTimedSerializer`. A token carries the key and salt it was signed
 * with, its payload and the second it was issued. Anything not produced by
 * `Dumps` is `Malformed`; a token signed with another key or salt fails the
 * signature check, as with an unforgeable signature.
 */
module Serializer {

  /** The two payload shapes the application signs: `{"id": n}` and `{"ctx": c, "val": v}`. */
  datatype Payload =
    | IdClaim(id: int)
    | ContextClaim(ctx: string, val: string)

  datatype Token =
    | Signed(key: string, salt: string, payload: Payload, issuedAt: int)
    | Malformed(text: string)

  /** What `loads` does: return the payload, raise `SignatureExpired`, or raise `BadSignature`. */
  datatype Loaded = Loaded(payload: Payload) | SignatureExpired | BadSignature

  /** True when `token` carries an intact signature under `key` and `salt`. */
  predicate SignedBy(token: Token, key: string, salt: string) {
    token.Signed? && token.key == key && token.salt == salt
  }

  /** `serializer.dumps(payload)` at time `now`. */
  function Dumps(key: string, salt: string, payload: Payload, now: int): (t: Token)
    ensures SignedBy(t, key, salt) && t.payload == payload && t.issuedAt == now
  {
    Signed(key, salt, payload, now)
  }

  /**
   * `serializer.loads(token, max_age=maxAge)` at time `now`. The signature is
   * checked first; a signed token is expired when its age exceeds `maxAge` or
   * is negative.
   */
  function Loads(key: string, salt: string, token: Token, maxAge: int, now: int): (r: Loaded)
    ensures r.Loaded? <==> SignedBy(token, key, salt) && 0 <= now - token.issuedAt <= maxAge
    ensures r.Loaded? ==> r.payload == token.payload
    ensures r.BadSignature? <==> !SignedBy(token, key, salt)
  {
    match token
    case Malformed(_) => BadSignature
    case Signed(k, s, p, t) =>
      if k != key || s != salt then BadSignature
      else if now - t > maxAge || now - t < 0 then SignatureExpired
      else Loaded(p)
  }

  /** Round trip: a fresh enough token loads back to its payload, an older one is expired. */
  lemma LoadsDumps(key: string, salt: string, p: Payload, issued: int, maxAge: int, now: int)
    requires issued <= now
    ensures Loads(key, salt, Dumps(key, salt, p, issued), maxAge, now)
         == if now - issued <= maxAge then Loaded(p) else SignatureExpired
  {
  }
}
