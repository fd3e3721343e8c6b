/**
 * The configuration keys the token code reads with `current_app.config.get`.
 * A key that is not set is `None`; the reader supplies its own default.
 */
module AppConfig {
  import opened Optional

  datatype Config = Config(
    secretKey: string,                        // SECRET_KEY
    confirmationTokenExpires: Option<int>,    // CONFIRMATION_TOKEN_EXPIRES
    resetTokenExpires: Option<int>,           // RESET_TOKEN_EXPIRES
    tokenExpirationSeconds: Option<int>,      // TOKEN_EXPIRATION_SECONDS
    securitySalt: Option<string>              // SECURITY_SALT
  )
}
