/** The adapters the account code takes from its configuration module, which is
    not part of this model: the e-mail and password regular expressions, the
    bcrypt adapter and the JWT adapter. Each is an uninterpreted function held
    in a record, so that every property proved holds for any implementation. */
module Config {
  import opened Outcomes

  /** `regularExps.email.test` and `regularExps.password.test`. */
  datatype Patterns = Patterns(email: string -> bool, password: string -> bool)

  /** The claims a JWT carries: the account id (identity tokens only) and the e-mail. */
  datatype Claims = Claims(id: Option<int>, email: Option<string>)

  /** The expiry handed to `JwtAdapter.generateToken`: its default, or an explicit span. */
  datatype Expiry = DefaultTtl | Ttl(span: string)

  /** The reset-link token lives ten minutes. */
  const ResetLinkTtl: Expiry := Ttl("10m")

  /** bcrypt `hash`/`compare` and JWT `generateToken`/`validateToken`. `sign`
      answers `None` where the adapter resolves to null; `verify` answers `None`
      for a token that is malformed, forged or expired. */
  datatype Crypto = Crypto(
    hash: string -> string,
    compare: (string, string) -> bool,
    sign: (Claims, Expiry) -> Option<string>,
    verify: string -> Option<Claims>)
  {
    /** A password always matches its own hash. */
    ghost predicate Valid()
    {
      forall p :: compare(p, hash(p))
    }
  }

  /** `if (!token)`: the adapter produced a non-empty token. */
  predicate Issued(token: Option<string>)
  {
    token.Some? && token.value != ""
  }

  /** `if (!email)` on a token's payload: the e-mail claim is there and non-empty. */
  predicate HasEmail(claims: Claims)
  {
    claims.email.Some? && claims.email.value != ""
  }
}
