/** `AccountService`: registration, login, e-mail validation and password reset
    over the account store. Each flow is a chain of guards followed by at most
    one change to the store. E-mail delivery is the parameter `delivered`
    (whether the mailer reported the message as sent). */
module AccountServices {
  import opened Outcomes
  import opened Config
  import opened LooseObjects
  import opened AccountRegisterDtos
  import opened AccountLoginDtos
  import opened AccountEntities
  import opened AccountRepository

  const EmailTaken := "El correo ya está registrado"
  const JwtFailed := "Error while creating JWT"
  const NoSuchEmail := "El correo no existe"
  const WrongPassword := "La contraseña es incorrecta"
  const EmailNotRegistered := "El correo no está registrado"
  const ResetTokenFailed := "Error al generar el token"
  const SendFailed := "Error enviando el correo"
  const ResetTokenInvalid := "Token invalido o expirado"
  const WeakNewPassword := "La contraseña debe contener mayúsculas, minúsculas, números y por lo menos un caracter especial"
  const TokenTampered := "El correo no ha sido encontrado, el token ha sido alterado"
  const UnknownUser := "El usuario no existe"
  const LinkTokenFailed := "Error getting token"
  const InvalidToken := "Invalid Token"
  const NoEmailClaim := "Email not in token"
  const UserMissing := "User not exists"

  /** What registration and login return: the account without its password,
      and an identity token. */
  datatype Session = Session(account: PublicAccount, token: string)

  /** A stored row as the service hands it out: every column but the password. */
  function Profile(u: User): PublicAccount
  {
    PublicAccount(Num(u.id), Str(u.name), Str(u.lastname), Str(u.email), Bool(u.email_validated), Date(u.created_at))
  }

  /** The claims of the identity token for a row. */
  function IdentityClaims(u: User): Claims
  {
    Claims(Some(u.id), Some(u.email))
  }

  /** The claims of a link token: the e-mail alone. */
  function LinkClaims(email: string): Claims
  {
    Claims(None, Some(email))
  }

  /** `AccountEntity.fromObject` accepts a stored row exactly when its id is not
      zero and its e-mail and password are not empty; the service then hands
      out the row's profile. */
  lemma EntityOfRow(u: User)
    ensures FromObject(AsObject(u)).Ok? <==> u.id != 0 && u.email != "" && u.password != ""
    ensures FromObject(AsObject(u)).Ok? ==> WithoutPassword(FromObject(AsObject(u)).value) == Profile(u)
    ensures FromObject(AsObject(u)).Err? ==> FromObject(AsObject(u)).failure.BadRequest?
  {
  }

  class AccountService {
    const accounts: AccountStore
    const crypto: Crypto
    const patterns: Patterns

    ghost predicate Valid()
      reads this, accounts
    {
      accounts.Valid() && crypto.Valid()
    }

    constructor (accounts: AccountStore, crypto: Crypto, patterns: Patterns)
      requires accounts.Valid() && crypto.Valid()
      ensures Valid()
      ensures this.accounts == accounts && this.crypto == crypto && this.patterns == patterns
    {
      this.accounts := accounts;
      this.crypto := crypto;
      this.patterns := patterns;
    }

    /** `registerUser(dto)`. A taken e-mail is refused before anything else and
        leaves the store alone. Otherwise the account is stored with the hash of
        the password before the validation e-mail goes out, so it stays stored
        whatever fails afterwards; every later failure is re-thrown as an
        internal-server error. */
    method RegisterUser(dto: RegisterDto, delivered: bool) returns (r: Result<Session>)
      requires Valid()
      modifies accounts
      ensures Valid()
      ensures dto.email in old(accounts.users) ==>
        && r == Err(BadRequest(EmailTaken))
        && accounts.users == old(accounts.users) && accounts.nextId == old(accounts.nextId)
      ensures dto.email !in old(accounts.users) ==>
        && accounts.users == old(accounts.users)[dto.email := Inserted(dto.(password := crypto.hash(dto.password)), old(accounts.nextId))]
        && accounts.nextId == old(accounts.nextId) + 1
        && accounts.users[dto.email].password == crypto.hash(dto.password)
        && (r.Err? ==> r.failure.InternalServer?)
      ensures dto.email !in old(accounts.users) && !Issued(crypto.sign(LinkClaims(dto.email), DefaultTtl)) ==>
        r == Err(Rewrap(InternalServer(LinkTokenFailed)))
      ensures dto.email !in old(accounts.users) && Issued(crypto.sign(LinkClaims(dto.email), DefaultTtl)) && !delivered ==>
        r == Err(Rewrap(InternalServer(SendFailed)))
      ensures r.Ok? <==>
        && dto.email !in old(accounts.users)
        && Issued(crypto.sign(LinkClaims(dto.email), DefaultTtl)) && delivered
        && dto.email != "" && crypto.hash(dto.password) != ""
        && Issued(crypto.sign(IdentityClaims(accounts.users[dto.email]), DefaultTtl))
      ensures r.Ok? ==>
        && r.value.account == Profile(accounts.users[dto.email])
        && Some(r.value.token) == crypto.sign(IdentityClaims(accounts.users[dto.email]), DefaultTtl)
    {
      var existing := accounts.FindByEmail(dto.email);
      if existing.Some? {
        return Err(BadRequest(EmailTaken));
      }
      var hashed := dto.(password := crypto.hash(dto.password));
      var created := accounts.Create(hashed);
      var account := created.value;
      var sent := SendEmailValidationLink(account.email, delivered);
      if sent.Err? {
        return Err(Rewrap(sent.failure));
      }
      EntityOfRow(account);
      var entity := FromObject(AsObject(account));
      if entity.Err? {
        return Err(Rewrap(entity.failure));
      }
      var token := crypto.sign(IdentityClaims(account), DefaultTtl);
      if !Issued(token) {
        return Err(Rewrap(InternalServer(JwtFailed)));
      }
      r := Ok(Session(WithoutPassword(entity.value), token.value));
    }

    /** `loginUser(dto)`. Reads the store only. An unknown e-mail or a password
        that does not match the stored hash is refused; since those refusals
        are thrown inside the `try`, every failure leaves as an internal-server
        error. */
    method LoginUser(dto: LoginDto) returns (r: Result<Session>)
      requires Valid()
      ensures dto.email !in accounts.users ==> r == Err(Rewrap(BadRequest(NoSuchEmail)))
      ensures dto.email in accounts.users && !crypto.compare(dto.password, accounts.users[dto.email].password) ==>
        r == Err(Rewrap(BadRequest(WrongPassword)))
      ensures r.Err? ==> r.failure.InternalServer?
      ensures r.Ok? <==>
        && dto.email in accounts.users
        && crypto.compare(dto.password, accounts.users[dto.email].password)
        && accounts.users[dto.email].email != "" && accounts.users[dto.email].password != ""
        && Issued(crypto.sign(IdentityClaims(accounts.users[dto.email]), DefaultTtl))
      ensures r.Ok? ==>
        && r.value.account == Profile(accounts.users[dto.email])
        && Some(r.value.token) == crypto.sign(IdentityClaims(accounts.users[dto.email]), DefaultTtl)
    {
      var existing := accounts.FindByEmail(dto.email);
      if existing.None? {
        return Err(Rewrap(BadRequest(NoSuchEmail)));
      }
      var user := existing.value;
      if !crypto.compare(dto.password, user.password) {
        return Err(Rewrap(BadRequest(WrongPassword)));
      }
      EntityOfRow(user);
      var entity := FromObject(AsObject(user));
      if entity.Err? {
        return Err(Rewrap(entity.failure));
      }
      var token := crypto.sign(IdentityClaims(user), DefaultTtl);
      if !Issued(token) {
        return Err(Rewrap(InternalServer(JwtFailed)));
      }
      r := Ok(Session(WithoutPassword(entity.value), token.value));
    }

    /** `sendResetPasswordLink(email)`. Reads the store only: an unknown e-mail is
        a bad request; otherwise a ten-minute link token for the stored e-mail is
        mailed. */
    method SendResetPasswordLink(email: string, delivered: bool) returns (r: Result<bool>)
      requires Valid()
      ensures email !in accounts.users ==> r == Err(BadRequest(EmailNotRegistered))
      ensures email in accounts.users && !Issued(crypto.sign(LinkClaims(email), ResetLinkTtl)) ==>
        r == Err(InternalServer(ResetTokenFailed))
      ensures email in accounts.users && Issued(crypto.sign(LinkClaims(email), ResetLinkTtl)) && !delivered ==>
        r == Err(InternalServer(SendFailed))
      ensures r.Ok? <==> email in accounts.users && Issued(crypto.sign(LinkClaims(email), ResetLinkTtl)) && delivered
      ensures r.Ok? ==> r.value
    {
      var user := accounts.FindByEmail(email);
      if user.None? {
        return Err(BadRequest(EmailNotRegistered));
      }
      var token := crypto.sign(LinkClaims(user.value.email), ResetLinkTtl);
      if !Issued(token) {
        return Err(InternalServer(ResetTokenFailed));
      }
      if !delivered {
        return Err(InternalServer(SendFailed));
      }
      r := Ok(true);
    }

    /** `resetPassword(token, newPassword)`. The guards run in this order: a token
        that does not verify, a new password the pattern rejects (before the
        store is consulted), a token without an e-mail claim, an e-mail with no
        account. On success only that account's password changes, to the hash
        of the new one. */
    method ResetPassword(token: string, newPassword: string) returns (r: Result<bool>)
      requires Valid()
      modifies accounts
      ensures Valid() && accounts.nextId == old(accounts.nextId)
      ensures crypto.verify(token).None? ==> r == Err(Unauthorized(ResetTokenInvalid))
      ensures crypto.verify(token).Some? && !patterns.password(newPassword) ==>
        r == Err(BadRequest(WeakNewPassword))
      ensures crypto.verify(token).Some? && patterns.password(newPassword) && !HasEmail(crypto.verify(token).value) ==>
        r == Err(InternalServer(TokenTampered))
      ensures (crypto.verify(token).Some? && patterns.password(newPassword) && HasEmail(crypto.verify(token).value)
               && crypto.verify(token).value.email.value !in old(accounts.users)) ==>
        r == Err(BadRequest(UnknownUser))
      ensures r.Err? ==> accounts.users == old(accounts.users)
      ensures r.Ok? <==>
        && crypto.verify(token).Some? && patterns.password(newPassword) && HasEmail(crypto.verify(token).value)
        && crypto.verify(token).value.email.value in old(accounts.users)
      ensures r.Ok? ==> r.value && var email := crypto.verify(token).value.email.value;
        accounts.users == old(accounts.users)[email := old(accounts.users)[email].(password := crypto.hash(newPassword))]
    {
      var payload := crypto.verify(token);
      if payload.None? {
        return Err(Unauthorized(ResetTokenInvalid));
      }
      if !patterns.password(newPassword) {
        return Err(BadRequest(WeakNewPassword));
      }
      if !HasEmail(payload.value) {
        return Err(InternalServer(TokenTampered));
      }
      var email := payload.value.email.value;
      var user := accounts.FindByEmail(email);
      if user.None? {
        return Err(BadRequest(UnknownUser));
      }
      ghost var before := accounts.users;
      accounts.UpdatePassword(user.value.id, crypto.hash(newPassword));
      UpdateByIdIsUpdateAtKey(before, accounts.users, email, crypto.hash(newPassword));
      r := Ok(true);
    }

    /** `sendEmailValidationLink(email)`: mail a link token for the e-mail. Reads
        nothing from the store. */
    method SendEmailValidationLink(email: string, delivered: bool) returns (r: Result<bool>)
      ensures !Issued(crypto.sign(LinkClaims(email), DefaultTtl)) ==> r == Err(InternalServer(LinkTokenFailed))
      ensures Issued(crypto.sign(LinkClaims(email), DefaultTtl)) && !delivered ==> r == Err(InternalServer(SendFailed))
      ensures r.Ok? <==> Issued(crypto.sign(LinkClaims(email), DefaultTtl)) && delivered
      ensures r.Ok? ==> r.value
    {
      var token := crypto.sign(LinkClaims(email), DefaultTtl);
      if !Issued(token) {
        return Err(InternalServer(LinkTokenFailed));
      }
      if !delivered {
        return Err(InternalServer(SendFailed));
      }
      r := Ok(true);
    }

    /** `validateEmail(token)`. A token that does not verify is unauthorized; a
        token without an e-mail claim, or whose e-mail has no account, is an
        internal-server error. Otherwise that account's `email_validated` is set
        and nothing else changes. */
    method ValidateEmail(token: string) returns (r: Result<bool>)
      requires Valid()
      modifies accounts
      ensures Valid() && accounts.nextId == old(accounts.nextId)
      ensures crypto.verify(token).None? ==> r == Err(Unauthorized(InvalidToken))
      ensures crypto.verify(token).Some? && !HasEmail(crypto.verify(token).value) ==>
        r == Err(InternalServer(NoEmailClaim))
      ensures (crypto.verify(token).Some? && HasEmail(crypto.verify(token).value)
               && crypto.verify(token).value.email.value !in old(accounts.users)) ==>
        r == Err(InternalServer(UserMissing))
      ensures r.Err? ==> accounts.users == old(accounts.users)
      ensures r.Ok? <==>
        && crypto.verify(token).Some? && HasEmail(crypto.verify(token).value)
        && crypto.verify(token).value.email.value in old(accounts.users)
      ensures r.Ok? ==> r.value && var email := crypto.verify(token).value.email.value;
        accounts.users == old(accounts.users)[email := old(accounts.users)[email].(email_validated := true)]
    {
      var payload := crypto.verify(token);
      if payload.None? {
        return Err(Unauthorized(InvalidToken));
      }
      if !HasEmail(payload.value) {
        return Err(InternalServer(NoEmailClaim));
      }
      var email := payload.value.email.value;
      var user := accounts.FindByEmail(email);
      if user.None? {
        return Err(InternalServer(UserMissing));
      }
      var _ := accounts.UpdateEmailValidate(email, UserPatch(None, None, None, Some(true)));
      r := Ok(true);
    }

    /** `validateToken(token)`: succeeds exactly when the token verifies. */
    method ValidateToken(token: string) returns (r: Result<bool>)
      ensures r.Ok? <==> crypto.verify(token).Some?
      ensures r.Ok? ==> r.value
      ensures r.Err? ==> r == Err(Unauthorized(ResetTokenInvalid))
    {
      var payload := crypto.verify(token);
      if payload.None? {
        return Err(Unauthorized(ResetTokenInvalid));
      }
      r := Ok(true);
    }
  }
}
