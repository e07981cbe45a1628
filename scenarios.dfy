/** Sequences of calls, proved from the operations' contracts alone: what a
    client of the service and of the reset-code table can rely on. */
module Scenarios {
  import opened Outcomes
  import opened Config
  import opened LooseObjects
  import opened AccountRegisterDtos
  import opened AccountLoginDtos
  import opened AccountRepository
  import opened AccountServices
  import opened PasswordResetRepository

  /** Register, follow the validation link that registration mails (`linkToken`
      is the token signed for it, and verifying it gives its claims back), log
      in with the password, then log in with a wrong one. The account starts unvalidated, ends validated, and
      the stored password is never the plaintext's stand-in but its hash. */
  method RegisterValidateLogin(svc: AccountService, dto: RegisterDto, linkToken: string, wrong: string)
    returns (registered: Result<Session>, validated: Result<bool>, login: Result<Session>, refused: Result<Session>)
    requires svc.Valid()
    requires dto.email !in svc.accounts.users && dto.email != ""
    requires svc.crypto.hash(dto.password) != ""
    requires forall c :: Issued(svc.crypto.sign(c, DefaultTtl))
    requires svc.crypto.sign(LinkClaims(dto.email), DefaultTtl) == Some(linkToken)
    requires svc.crypto.verify(linkToken) == Some(LinkClaims(dto.email))
    requires !svc.crypto.compare(wrong, svc.crypto.hash(dto.password))
    modifies svc.accounts
    ensures svc.Valid()
    ensures registered.Ok? && registered.value.account.email_validated == Bool(false)
    ensures validated == Ok(true)
    ensures dto.email in svc.accounts.users && svc.accounts.users[dto.email].email_validated
    ensures svc.accounts.users[dto.email].password == svc.crypto.hash(dto.password)
    ensures login.Ok? && login.value.account.email_validated == Bool(true)
    ensures refused == Err(Rewrap(BadRequest(WrongPassword)))
  {
    registered := svc.RegisterUser(dto, true);
    validated := svc.ValidateEmail(linkToken);
    login := svc.LoginUser(LoginDto(dto.email, dto.password));
    refused := svc.LoginUser(LoginDto(dto.email, wrong));
  }

  /** Validating an e-mail twice with the same token succeeds both times and
      leaves the store as one validation does. */
  method ValidateEmailTwice(svc: AccountService, token: string) returns (first: Result<bool>, second: Result<bool>)
    requires svc.Valid()
    modifies svc.accounts
    ensures svc.Valid()
    ensures first.Ok? ==> second == first
    ensures first.Ok? ==> svc.crypto.verify(token).Some? && HasEmail(svc.crypto.verify(token).value)
    ensures first.Ok? ==> var email := svc.crypto.verify(token).value.email.value;
      && email in old(svc.accounts.users)
      && svc.accounts.users == old(svc.accounts.users)[email := old(svc.accounts.users)[email].(email_validated := true)]
    ensures first.Err? ==> second == first && svc.accounts.users == old(svc.accounts.users)
  {
    first := svc.ValidateEmail(token);
    second := svc.ValidateEmail(token);
  }

  /** After a password reset the new password logs in and the old one, when it
      does not happen to match the new hash, no longer does. */
  method ResetThenLogin(svc: AccountService, token: string, oldPassword: string, newPassword: string)
    returns (reset: Result<bool>, withNew: Result<Session>, withOld: Result<Session>)
    requires svc.Valid()
    requires forall c :: Issued(svc.crypto.sign(c, DefaultTtl))
    requires svc.crypto.hash(newPassword) != ""
    requires !svc.crypto.compare(oldPassword, svc.crypto.hash(newPassword))
    modifies svc.accounts
    ensures svc.Valid()
    ensures reset.Ok? ==> withNew.Ok? && withOld == Err(Rewrap(BadRequest(WrongPassword)))
  {
    reset := svc.ResetPassword(token, newPassword);
    if reset.Ok? {
      var email := svc.crypto.verify(token).value.email.value;
      withNew := svc.LoginUser(LoginDto(email, newPassword));
      withOld := svc.LoginUser(LoginDto(email, oldPassword));
    } else {
      withNew, withOld := Err(reset.failure), Err(reset.failure);
    }
  }

  /** Saving a code that expires after `now` makes `getCode` answer, and the
      answer expires no earlier than the saved code. */
  method SaveThenGet(store: ResetCodeStore, code: string, userId: int, expires: int, now: int)
    returns (saved: Result<()>, found: Option<ResetCode>)
    requires expires > now
    modifies store
    ensures saved.Ok? ==> found.Some? && found.value.userId == userId && found.value.expires_at >= expires
    ensures saved.Ok? && LatestValid(old(store.rows), userId, now).None? ==>
      found == Some(ResetCode(old(store.nextId), code, userId, expires, false))
  {
    saved := store.SaveVerificationCode(code, userId, expires, true);
    AppendedRowCompetes(old(store.rows), ResetCode(old(store.nextId), code, userId, expires, false), userId, now);
    found := store.GetCode(userId, now);
  }
}
