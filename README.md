# Account authentication core, in Dafny

This project models the account logic of an authentication backend: registration,
login, e-mail validation, the password-reset link, and token validation. It also
models the stores and validators those flows rest on.

- `AccountService` (module `AccountServices`) is a class over the account store.
  Each flow is a chain of guards followed by at most one change to the store. The
  contracts state which error each guard raises and in which order. They also state
  the exact new contents of the store, so they say what does not change.
- `PrismaAccountRepository` (module `AccountRepository`) is the `user` table as a
  class. The table is held as a map keyed by e-mail, the column the schema keeps
  unique. Its invariant says each row sits under its own e-mail and ids are unique.
- `PrismaPasswordResetRepository` (module `PasswordResetRepository`) is the
  `passwordResetCode` table as a class holding its rows in insertion order.
  `getCode` is the selection `LatestValid`. It is proved to return a qualifying row
  with the latest expiry, or nothing exactly when no row qualifies.
- `AccountRegisterDto.create`, `AccountLoginDto.create` and `AccountEntity.fromObject`
  (modules `AccountRegisterDtos`, `AccountLoginDtos`, `AccountEntities`) are pure
  functions. Each is proved equal to `Guards.FirstFailure` over its guards listed in
  order: it returns the message of the earliest failing guard, or it returns the
  object with its fields copied unchanged.
- The configuration module is not part of this model. The bcrypt and JWT adapters
  and the e-mail and password regular expressions become uninterpreted functions in
  the records `Config.Crypto` and `Config.Patterns`. The one assumption made about
  them is `Crypto.Valid`: a password always matches its own hash.
- Presence tests are JavaScript truthiness (`LooseObjects.Truthy`, `LooseObjects.Present`).
  An error that the service catches and re-throws becomes
  `internalServer(`${error}`)` (`Outcomes.Rewrap`).
- Module `Scenarios` holds sequences of calls proved from the contracts alone:
  - register, validate the e-mail, log in, then log in with a wrong password;
  - validate an e-mail twice;
  - reset the password, then log in with the new and the old password;
  - save a reset code, then read it back.

Facts about the code that the model records:
- `sendResetPasswordLink` (src/presentation/services/account-service.ts:59-82) stores no reset code. It only issues and mails a ten-minute link token.
- Login raises distinct messages for an unknown e-mail and a wrong password (:43, :45), and wraps both as internal-server errors (:54-56).
- The e-mail format and password strength checks live in `AccountRegisterDto.create`, not in `registerUser`.

## Model

| member | source | states |
|---|---|---|
| `Outcomes.Describe` | src/presentation/services/account-service.ts:36 | the text of a thrown error is "Error: " followed by its message, which it ends with |
| `Outcomes.Rewrap` | src/presentation/services/account-service.ts:35-37 | an error caught in the `try` leaves as an internal-server error carrying the original message |
| `Guards.FirstFailure` | src/domain/dtos/auth/AccountRegisterDto.ts:14-20 | an ordered guard chain yields nothing exactly when every guard passes, and otherwise yields the message of the earliest failing guard |
| `Guards.LaterChecksIrrelevant` | src/domain/dtos/auth/AccountRegisterDto.ts:14-20 | guards after the first failing one never affect the outcome |
| `AccountRegisterDtos.Create` | src/domain/dtos/auth/AccountRegisterDto.ts:12-23 | exactly one of error and DTO is returned; the error is the first failure of name, lastname, email and password presence, then e-mail format, then password strength; the DTO carries the four fields unchanged and the clock's ISO time |
| `AccountRegisterDtos.RoleIgnored` | src/domain/dtos/auth/AccountRegisterDto.ts:13 | the `role` field never changes the outcome |
| `AccountRegisterDtos.MalformedEmailReportedFirst` | src/domain/dtos/auth/AccountRegisterDto.ts:19-20 | a present but malformed e-mail gives 'El correo no es válido' whatever the password |
| `AccountRegisterDtos.AcceptedExactly` | src/domain/dtos/auth/AccountRegisterDto.ts:14-22 | a DTO is produced if and only if all four fields are present and both patterns accept |
| `AccountLoginDtos.Create` | src/domain/dtos/auth/AccountLoginDto.ts:7-12 | exactly one of error and DTO; the error is the first of 'Missing email', 'Missing password' that applies; e-mail and password are copied unchanged |
| `AccountLoginDtos.MissingEmailReportedFirst` | src/domain/dtos/auth/AccountLoginDto.ts:9 | a missing or empty e-mail gives 'Missing email' regardless of the password |
| `AccountLoginDtos.AnyNonEmptyAccepted` | src/domain/dtos/auth/AccountLoginDto.ts:7-12 | any non-empty e-mail and password are accepted, with no format or strength check |
| `AccountEntities.FromObject` | src/domain/entities/AccountEntity.ts:15-31 | bad request with the first falsy field among id, email, password, created_at; otherwise every field copied, created_at as createdAt |
| `AccountEntities.OptionalFieldsNotRequired` | src/domain/entities/AccountEntity.ts:16-30 | removing name, lastname and email_validated never changes success or the error |
| `AccountEntities.FalsyRequiredFieldRejected` | src/domain/entities/AccountEntity.ts:25-28 | an empty string, 0, false or null in a required field is rejected as a bad request |
| `AccountRepository.Patched` | src/domain/repository/PrismaAccountRepository.ts:32-35 | a patch overwrites exactly the fields it names; id, email and created_at never change |
| `AccountRepository.AccountStore.constructor` | src/domain/repository/PrismaAccountRepository.ts:8 | the table starts empty, with the id counter at 1 |
| `AccountRepository.AccountStore.FindByEmail` | src/domain/repository/PrismaAccountRepository.ts:10-15 | returns the unique stored row with that e-mail, or null exactly when no row has it |
| `AccountRepository.AccountStore.Create` | src/domain/repository/PrismaAccountRepository.ts:17-28 | inserts a row with name, lastname, email, password and created_at from the DTO, a fresh id and email_validated false; a repeated e-mail is refused and changes nothing |
| `AccountRepository.AccountStore.UpdateEmailValidate` | src/domain/repository/PrismaAccountRepository.ts:30-40 | on a stored e-mail, only that row changes, by the patch, and it is returned; on a missing e-mail, null and the table is unchanged |
| `AccountRepository.AccountStore.UpdatePassword` | src/domain/repository/AccountRepository.ts:8 | only the password of the row with that id changes; every other row and field is kept |
| `AccountRepository.UpdateByIdIsUpdateAtKey` | src/presentation/services/account-service.ts:93-97 | with unique ids, updating by the found user's id changes only the row under that user's e-mail |
| `PasswordResetRepository.LatestValid` | src/domain/repository/PrismaPasswordResetRepository.ts:9-23 | the result belongs to the user, expires after now and is unused; its expiry is maximal among such rows; it is null exactly when no row qualifies |
| `PasswordResetRepository.NonQualifyingRowIgnored` | src/domain/repository/PrismaPasswordResetRepository.ts:11-17 | rows of other users, expired rows and used rows never change the selection |
| `PasswordResetRepository.AppendedRowCompetes` | src/domain/repository/PrismaPasswordResetRepository.ts:19-21 | a newly added qualifying row is chosen when it expires later than the current choice, and otherwise the choice stays |
| `PasswordResetRepository.ResetCodeStore.constructor` | src/domain/repository/PrismaPasswordResetRepository.ts:7 | the table starts empty |
| `PasswordResetRepository.ResetCodeStore.GetCode` | src/domain/repository/PrismaPasswordResetRepository.ts:9-23 | answers the latest valid code of the user and does not modify the table |
| `PasswordResetRepository.ResetCodeStore.SaveVerificationCode` | src/domain/repository/PrismaPasswordResetRepository.ts:25-41 | appends one unused row with the given code, user and expiry, leaving earlier rows untouched; a refused insert throws 'No se pudo guardar el código de verificación' and changes nothing |
| `AccountServices.EntityOfRow` | src/presentation/services/account-service.ts:46 | a stored row passes `fromObject` exactly when its id is non-zero and its e-mail and password are non-empty, and the account handed out is the row without its password |
| `AccountServices.AccountService.constructor` | src/presentation/services/account-service.ts:10-13 | the service is built over the given repository and adapters |
| `AccountServices.AccountService.RegisterUser` | src/presentation/services/account-service.ts:15-38 | a taken e-mail gives badRequest and leaves the rows and the id counter unchanged; otherwise the account is stored under the next id with hash(password) before the mail is sent and stays stored whatever fails later; later failures are internalServer; success exactly when every step succeeds, returning the stored row without password and the identity token |
| `AccountServices.AccountService.LoginUser` | src/presentation/services/account-service.ts:40-57 | reads only; an unknown e-mail or a non-matching password fails, and every failure is internalServer wrapping the badRequest; on success, returns the stored account without password and a token for its id and e-mail |
| `AccountServices.AccountService.SendResetPasswordLink` | src/presentation/services/account-service.ts:59-82 | reads only; an unknown e-mail gives badRequest, a missing ten-minute token or an unsent mail gives internalServer; otherwise true |
| `AccountServices.AccountService.ResetPassword` | src/presentation/services/account-service.ts:84-100 | the checks run in order: invalid token (unauthorized), weak password (badRequest, before any lookup), no e-mail claim (internalServer), unknown user (badRequest); any failure leaves the store unchanged; on success only that user's password changes, to hash(newPassword) |
| `AccountServices.AccountService.SendEmailValidationLink` | src/presentation/services/account-service.ts:102-121 | a missing token or an unsent mail gives internalServer, in that order; otherwise true |
| `AccountServices.AccountService.ValidateEmail` | src/presentation/services/account-service.ts:123-134 | invalid token gives unauthorized; a missing e-mail claim or an unknown user gives internalServer; otherwise only that account's email_validated becomes true and the result is true |
| `AccountServices.AccountService.ValidateToken` | src/presentation/services/account-service.ts:136-140 | succeeds with true exactly when the token verifies, otherwise unauthorized; reads nothing |
| `Scenarios.RegisterValidateLogin` | src/presentation/services/account-service.ts:15-57 | after registering, the account is unvalidated and the stored password is the hash; following the link validates it; the password then logs in and a wrong one is refused |
| `Scenarios.ValidateEmailTwice` | src/presentation/services/account-service.ts:123-134 | validating twice gives the same outcome both times, and leaves the store as one validation does |
| `Scenarios.ResetThenLogin` | src/presentation/services/account-service.ts:84-100 | after a successful reset the new password logs in and the old one is refused |
| `Scenarios.SaveThenGet` | src/domain/repository/PrismaPasswordResetRepository.ts:9-41 | a saved unexpired code makes `getCode` answer with a row of that user expiring no earlier |

## Left out

- `AccountServices.AccountService.RegisterUser`: the `account == null` check (src/presentation/services/account-service.ts:23) has no branch in the model. `create` returns the row or throws. The unique constraint cannot fire here, because the check at :16 has just found the e-mail absent in this sequential model.
- `AccountServices.AccountService.RegisterUser`: the source overwrites the caller's DTO password with the hash (:20). The model works on values, so the caller's DTO is not changed.
- `AccountRepository.AccountStore.UpdatePassword`: `PrismaAccountRepository` does not define `updatePassword`, though the service calls it (:97). It is modelled from the abstract signature as an update by id. An id that no row has changes nothing; a Prisma update would throw there. The service only passes the id of a row it has just found.
- `AccountRepository.AccountStore.UpdateEmailValidate`: a patch that changes `id`, `email` or `created_at` is not modelled. The service passes only `email_validated`.
- `AccountRepository.AccountStore.Create`: the text of the unique-constraint error is a placeholder. Database failures other than a repeated e-mail are not modelled, such as a lost connection in `findByEmail`, `create` or `update`.
- `PasswordResetRepository.LatestValid`: among rows with equal expiry, the model takes the earliest inserted. The database leaves that order unspecified. Nothing in this code sets `used`.
- `PasswordResetRepository.ResetCodeStore.SaveVerificationCode`: whether the database accepts the insert is the parameter `accepted`.
- `Outcomes.Describe`: `CustomError` is not part of this model. Its `${error}` text is taken to be JavaScript's default "Error: " followed by the message.
- The bcrypt adapter is modelled as uninterpreted functions. Real bcrypt salts each hash, so two hashes of one password differ; the model's hash is a fixed function. Beyond a password matching its own hash, nothing is assumed. In particular, nothing says a hash differs from the plaintext.
- The JWT adapter is modelled as uninterpreted functions. Signing takes the claims and the expiry (`DefaultTtl`, or "10m" for the reset link). Verification is a pure function of the token, so expiry is folded into it, and no time passes between calls in `Scenarios`.
- The e-mail and password regular expressions of the configuration module are uninterpreted predicates.
- E-mail delivery (`EmailService`) is the boolean parameter `delivered`. The HTML bodies and link texts are presentation and are not modelled.
- Clock reads (`new Date()`) become the parameter `now`.
- Request bodies are maps from field names to strings. A truthy non-string JSON value (a number, `true`, an object) passes the presence checks in the source; such values are not modelled. Numbers are integers, and NaN is not modelled.
- Id types differ in the source: `AccountEntity` declares `id` as a string, and the repositories use numbers. The entity keeps whatever value it is given, here a number.
- The HTTP controller and routes (src/presentation/auth/AuthController.ts, src/presentation/auth/AuthRoutes.ts) are request wiring and status-code mapping. They are not modelled. The controller calls `verifyResetCode` (AuthController.ts:62), which the service does not define and no route uses, so no code-verification flow is modelled beyond `getCode`.
- Process start-up (src/app.ts) and the per-repository `PrismaClient` instances are not modelled. Neither are concurrent requests: the database's uniqueness constraint decides registration races, and that lies outside a sequential model.
