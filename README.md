# DbetsServer user core, modelled in Dafny

DbetsServer is a betting-journal backend. This model covers its user core.

- **Transactions.** A request-scoped `UnitOfWork` holds at most one open transaction. Three command handlers drive it:
  - `LoginUserCommandHandler` validates the request, runs the account checks, counts failed attempts with a 5-attempt / 30-minute lockout, and never throws.
  - `CreateUserCommandHandler` accumulates validation errors, refuses a duplicate e-mail, commits and then publishes, and rethrows after a rollback attempt.
  - `ConfirmEmailCommandHandler` rejects bad tokens in a fixed order, and four of its rejections leave the transaction open.
- **User store.** `UserRepository` is an in-memory `users` and `email_confirmations` table. Its operations follow the SQL `WHERE` and `SET` clauses of the source: soft delete, reads that skip deleted rows, and updates matched on id alone.
- **Confirmation lifecycle.** The `UserRegisteredEventHandler` stores a confirmation token. The token expires 24 hours later and can be used once.
- **Domain rules.**
  - The `User` aggregate, with its factory and mutators.
  - `Bet`, whose total odds are the product of its detail odds rounded half-to-even to three places.
  - `BalanceHistory`, where the balance after is the balance before plus the amount.
- **Password storage.** `PasswordHasher` stores base64 of salt(16) ‖ PBKDF2 key(32), using the base64 of section 4 of RFC 4648.
- **Bearer tokens.** The JWT middleware extracts `Authorization: Bearer` tokens as in section 2.1 of RFC 6750.

How the model is built:

- **Files.** There is one module per source file: `Data` (unit of work), `Repository`, `Users`, `Login`, `CreateUser`, `ConfirmEmail`, `Registration`, `Bets`, `Balances`, `Passwords`, `Base64` and `Authentication`. `Common` holds the shared vocabulary.
- **Classes.** Objects whose fields the source overwrites are Dafny classes: the unit of work, the repository, `User`, `Bet`, the handlers, the HTTP context and the publisher. Values are datatypes.
- **Failures.** A call into the database driver can throw. Such a call takes a `fails` flag, and each handler takes the set of its calls that throw. Every error path is therefore a reachable case of the contract.
- **Foreign code.** These are parameters: PBKDF2, the random salt, `Guid.NewGuid`, `DateTime.UtcNow` (a `now` argument), `MailAddress` (the `isValidEmail` function), the JWT handler, the token service and date formatting.

## Model

| member | source | states |
|---|---|---|
| Data.UnitOfWork.constructor | src/Dbets.Infrastructure/Data/UnitOfWork.cs:12-23 | a new unit of work has no connection, no transaction and is not disposed |
| Data.UnitOfWork.GetConnection | src/Dbets.Infrastructure/Data/UnitOfWork.cs:28-43 | the connection is created at most once, later calls return the same instance, and it is (re)opened when not open; a failing Open leaves it unopened and throws |
| Data.UnitOfWork.Begin | src/Dbets.Infrastructure/Data/UnitOfWork.cs:53-62 | with a transaction open it throws "Uma transação já está ativa." and leaves the transaction and connection untouched; from Idle it succeeds exactly when opening (if needed) and starting succeed, giving a fresh pending transaction, and a failure is an open or begin fault |
| Data.UnitOfWork.Commit | src/Dbets.Infrastructure/Data/UnitOfWork.cs:67-84 | with no transaction it throws InvalidOperation and changes nothing; otherwise the transaction is committed (or the commit throws) and is then disposed and cleared either way |
| Data.UnitOfWork.Rollback | src/Dbets.Infrastructure/Data/UnitOfWork.cs:89-106 | with no transaction it throws InvalidOperation and changes nothing; otherwise the transaction is rolled back (or that throws) and is then disposed and cleared either way |
| Data.UnitOfWork.SaveChanges | src/Dbets.Infrastructure/Data/UnitOfWork.cs:112-119 | returns 0 and changes no state |
| Data.UnitOfWork.Dispose | src/Dbets.Infrastructure/Data/UnitOfWork.cs:124-138 | the first call disposes the transaction and connection present; a second call changes nothing |
| Data.Open | src/Dbets.Infrastructure/Data/UnitOfWork.cs:35-39 | opening a connection either opens it or throws an open fault leaving it as it was |
| Data.BeginCommitBegin | src/Dbets.Infrastructure/Data/UnitOfWork.cs:55-104 | the unit of work is reusable: after a Begin and a Commit (even a failing one) or a Rollback, Begin succeeds again |
| Repository.ThemeColumn | src/Dbets.Infrastructure/Data/Repositories/UserRepository.cs:62-78 | the stored theme text is the lower-cased enum name |
| Repository.ParseTheme | src/Dbets.Infrastructure/Data/Repositories/UserRepository.cs:28-31 | the theme text, in any letter case, maps back to the enum member of that name, or to none |
| Repository.ThemeRoundTrip | src/Dbets.Infrastructure/Data/Repositories/UserRepository.cs:62-78 | a stored theme reads back as the same theme |
| Repository.FindFirst | src/Dbets.Infrastructure/Data/Repositories/UserRepository.cs:28-31 | QueryFirstOrDefault: the index of the first matching row, and none only when no row matches |
| Repository.UserById | src/Dbets.Infrastructure/Data/Repositories/UserRepository.cs:19-31 | the row found has that id and is not soft-deleted; none exactly when no live row has that id |
| Repository.UserByEmail | src/Dbets.Infrastructure/Data/Repositories/UserRepository.cs:36-48 | the row found has that e-mail and is not soft-deleted; none exactly when no live row has that e-mail |
| Repository.ConfirmationByToken | src/Dbets.Infrastructure/Data/Repositories/UserRepository.cs:134-143 | filters on the token only, whatever its expiry or confirmed state |
| Repository.UpdateWhere | src/Dbets.Infrastructure/Data/Repositories/UserRepository.cs:90-116 | every row with the id (deleted or not) gets the listed columns and updated_at = now; created_at, deleted_at and every other row are unchanged |
| Repository.SoftDeleteWhere | src/Dbets.Infrastructure/Data/Repositories/UserRepository.cs:121-129 | rows with the id get deleted_at and updated_at = now and are kept; other rows are unchanged |
| Repository.MarkUsedWhere | src/Dbets.Infrastructure/Data/Repositories/UserRepository.cs:148-156 | rows with the token become confirmed with confirmed_at = now; other rows are unchanged |
| Repository.Stored | src/Dbets.Infrastructure/Data/Repositories/UserRepository.cs:28-48 | what a lookup yields: nothing for no row; a mapping fault exactly when the row's theme text names no enum member; else a user whose every field is the row's column, the theme parsed from its text |
| Repository.Read | src/Dbets.Infrastructure/Data/Repositories/UserRepository.cs:28-48 | the mapped user is a fresh object whose state is the row's data and which has raised no events |
| Repository.UserRepository.GetById | src/Dbets.Infrastructure/Data/Repositories/UserRepository.cs:17-32 | reads the first live row with the id; a driver fault is reported as such; the tables are unchanged |
| Repository.UserRepository.GetByEmail | src/Dbets.Infrastructure/Data/Repositories/UserRepository.cs:34-49 | reads the first live row with the e-mail; a driver fault is reported as such; the tables are unchanged |
| Repository.UserRepository.Create | src/Dbets.Infrastructure/Data/Repositories/UserRepository.cs:51-86 | appends the user's row (deleted_at unset) and returns the user's own id, or throws and inserts nothing |
| Repository.UserRepository.Update | src/Dbets.Infrastructure/Data/Repositories/UserRepository.cs:88-117 | the users table becomes UpdateWhere of the user at now, or is unchanged when the statement throws |
| Repository.UserRepository.Delete | src/Dbets.Infrastructure/Data/Repositories/UserRepository.cs:119-130 | the users table becomes SoftDeleteWhere of the id at now, or is unchanged when the statement throws |
| Repository.UserRepository.GetConfirmation | src/Dbets.Infrastructure/Data/Repositories/UserRepository.cs:132-144 | returns the first confirmation with the token, or a fault; nothing changes |
| Repository.UserRepository.MarkUsed | src/Dbets.Infrastructure/Data/Repositories/UserRepository.cs:146-157 | the confirmations table becomes MarkUsedWhere of the token at now, or is unchanged on a fault |
| Repository.UserRepository.CreateConfirmation | src/Dbets.Infrastructure/Data/Repositories/UserRepository.cs:159-178 | appends one unconfirmed confirmation with the given user, token and expiry, created now, or throws and appends nothing |
| Repository.DeletedUserIsNotFound | src/Dbets.Infrastructure/Data/Repositories/UserRepository.cs:119-130 | a soft delete keeps every row, yet a later lookup by that id finds nothing |
| Repository.UpdateReachesDeletedRows | src/Dbets.Infrastructure/Data/Repositories/UserRepository.cs:97 | an update also overwrites a soft-deleted row with that id, keeping its deleted_at |
| Repository.UpdateKeepsLiveness | src/Dbets.Infrastructure/Data/Repositories/UserRepository.cs:92-97 | an update never makes a user appear or disappear for lookups by id |
| Repository.ReadAfterUpdate | src/Dbets.Infrastructure/Data/Repositories/UserRepository.cs:17-117 | after updating a live user, a lookup by id reads back the written user with the old created_at and updated_at = now |
| Repository.ReadAfterInsert | src/Dbets.Infrastructure/Data/Repositories/UserRepository.cs:17-86 | after inserting a user with a fresh id, a lookup by id finds the inserted row, which reads back as that user |
| Repository.InsertedConfirmationIsFound | src/Dbets.Infrastructure/Data/Repositories/UserRepository.cs:132-178 | a confirmation inserted under a fresh token is found by that token, unconfirmed and with its expiry |
| Repository.MarkedConfirmationIsConfirmed | src/Dbets.Infrastructure/Data/Repositories/UserRepository.cs:132-157 | after marking a token used, the lookup by token finds it confirmed with confirmed_at = now |
| Repository.UpdateTwice | src/Dbets.Infrastructure/Data/Repositories/UserRepository.cs:88-117 | two updates of the same user at the same instant leave what the second alone leaves |
| Users.ThemeName | src/Dbets.Domain/Enums/AllEnums.cs:3 | the theme's name is already lower case |
| Users.User.FromData | src/Dbets.Infrastructure/Data/Repositories/UserRepository.cs:28-31 | a user materialised from a row has exactly the row's data and no events |
| Users.User.Blank | src/Dbets.Domain/Aggregates/User.cs:27 | the base constructor gives the new id and created_at and leaves the rest unset (assumed base-class behaviour) |
| Users.User.RaiseEvent | src/Dbets.Domain/Aggregates/User.cs:43 | appends one event and changes no property (assumed base-class behaviour) |
| Users.User.Create | src/Dbets.Domain/Aggregates/User.cs:30-45 | the new user has the given name, e-mail and hash, is active and unconfirmed, has no failed logins, the light theme, and exactly one UserCreated event carrying its id, name and e-mail |
| Users.User.UpdateProfile | src/Dbets.Domain/Aggregates/User.cs:47-52 | sets name and phone (none clears it) and updated_at = now; nothing else changes |
| Users.User.ConfirmEmail | src/Dbets.Domain/Aggregates/User.cs:54-58 | sets EmailConfirmed whatever it was, and updated_at = now; nothing else changes |
| Users.User.MarkAsDeleted | src/Dbets.Domain/Aggregates/User.cs:63 | stamps deleted_at (assumed base-class behaviour) |
| Users.User.Deactivate | src/Dbets.Domain/Aggregates/User.cs:60-64 | clears Active and stamps deleted_at; nothing else changes |
| Users.User.IncrementLoginAttempts | src/Dbets.Application/Commands/Users/LoginUserCommand/LoginUserCommandHandler.cs:167 | adds one failed attempt (assumed contract) |
| Users.User.LockAccount | src/Dbets.Application/Commands/Users/LoginUserCommand/LoginUserCommandHandler.cs:171-174 | sets LockedUntil (assumed contract) |
| Users.User.ResetLoginAttempts | src/Dbets.Application/Commands/Users/LoginUserCommand/LoginUserCommandHandler.cs:197 | zeroes the attempts and clears LockedUntil (assumed contract) |
| Users.User.UpdateLastLogin | src/Dbets.Application/Commands/Users/LoginUserCommand/LoginUserCommandHandler.cs:85 | records now as the last login (assumed contract) |
| Users.User.Validate | src/Dbets.Domain/Aggregates/User.cs:66-73 | reports no errors |
| Login.ValidateRequest | src/Dbets.Application/Commands/Users/LoginUserCommand/LoginUserCommandHandler.cs:125-143 | succeeds exactly for a non-blank e-mail, a non-blank password and a well-formed e-mail; otherwise the first failure in the order blank e-mail, blank password, bad format |
| Login.AccountCheck | src/Dbets.Application/Commands/Users/LoginUserCommand/LoginUserCommandHandler.cs:46-76 | the verdict is, in order: no user, deactivated, locked (LockedUntil strictly after now), wrong password, accepted; each as an if-and-only-if on the user and the password check |
| Login.AfterFailedAttempt | src/Dbets.Application/Commands/Users/LoginUserCommand/LoginUserCommandHandler.cs:165-175 | one more attempt; from the fifth the lock is set to now + 30 minutes; nothing else changes |
| Login.AfterLogin | src/Dbets.Application/Commands/Users/LoginUserCommand/LoginUserCommandHandler.cs:193-201 | the last login is now; attempts and lock are cleared when either is set, and otherwise left alone |
| Login.FailuresAccumulate | src/Dbets.Application/Commands/Users/LoginUserCommand/LoginUserCommandHandler.cs:158-177 | n failures add n attempts; below five the lock is untouched, from five it runs to 30 minutes after the last failure |
| Login.FifthFailureLocksOut | src/Dbets.Application/Commands/Users/LoginUserCommand/LoginUserCommandHandler.cs:158-177 | five failures on a clean account lock it: a login within the next 30 minutes is refused as locked, before the password is checked |
| Login.AfterFailedAttemptsKeepsActive | src/Dbets.Application/Commands/Users/LoginUserCommand/LoginUserCommandHandler.cs:158-177 | counting failures never changes Active, the hash or the identity |
| Login.FourFailuresDoNotLock | src/Dbets.Application/Commands/Users/LoginUserCommand/LoginUserCommandHandler.cs:158-177 | four failures on an unlocked account leave it unlocked, so the right password is still accepted |
| Login.LoginUserCommandHandler.Handle | src/Dbets.Application/Commands/Users/LoginUserCommand/LoginUserCommandHandler.cs:32-123 | per path: a validation failure, an unknown e-mail, a deactivated or locked account return their answers and write nothing; a wrong password counts the attempt and answers "Credenciais inválidas." as an unknown e-mail does; success resets, stamps and commits before issuing the tokens; any fault, including a failing reset write, yields "Erro interno do servidor." and the users table holds exactly the writes made before it; a unit of work idle on entry is idle on return |
| Login.LoginUserCommandHandler.CompleteLogin | src/Dbets.Application/Commands/Users/LoginUserCommand/LoginUserCommandHandler.cs:79-106 | Begin, reset and last-login update, Commit, then tokens; the stored row is AfterLogin of the user once both writes ran, even if the commit or token issuing then fails; a failing reset write leaves the table unchanged and a failing last-login write leaves only the reset; every fault answers "Erro interno do servidor." |
| Login.LoginUserCommandHandler.RecordLogin | src/Dbets.Application/Commands/Users/LoginUserCommand/LoginUserCommandHandler.cs:82-86 | the user becomes AfterLogin of its old state and that is what the users table holds; a reset write that throws fails with the table unchanged; a last-login write that throws fails with only the reset written |
| Login.LoginUserCommandHandler.Recover | src/Dbets.Application/Commands/Users/LoginUserCommand/LoginUserCommandHandler.cs:112-119 | a rollback attempt whose failure is swallowed; no transaction remains |
| Login.LoginUserCommandHandler.IncrementLoginAttempts | src/Dbets.Application/Commands/Users/LoginUserCommand/LoginUserCommandHandler.cs:158-191 | in its own transaction the failed attempt is counted and written; any fault is swallowed after a rollback attempt; no transaction is left open |
| Login.LoginUserCommandHandler.ResetLoginAttempts | src/Dbets.Application/Commands/Users/LoginUserCommand/LoginUserCommandHandler.cs:193-201 | writes a reset only when attempts are positive or a lock is set |
| CreateUser.CommandErrors | src/Dbets.Application/Commands/Users/CreateUserCommand/CreateUserCommandHandler.cs:101-123 | no error exactly for a valid command; errors come in the order name, e-mail, password, timezone, currency, so at most one per field |
| CreateUser.CommandErrorsExact | src/Dbets.Application/Commands/Users/CreateUserCommand/CreateUserCommandHandler.cs:106-123 | each error is present exactly when its check fails; blank and malformed e-mail exclude each other, as do blank and short password |
| CreateUser.Messages | src/Dbets.Application/Commands/Users/CreateUserCommand/CreateUserCommandHandler.cs:127 | the messages of the errors, in order |
| CreateUser.RegisteredData | src/Dbets.Application/Commands/Users/CreateUserCommand/CreateUserCommandHandler.cs:57-63 | the stored user is User.Create's, with the phone and updated_at set only when the phone is not blank; the timezone and currency play no part |
| CreateUser.Publisher.Publish | src/Dbets.Application/Commands/Users/CreateUserCommand/CreateUserCommandHandler.cs:72 | publishes the event or throws and publishes nothing |
| CreateUser.CreateUserCommandHandler.ValidateCommand | src/Dbets.Application/Commands/Users/CreateUserCommand/CreateUserCommandHandler.cs:101-132 | passes for a valid command, else throws ValidationException("Dados inválidos: " + the messages joined by ", ") |
| CreateUser.CreateUserCommandHandler.Handle | src/Dbets.Application/Commands/Users/CreateUserCommand/CreateUserCommandHandler.cs:34-99 | validation, lookup faults, a duplicate e-mail and a failed Begin throw before anything is written; otherwise the user row is inserted, committed and exactly one UserRegisteredEvent published; a publish failure leaves the row committed; every error is the one thrown, rethrown after a rollback attempt; an idle unit of work ends idle |
| CreateUser.CreateUserCommandHandler.Register | src/Dbets.Application/Commands/Users/CreateUserCommand/CreateUserCommandHandler.cs:53-81 | hash, build, insert, commit, publish: the table gains the registered row unless the insert throws, the event is published only after a commit, and the result holds the new id, name, e-mail and EmailConfirmed = false |
| CreateUser.CreateUserCommandHandler.Recover | src/Dbets.Application/Commands/Users/CreateUserCommand/CreateUserCommandHandler.cs:87-95 | a rollback attempt whose failure is swallowed; no transaction remains |
| CreateUser.RegisteredUserCanLogIn | src/Dbets.Application/Commands/Users/CreateUserCommand/CreateUserCommandHandler.cs:54-57 | the stored user of a valid registration passes every login check with the password it registered |
| CreateUser.RegisteredUserIsFound | src/Dbets.Application/Commands/Users/CreateUserCommand/CreateUserCommandHandler.cs:66 | the inserted row is what a lookup by the new id finds, read back as the registered user |
| ConfirmEmail.TokenCheck | src/Dbets.Application/Commands/Users/ConfirmEmailCommand/ConfirmEmailCommandHandler.cs:36-54 | rejects, in order, an unknown token, a used token, and a token whose expiry is strictly before now; passes exactly an unused, unexpired token |
| ConfirmEmail.Confirmed | src/Dbets.Application/Commands/Users/ConfirmEmailCommand/ConfirmEmailCommandHandler.cs:66 | the confirmed user differs only in EmailConfirmed = true and updated_at = now |
| ConfirmEmail.ConfirmEmailCommandHandler.Handle | src/Dbets.Application/Commands/Users/ConfirmEmailCommand/ConfirmEmailCommandHandler.cs:24-97 | Begin comes first; the four rejections return with the new transaction still open and nothing written; success writes the confirmed user, marks the token used, commits and returns the user's id; each write holds unless it or an earlier one threw; any fault answers "Erro interno do servidor." with no transaction left |
| ConfirmEmail.ConfirmEmailCommandHandler.ConfirmUser | src/Dbets.Application/Commands/Users/ConfirmEmailCommand/ConfirmEmailCommandHandler.cs:65-79 | update, then mark, then commit: each write holds unless it or an earlier one threw; no transaction remains |
| ConfirmEmail.ConfirmEmailCommandHandler.Recover | src/Dbets.Application/Commands/Users/ConfirmEmailCommand/ConfirmEmailCommandHandler.cs:86-93 | a rollback attempt whose failure is swallowed; no transaction remains |
| ConfirmEmail.NewTokenUsableFor24Hours | src/Dbets.Application/EventHandlers/Users/UserRegisteredEventHandler.cs:34-41 | a newly stored token passes the token checks until 24 hours after its creation and is refused as expired after that |
| ConfirmEmail.SecondConfirmationRefused | src/Dbets.Application/Commands/Users/ConfirmEmailCommand/ConfirmEmailCommandHandler.cs:43-72 | once marked used, a token is refused as already confirmed at any later time |
| ConfirmEmail.ConfirmTwice | src/Dbets.Application/Commands/Users/ConfirmEmailCommand/ConfirmEmailCommandHandler.cs:43-47 | two confirmations of one token, each with its own unit of work: if the first succeeds the second answers "Email já foi confirmado anteriormente." |
| Registration.UserRegisteredEventHandler.Handle | src/Dbets.Application/EventHandlers/Users/UserRegisteredEventHandler.cs:25-54 | stores exactly one unconfirmed confirmation for the user, expiring at now + 24 hours, or nothing when the insert throws; never throws and never touches the unit of work |
| Bets.NewBetDetail | src/Dbets.Domain/Entities/BetDetail.cs:19-28 | the detail carries the given game, market, selection and odd, no bet id and no result |
| Bets.AggregateIsProduct | src/Dbets.Domain/Aggregates/Bet.cs:62 | the left fold from an accumulator equals the accumulator times the product of the odds |
| Bets.ProductOfConcat | src/Dbets.Domain/Aggregates/Bet.cs:62 | the product over two detail lists is the product of their products |
| Bets.RoundHalfEven | src/Dbets.Domain/Aggregates/Bet.cs:63 | the nearest integer, and the even one on a tie |
| Bets.Round3 | src/Dbets.Domain/Aggregates/Bet.cs:63 | Math.Round(x, 3) is a multiple of 0.001 within half a thousandth of x, and on a tie its last digit is even |
| Bets.RoundKeepsIntegers | src/Dbets.Domain/Aggregates/Bet.cs:63 | rounding an integer gives that integer |
| Bets.Round3Idempotent | src/Dbets.Domain/Aggregates/Bet.cs:63 | rounding to three places twice equals rounding once |
| Bets.Bet.Init | src/Dbets.Domain/Aggregates/Bet.cs:33-41 | the new bet has the given user, bookmaker, bet type and stake, date now, status Pending and no details |
| Bets.Bet.Create | src/Dbets.Domain/Aggregates/Bet.cs:31-53 | throws ArgumentException("A bet must have at least one detail.") exactly for no details; otherwise the bet is Pending with the given fields, its details are the input in order, and its total odds are Round3 of their product |
| Bets.Bet.AddDetail | src/Dbets.Domain/Aggregates/Bet.cs:55-58 | appends the detail and leaves the total odds and every other field as they were |
| Bets.Bet.CalculateTotalOdds | src/Dbets.Domain/Aggregates/Bet.cs:60-64 | the total odds become the product of the detail odds rounded half-to-even to three places |
| Bets.Bet.Validate | src/Dbets.Domain/Aggregates/Bet.cs:66-74 | reports no errors |
| Balances.Create | src/Dbets.Domain/Entities/BalanceHistory.cs:20-31 | every field is copied and the balance after is the balance before plus the amount; description and bet id default to none |
| Balances.BalanceIgnoresType | src/Dbets.Domain/Entities/BalanceHistory.cs:28 | the balance after is the same for every transaction type, with no sign flip for withdrawals or stakes |
| Balances.ReplayChains | src/Dbets.Domain/Entities/BalanceHistory.cs:28 | in a run of entries, each starts from the previous one's balance after, and the last ends at the start plus the sum of the amounts |
| Balances.Validate | src/Dbets.Domain/Entities/BalanceHistory.cs:34-37 | reports no errors |
| Base64.DigitChar | src/Dbets.Infrastructure/Services/PasswordHasher.cs:40 | an alphabet character is never padding or skipped white space |
| Base64.DigitValue | src/Dbets.Infrastructure/Services/PasswordHasher.cs:54 | a decoded character is the alphabet character of its value |
| Base64.DigitRoundTrip | src/Dbets.Infrastructure/Services/PasswordHasher.cs:40-54 | every 6-bit value decodes back from its character |
| Base64.JoinSplit | src/Dbets.Infrastructure/Services/PasswordHasher.cs:40-54 | splitting three bytes into four digits and joining them gives the bytes back |
| Base64.Encode | src/Dbets.Infrastructure/Services/PasswordHasher.cs:40 | the text is a multiple of four long, one group exactly for one to three bytes, empty exactly for no bytes |
| Base64.Unspaced | src/Dbets.Infrastructure/Services/PasswordHasher.cs:54 | the text without skipped white space; unchanged when there is none |
| Base64.Decode | src/Dbets.Infrastructure/Services/PasswordHasher.cs:54 | text whose length without white space is not a multiple of four is refused |
| Base64.GroupRoundTrip | src/Dbets.Infrastructure/Services/PasswordHasher.cs:40-54 | one full group decodes to its three bytes |
| Base64.EncodeHasNoSkipped | src/Dbets.Infrastructure/Services/PasswordHasher.cs:40 | encoded text holds no white space |
| Base64.OneByteRoundTrip | src/Dbets.Infrastructure/Services/PasswordHasher.cs:40-54 | a one-byte encoding ("xx==") decodes to that byte |
| Base64.TwoBytesRoundTrip | src/Dbets.Infrastructure/Services/PasswordHasher.cs:40-54 | a two-byte encoding ("xxx=") decodes to those bytes |
| Base64.ShortRoundTrip | src/Dbets.Infrastructure/Services/PasswordHasher.cs:40-54 | a padded final group decodes to its one or two bytes |
| Base64.ConsGroup | src/Dbets.Infrastructure/Services/PasswordHasher.cs:40-54 | a full group in front decodes to its bytes in front of the rest |
| Base64.GroupsRoundTrip | src/Dbets.Infrastructure/Services/PasswordHasher.cs:40-54 | the groups of an encoding decode to the bytes |
| Base64.EncodedLength | src/Dbets.Infrastructure/Services/PasswordHasher.cs:40 | four characters per started group of three bytes |
| Base64.RoundTrip | src/Dbets.Infrastructure/Services/PasswordHasher.cs:40-54 | decoding an encoding gives the bytes back |
| Passwords.FixedTimeEquals | src/Dbets.Infrastructure/Services/PasswordHasher.cs:77 | true exactly for equal byte sequences |
| Passwords.HashPassword | src/Dbets.Infrastructure/Services/PasswordHasher.cs:14-41 | throws ArgumentException exactly for an empty password; otherwise 64 characters of text that decode to the salt followed by the derived key |
| Passwords.VerifyPassword | src/Dbets.Infrastructure/Services/PasswordHasher.cs:43-83 | false for an empty password or stored hash, for malformed base64 and for a decoded length other than 48 |
| Passwords.StoredForm | src/Dbets.Infrastructure/Services/PasswordHasher.cs:35-40 | a 48-byte blob encodes to 64 characters that decode back to it |
| Passwords.VerifyIffKeyMatches | src/Dbets.Infrastructure/Services/PasswordHasher.cs:54-77 | a stored salt ‖ key verifies a password exactly when the password's derived key under that salt equals the key |
| Passwords.HashThenVerify | src/Dbets.Infrastructure/Services/PasswordHasher.cs:14-77 | a hash of a non-empty password verifies that password |
| Passwords.WrongLengthRefused | src/Dbets.Infrastructure/Services/PasswordHasher.cs:57-58 | the encoding of a blob that is not 48 bytes verifies no password |
| Authentication.ExtractTokenFromHeader | src/Dbets.Api/Middlewares/JwtAuthenticationMiddleware.cs:43-56 | none for a missing or empty header; a token exactly when the header starts with "Bearer " in any case; the token has no white space at either end |
| Authentication.BearerRoundTrip | src/Dbets.Api/Middlewares/JwtAuthenticationMiddleware.cs:50-53 | "Bearer " in any case followed by a trimmed token yields that token |
| Authentication.SchemeWithoutSpaceRefused | src/Dbets.Api/Middlewares/JwtAuthenticationMiddleware.cs:50-55 | "Bearer" not followed by a space yields no token |
| Authentication.ValidateToken | src/Dbets.Api/Middlewares/JwtAuthenticationMiddleware.cs:58-91 | a principal exactly when a secret key is configured, the handler validates the token and the validated token is a JWT whose alg is HS256 in any case |
| Authentication.JwtAuthenticationMiddleware.InvokeAsync | src/Dbets.Api/Middlewares/JwtAuthenticationMiddleware.cs:20-41 | calls the next delegate exactly once; replaces the user only for a non-empty token that validates, and keeps it otherwise |
| Authentication.Next | src/Dbets.Api/Middlewares/JwtAuthenticationMiddleware.cs:40 | the next delegate is called once and, as far as this model sees, changes nothing else |

## Left out

- Mediator dispatch and pipeline behaviours are not part of this model. `Publish` only records the event: the registration handler is not invoked from it, and each handler is modelled on its own.
- The SQL database is an in-memory table. A rollback clears the transaction but does not undo writes already applied to the tables. Repository calls do not go through the unit of work's connection or transaction.
- Real connection opening, the connection string and the Npgsql driver are reduced to the `fails` flags.
- The base-class members of `User` (`Id`, `CreatedAt`, `UpdatedAt`, `DeletedAt`, `RaiseEvent`, `MarkAsDeleted`) and the login bookkeeping methods (`IncrementLoginAttempts`, `LockAccount`, `ResetLoginAttempts`, `UpdateLastLogin`) are declared in files that are not part of this model. They carry the smallest contract their names imply.
- `User.cs:40` writes `Theme.Light`, while `AllEnums.cs:3` declares the members `light` and `dark`. The model has one light value and stores its declared name, "light".
- Repository.ParseTheme: Dapper's enum mapping also accepts numeric text and other forms Enum.Parse allows; only the two names, in any ASCII letter case, are modelled.
- Login.LoginUserCommandHandler.Handle: the date format of the lock message (`dd/MM/yyyy HH:mm`) is a parameter function, and the tokens come from parameters for the token service.
- Bets and Balances: `decimal` precision and overflow are not modelled; amounts and odds are reals.
- Async execution, cancellation tokens and logging are left out. Every await is sequential.
- The generated id column of `email_confirmations` is not modelled.
- Repository.UserRepository.Create and Repository.UserRepository.CreateConfirmation: the tables carry no unique-key rule. An insert appends even when the id or token is already present; a unique-key violation is one of the causes the `fails` flag stands for.
- Null strings are not modelled. `string.IsNullOrEmpty` is the test for "" and `IsNullOrWhiteSpace` the test for all-white-space text; an absent phone is `None`.
- CreateUser.CommandErrors: `Password.Length` counts UTF-16 code units; the model counts characters.
- Base64.Decode: .NET's decoder is modelled for the four white-space characters it skips and for padding only at the end. Rarer inputs, such as padding followed by white space, are not treated specially.
- Authentication.ExtractTokenFromHeader: the case-insensitive comparisons fold ASCII letters only.
- The following foreign code is parameters: PBKDF2, the random generator, `MailAddress` (the `isValidEmail` function of both handlers), `JwtSecurityTokenHandler`, `IJwtService`, `Guid.NewGuid` and `DateTime.UtcNow`. Each `UtcNow` read in one call is the same `now`.
- The order of calls on collaborators is not recorded as a trace. It shows in the state each failure leaves behind. Examples: a commit fault leaves the row written but nothing published, and a token failure after the login commit leaves the login stamped.
- Login.LoginUserCommandHandler.Handle: the model follows the code when the unit of work already holds a transaction on entry. Begin throws, and the catch block rolls back the caller's transaction. Each request has its own unit of work, so this happens only on misuse.
