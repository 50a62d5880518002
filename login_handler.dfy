/**
 * LoginUserCommandHandler.cs: validates the request, runs the account checks
 * in a fixed order, counts failed attempts in a transaction of their own
 * (five failures lock the account for thirty minutes), and on success resets
 * the count, stamps the last login, commits and issues tokens. Handle never
 * throws: an exception anywhere ends in a rollback attempt, whose own failure
 * is ignored, and a generic error answer.
 *
 * Password verification, e-mail parsing, token issuing and date formatting
 * are parameters. `faults` names the collaborator calls that throw.
 */
module Login {
  import opened Common
  import opened Data
  import opened Users
  import opened Repository

  const EmailRequiredMessage := "E-mail é obrigatório."
  const PasswordRequiredMessage := "Senha é obrigatória."
  const InvalidEmailFormatMessage := "Formato de e-mail inválido."
  const ValidationPassedMessage := "Validação bem-sucedida."
  const InvalidCredentialsMessage := "Credenciais inválidas."
  const AccountDeactivatedMessage := "Conta desativada."
  const LoginSucceededMessage := "Login realizado com sucesso."
  const InternalErrorMessage := "Erro interno do servidor."

  const MaxAttempts := 5
  const LockoutMinutes := 30

  function LockedMessage(until: string): string {
    "Conta bloqueada até " + until + "."
  }

  datatype LoginUserCommand = LoginUserCommand(email: string, password: string)

  datatype LoginUserResult = LoginUserResult(
    success: bool,
    message: string,
    accessToken: Option<string>,
    refreshToken: Option<string>,
    userId: Option<Guid>,
    userName: Option<string>,
    userEmail: Option<string>,
    emailConfirmed: Option<bool>)

  /** A result carrying only the flag and the message. */
  function Answer(success: bool, message: string): LoginUserResult {
    LoginUserResult(success, message, None, None, None, None, None, None)
  }

  /** The result of a successful login for the user as it stands after the login. */
  function Welcome(d: UserData, accessToken: string, refreshToken: string): LoginUserResult {
    LoginUserResult(true, LoginSucceededMessage, Some(accessToken), Some(refreshToken),
                    Some(d.id), Some(d.name), Some(d.email), Some(d.emailConfirmed))
  }

  /**
   * ValidateRequest: the first failure among a blank e-mail, a blank password
   * and a malformed e-mail, in that order. `isValidEmail` stands for the
   * MailAddress round trip of IsValidEmail.
   */
  function ValidateRequest(request: LoginUserCommand, isValidEmail: string -> bool): (r: LoginUserResult)
    ensures r == Answer(r.success, r.message)
    ensures r.success <==> !IsBlank(request.email) && !IsBlank(request.password) && isValidEmail(request.email)
    ensures r.success ==> r.message == ValidationPassedMessage
    ensures IsBlank(request.email) ==> r.message == EmailRequiredMessage
    ensures !IsBlank(request.email) && IsBlank(request.password) ==> r.message == PasswordRequiredMessage
    ensures !IsBlank(request.email) && !IsBlank(request.password) && !isValidEmail(request.email) ==>
              r.message == InvalidEmailFormatMessage
  {
    if IsBlank(request.email) then Answer(false, EmailRequiredMessage)
    else if IsBlank(request.password) then Answer(false, PasswordRequiredMessage)
    else if !isValidEmail(request.email) then Answer(false, InvalidEmailFormatMessage)
    else Answer(true, ValidationPassedMessage)
  }

  /** Where the account checks of Handle end for the user the lookup found (or did not). */
  datatype Verdict = NoSuchUser | Deactivated | LockedOut(until: Time) | WrongPassword | PasswordAccepted

  /** Locked: LockedUntil is set and lies strictly after `now`. */
  predicate IsLocked(d: UserData, now: Time) {
    d.lockedUntil.Some? && d.lockedUntil.value > now
  }

  /** The account checks, in order: existence, Active, the lock, then the password. */
  function AccountCheck(user: Option<UserData>, password: string, now: Time, verify: (string, string) -> bool): (v: Verdict)
    ensures v == NoSuchUser <==> user.None?
    ensures v == Deactivated <==> user.Some? && !user.value.active
    ensures v.LockedOut? <==> user.Some? && user.value.active && IsLocked(user.value, now)
    ensures v.LockedOut? ==> user.value.lockedUntil == Some(v.until)
    ensures v == WrongPassword <==>
              user.Some? && user.value.active && !IsLocked(user.value, now) && !verify(password, user.value.passwordHash)
    ensures v == PasswordAccepted <==>
              user.Some? && user.value.active && !IsLocked(user.value, now) && verify(password, user.value.passwordHash)
  {
    if user.None? then NoSuchUser
    else if !user.value.active then Deactivated
    else if IsLocked(user.value, now) then LockedOut(user.value.lockedUntil.value)
    else if !verify(password, user.value.passwordHash) then WrongPassword
    else PasswordAccepted
  }

  /** The user after one more failed attempt: from the fifth on, locked for thirty minutes from `now`. */
  function AfterFailedAttempt(d: UserData, now: Time): (r: UserData)
    ensures r.loginAttempts == d.loginAttempts + 1
    ensures r.loginAttempts >= MaxAttempts ==> r.lockedUntil == Some(AddMinutes(now, LockoutMinutes))
    ensures r.loginAttempts < MaxAttempts ==> r.lockedUntil == d.lockedUntil
    ensures r.(loginAttempts := d.loginAttempts, lockedUntil := d.lockedUntil) == d
  {
    var counted := d.(loginAttempts := d.loginAttempts + 1);
    if counted.loginAttempts >= MaxAttempts then counted.(lockedUntil := Some(AddMinutes(now, LockoutMinutes)))
    else counted
  }

  /** ResetLoginAttempts has something to clear: failed attempts or a lock. */
  predicate NeedsReset(d: UserData) {
    d.loginAttempts > 0 || d.lockedUntil.Some?
  }

  /** The user with the failed attempts and the lock cleared. */
  function Reset(d: UserData): (r: UserData)
    ensures r.loginAttempts == 0 && r.lockedUntil == None
    ensures r.(loginAttempts := d.loginAttempts, lockedUntil := d.lockedUntil) == d
  {
    d.(loginAttempts := 0, lockedUntil := None)
  }

  /**
   * What the users table holds after the writes of a successful login when
   * only the last-login write throws: the reset alone, if there was one.
   */
  function AfterResetWrite(rows: seq<UserRow>, d: UserData, now: Time): seq<UserRow> {
    if NeedsReset(d) then UpdateWhere(rows, Reset(d), now) else rows
  }

  /** The user after a successful login: count and lock cleared when either is set, last login stamped. */
  function AfterLogin(d: UserData, now: Time): (r: UserData)
    ensures r.lastLogin == Some(now)
    ensures d.loginAttempts > 0 || d.lockedUntil.Some? ==> r.loginAttempts == 0 && r.lockedUntil == None
    ensures !(d.loginAttempts > 0 || d.lockedUntil.Some?) ==> r.loginAttempts == d.loginAttempts && r.lockedUntil == None
    ensures r.(loginAttempts := d.loginAttempts, lockedUntil := d.lockedUntil, lastLogin := d.lastLogin) == d
  {
    var reset := if NeedsReset(d) then Reset(d) else d;
    reset.(lastLogin := Some(now))
  }

  /** Successive failed attempts, at the given instants. */
  function AfterFailedAttempts(d: UserData, times: seq<Time>): (r: UserData)
    decreases |times|
  {
    if times == [] then d else AfterFailedAttempts(AfterFailedAttempt(d, times[0]), times[1..])
  }

  /**
   * Counting failures: n failures add n to the count; the lock is untouched
   * while the count stays below five and, once it reaches five, runs until
   * thirty minutes after the latest failure.
   */
  lemma {:induction false} FailuresAccumulate(d: UserData, times: seq<Time>)
    ensures AfterFailedAttempts(d, times).loginAttempts == d.loginAttempts + |times|
    ensures d.loginAttempts + |times| < MaxAttempts ==> AfterFailedAttempts(d, times).lockedUntil == d.lockedUntil
    ensures times != [] && d.loginAttempts + |times| >= MaxAttempts ==>
              AfterFailedAttempts(d, times).lockedUntil == Some(AddMinutes(times[|times| - 1], LockoutMinutes))
    decreases |times|
  {
    if times != [] {
      var next := AfterFailedAttempt(d, times[0]);
      FailuresAccumulate(next, times[1..]);
      if |times| > 1 {
        assert times[1..][|times[1..]| - 1] == times[|times| - 1];
      }
    }
  }

  /**
   * Five failed attempts on an unlocked account with no failures lock it: for
   * the next thirty minutes even the right password is refused as locked.
   */
  lemma FifthFailureLocksOut(d: UserData, times: seq<Time>, password: string, later: Time, verify: (string, string) -> bool)
    requires d.active && d.loginAttempts == 0 && d.lockedUntil == None
    requires |times| == MaxAttempts
    requires later < AddMinutes(times[|times| - 1], LockoutMinutes)
    ensures AccountCheck(Some(AfterFailedAttempts(d, times)), password, later, verify)
            == LockedOut(AddMinutes(times[|times| - 1], LockoutMinutes))
  {
    FailuresAccumulate(d, times);
    AfterFailedAttemptsKeepsActive(d, times);
  }

  lemma {:induction false} AfterFailedAttemptsKeepsActive(d: UserData, times: seq<Time>)
    ensures AfterFailedAttempts(d, times).active == d.active
    decreases |times|
  {
    if times != [] {
      AfterFailedAttemptsKeepsActive(AfterFailedAttempt(d, times[0]), times[1..]);
    }
  }

  /** Four failures on an account with none never lock it. */
  lemma FourFailuresDoNotLock(d: UserData, times: seq<Time>, password: string, now: Time, verify: (string, string) -> bool)
    requires d.active && d.loginAttempts == 0 && d.lockedUntil == None
    requires |times| == MaxAttempts - 1
    ensures !AccountCheck(Some(AfterFailedAttempts(d, times)), password, now, verify).LockedOut?
  {
    FailuresAccumulate(d, times);
    AfterFailedAttemptsKeepsActive(d, times);
  }

  /** The calls of a login that can throw. */
  datatype LoginFault =
    | LookupFails
    | IncrementBeginFails | IncrementUpdateFails | IncrementCommitFails | IncrementRollbackFails
    | BeginFails | ResetUpdateFails | LastLoginUpdateFails | CommitFails
    | AccessTokenFails | RefreshTokenFails
    | RollbackFails

  /** What the lookup by e-mail yields on the table as it is. */
  function Lookup(rows: seq<UserRow>, email: string): Result<Option<UserData>> {
    Stored(UserByEmail(rows, email), GetUserByEmail)
  }

  class LoginUserCommandHandler {
    const repo: UserRepository
    const uow: UnitOfWork
    const verifyPassword: (string, string) -> bool
    const isValidEmail: string -> bool
    /** IJwtService.GenerateAccessToken for the user's state. */
    const issueAccessToken: UserData -> string
    /** The "dd/MM/yyyy HH:mm" formatting of an instant. */
    const formatTime: Time -> string

    constructor (repo: UserRepository, uow: UnitOfWork, verifyPassword: (string, string) -> bool,
                 isValidEmail: string -> bool, issueAccessToken: UserData -> string, formatTime: Time -> string)
      ensures this.repo == repo && this.uow == uow && this.verifyPassword == verifyPassword
      ensures this.isValidEmail == isValidEmail && this.issueAccessToken == issueAccessToken
      ensures this.formatTime == formatTime
    {
      this.repo, this.uow, this.verifyPassword := repo, uow, verifyPassword;
      this.isValidEmail, this.issueAccessToken, this.formatTime := isValidEmail, issueAccessToken, formatTime;
    }

    /**
     * Handle. `refreshToken` is what IJwtService.GenerateRefreshToken returns.
     * For each outcome of validation, lookup and account checks the contract
     * gives the answer and what is left in the users table.
     */
    method Handle(request: LoginUserCommand, now: Time, refreshToken: string, faults: set<LoginFault>)
      returns (result: LoginUserResult)
      modifies uow, uow.connection, uow.transaction, repo
      ensures repo.confirmations == old(repo.confirmations)
      ensures old(uow.transaction) == null ==> uow.transaction == null
      ensures !ValidateRequest(request, isValidEmail).success ==>
                && result == ValidateRequest(request, isValidEmail)
                && repo.users == old(repo.users) && uow.transaction == old(uow.transaction)
      ensures ValidateRequest(request, isValidEmail).success && (LookupFails in faults || Lookup(old(repo.users), request.email).Failure?) ==>
                result == Answer(false, InternalErrorMessage) && repo.users == old(repo.users)
      ensures ValidateRequest(request, isValidEmail).success && LookupFails !in faults && Lookup(old(repo.users), request.email).Success? ==>
                var found := Lookup(old(repo.users), request.email).value;
                match AccountCheck(found, request.password, now, verifyPassword)
                case NoSuchUser =>
                  result == Answer(false, InvalidCredentialsMessage)
                  && repo.users == old(repo.users) && uow.transaction == old(uow.transaction)
                case Deactivated =>
                  result == Answer(false, AccountDeactivatedMessage)
                  && repo.users == old(repo.users) && uow.transaction == old(uow.transaction)
                case LockedOut(until) =>
                  result == Answer(false, LockedMessage(formatTime(until)))
                  && repo.users == old(repo.users) && uow.transaction == old(uow.transaction)
                case WrongPassword =>
                  && result == Answer(false, InvalidCredentialsMessage)
                  && (old(uow.transaction) == null && IncrementBeginFails !in faults && IncrementUpdateFails !in faults ==>
                        repo.users == UpdateWhere(old(repo.users), AfterFailedAttempt(found.value, now), now))
                  && (old(uow.transaction) != null || IncrementBeginFails in faults || IncrementUpdateFails in faults ==>
                        repo.users == old(repo.users))
                case PasswordAccepted =>
                  var resetThrows := ResetUpdateFails in faults && NeedsReset(found.value);
                  && (old(uow.transaction) == null && BeginFails !in faults && !resetThrows && LastLoginUpdateFails !in faults ==>
                        repo.users == UpdateWhere(old(repo.users), AfterLogin(found.value, now), now))
                  && (old(uow.transaction) == null && BeginFails !in faults && !resetThrows && LastLoginUpdateFails in faults ==>
                        repo.users == AfterResetWrite(old(repo.users), found.value, now))
                  && (old(uow.transaction) != null || BeginFails in faults || resetThrows ==> repo.users == old(repo.users))
                  && (old(uow.transaction) == null && BeginFails !in faults && !resetThrows
                      && LastLoginUpdateFails !in faults && CommitFails !in faults
                      && AccessTokenFails !in faults && RefreshTokenFails !in faults ==>
                        result == Welcome(AfterLogin(found.value, now), issueAccessToken(AfterLogin(found.value, now)), refreshToken))
                  && (old(uow.transaction) != null || BeginFails in faults || resetThrows || LastLoginUpdateFails in faults
                      || CommitFails in faults || AccessTokenFails in faults || RefreshTokenFails in faults ==>
                        result == Answer(false, InternalErrorMessage))
    {
      var validation := ValidateRequest(request, isValidEmail);
      if !validation.success {
        return validation;
      }
      var lookup := repo.GetByEmail(request.email, LookupFails in faults);
      if lookup.Failure? {
        Recover(RollbackFails in faults);
        return Answer(false, InternalErrorMessage);
      }
      if lookup.value.None? {
        return Answer(false, InvalidCredentialsMessage);
      }
      var user := lookup.value.value;
      if !user.active {
        return Answer(false, AccountDeactivatedMessage);
      }
      if user.lockedUntil.Some? && user.lockedUntil.value > now {
        return Answer(false, LockedMessage(formatTime(user.lockedUntil.value)));
      }
      if !verifyPassword(request.password, user.passwordHash) {
        IncrementLoginAttempts(user, now, faults);
        return Answer(false, InvalidCredentialsMessage);
      }
      result := CompleteLogin(user, now, refreshToken, faults);
    }

    /**
     * Steps 6 to 10 of Handle, once the password is accepted: Begin, reset the
     * count, stamp the last login, write, Commit, then issue the tokens, so a
     * failure in token issuing comes after the write is committed.
     */
    method CompleteLogin(user: User, now: Time, refreshToken: string, faults: set<LoginFault>)
      returns (result: LoginUserResult)
      modifies uow, uow.connection, uow.transaction, repo, user
      ensures repo.confirmations == old(repo.confirmations)
      ensures old(uow.transaction) == null ==> uow.transaction == null
      ensures var resetThrows := ResetUpdateFails in faults && NeedsReset(old(user.View()));
              && (old(uow.transaction) == null && BeginFails !in faults && !resetThrows && LastLoginUpdateFails !in faults ==>
                    repo.users == UpdateWhere(old(repo.users), AfterLogin(old(user.View()), now), now))
              && (old(uow.transaction) == null && BeginFails !in faults && !resetThrows && LastLoginUpdateFails in faults ==>
                    repo.users == AfterResetWrite(old(repo.users), old(user.View()), now))
              && (old(uow.transaction) != null || BeginFails in faults || resetThrows ==> repo.users == old(repo.users))
              && (old(uow.transaction) == null && BeginFails !in faults && !resetThrows
                  && LastLoginUpdateFails !in faults && CommitFails !in faults
                  && AccessTokenFails !in faults && RefreshTokenFails !in faults ==>
                    result == Welcome(AfterLogin(old(user.View()), now), issueAccessToken(AfterLogin(old(user.View()), now)), refreshToken))
              && (old(uow.transaction) != null || BeginFails in faults || resetThrows || LastLoginUpdateFails in faults
                  || CommitFails in faults || AccessTokenFails in faults || RefreshTokenFails in faults ==>
                    result == Answer(false, InternalErrorMessage))
    {
      var begun := uow.Begin(BeginFails in faults, BeginFails in faults);
      if begun.Fail? {
        Recover(RollbackFails in faults);
        return Answer(false, InternalErrorMessage);
      }
      var written := RecordLogin(user, now, ResetUpdateFails in faults, LastLoginUpdateFails in faults);
      if written.Fail? {
        Recover(RollbackFails in faults);
        return Answer(false, InternalErrorMessage);
      }
      var committed := uow.Commit(CommitFails in faults);
      if committed.Fail? {
        Recover(RollbackFails in faults);
        return Answer(false, InternalErrorMessage);
      }
      if AccessTokenFails in faults {
        Recover(RollbackFails in faults);
        return Answer(false, InternalErrorMessage);
      }
      var accessToken := issueAccessToken(user.View());
      if RefreshTokenFails in faults {
        Recover(RollbackFails in faults);
        return Answer(false, InternalErrorMessage);
      }
      result := Welcome(user.View(), accessToken, refreshToken);
    }

    /** Steps 7 and 8 of Handle: ResetLoginAttempts, then UpdateLastLogin and a write of the user. */
    method RecordLogin(user: User, now: Time, resetFails: bool, updateFails: bool) returns (o: Outcome)
      modifies user, repo
      ensures repo.confirmations == old(repo.confirmations)
      ensures o.Pass? ==> user.View() == AfterLogin(old(user.View()), now)
      ensures resetFails && NeedsReset(old(user.View())) ==>
                o == Fail(Fault(UpdateUser)) && repo.users == old(repo.users)
      ensures !(resetFails && NeedsReset(old(user.View()))) && updateFails ==>
                o == Fail(Fault(UpdateUser)) && repo.users == AfterResetWrite(old(repo.users), old(user.View()), now)
      ensures !(resetFails && NeedsReset(old(user.View()))) && !updateFails ==>
                o == Pass && repo.users == UpdateWhere(old(repo.users), AfterLogin(old(user.View()), now), now)
    {
      ghost var d := user.View();
      ghost var before := repo.users;
      o := ResetLoginAttempts(user, now, resetFails);
      if o.Fail? {
        return;
      }
      ghost var afterReset := repo.users;
      user.UpdateLastLogin(now);
      assert user.View() == AfterLogin(d, now);
      o := repo.Update(user, now, updateFails);
      if o.Pass? && afterReset != before {
        UpdateTwice(before, Reset(d), AfterLogin(d, now), now);
      }
    }

    /** The catch block: a rollback attempt whose own exception is logged and dropped. */
    method Recover(rollbackFails: bool)
      modifies uow, uow.transaction
      ensures uow.transaction == null && uow.connection == old(uow.connection)
    {
      var _ := uow.Rollback(rollbackFails);
    }

    /**
     * IncrementLoginAttempts: in a transaction of its own, one more failed
     * attempt is counted (locking the account from the fifth) and written;
     * any exception is swallowed after a rollback attempt. No transaction is
     * left open.
     */
    method IncrementLoginAttempts(user: User, now: Time, faults: set<LoginFault>)
      modifies uow, uow.connection, uow.transaction, repo, user
      ensures repo.confirmations == old(repo.confirmations)
      ensures uow.transaction == null
      ensures old(uow.transaction) == null && IncrementBeginFails !in faults ==>
                user.View() == AfterFailedAttempt(old(user.View()), now)
      ensures old(uow.transaction) == null && IncrementBeginFails !in faults && IncrementUpdateFails !in faults ==>
                repo.users == UpdateWhere(old(repo.users), AfterFailedAttempt(old(user.View()), now), now)
      ensures old(uow.transaction) != null || IncrementBeginFails in faults ==>
                user.View() == old(user.View())
      ensures old(uow.transaction) != null || IncrementBeginFails in faults || IncrementUpdateFails in faults ==>
                repo.users == old(repo.users)
    {
      var begun := uow.Begin(IncrementBeginFails in faults, IncrementBeginFails in faults);
      if begun.Fail? {
        var _ := uow.Rollback(IncrementRollbackFails in faults);
        return;
      }
      user.IncrementLoginAttempts();
      if user.loginAttempts >= MaxAttempts {
        user.LockAccount(AddMinutes(now, LockoutMinutes));
      }
      var updated := repo.Update(user, now, IncrementUpdateFails in faults);
      if updated.Fail? {
        var _ := uow.Rollback(IncrementRollbackFails in faults);
        return;
      }
      var committed := uow.Commit(IncrementCommitFails in faults);
      if committed.Fail? {
        var _ := uow.Rollback(IncrementRollbackFails in faults);
      }
    }

    /**
     * ResetLoginAttempts: when the user has failed attempts or a lock, clears
     * both and writes the user (the caller commits); otherwise does nothing.
     */
    method ResetLoginAttempts(user: User, now: Time, updateFails: bool) returns (o: Outcome)
      modifies user, repo
      ensures repo.confirmations == old(repo.confirmations)
      ensures var needed := NeedsReset(old(user.View()));
              && user.View() == (if needed then Reset(old(user.View())) else old(user.View()))
              && (!needed ==> o == Pass && repo.users == old(repo.users))
              && (needed && updateFails ==> o == Fail(Fault(UpdateUser)) && repo.users == old(repo.users))
              && (needed && !updateFails ==> o == Pass && repo.users == UpdateWhere(old(repo.users), user.View(), now))
    {
      o := Pass;
      if user.loginAttempts > 0 || user.lockedUntil.Some? {
        user.ResetLoginAttempts();
        o := repo.Update(user, now, updateFails);
      }
    }
  }
}
