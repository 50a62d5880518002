/**
 * CreateUserCommandHandler.cs: validates the command, refuses an e-mail that
 * is already registered, and then, inside a transaction, hashes the password,
 * builds the user, stores it, commits and publishes a UserRegisteredEvent.
 * Every exception, its own validation failure included, leads to a rollback
 * attempt (whose own failure is dropped) and is then rethrown.
 */
module CreateUser {
  import opened Common
  import opened Data
  import opened Users
  import opened Repository
  import opened Passwords
  import opened Registration
  import Login

  datatype CreateUserCommand = CreateUserCommand(
    name: string,
    email: string,
    password: string,
    timezoneId: Guid,
    currencyId: Guid,
    phone: Option<string>)

  datatype CreateUserResult = CreateUserResult(userId: Guid, name: string, email: string, emailConfirmed: bool)

  const MinPasswordLength := 6

  /** The errors ValidateCommand can add to its notification. */
  datatype Check =
    | NameRequired | EmailRequired | EmailMalformed | PasswordRequired | PasswordTooShort
    | TimezoneRequired | CurrencyRequired

  /** The error code and message each check adds. */
  function ErrorOf(k: Check): Error {
    match k
    case NameRequired => Error("INVALID_NAME", "Nome é obrigatório.")
    case EmailRequired => Error("INVALID_EMAIL", "E-mail é obrigatório.")
    case EmailMalformed => Error("INVALID_EMAIL_FORMAT", "Formato de e-mail inválido.")
    case PasswordRequired => Error("INVALID_PASSWORD", "Senha é obrigatória.")
    case PasswordTooShort => Error("WEAK_PASSWORD", "Senha deve ter pelo menos 6 caracteres.")
    case TimezoneRequired => Error("INVALID_TIMEZONE", "Timezone é obrigatório.")
    case CurrencyRequired => Error("INVALID_CURRENCY", "Moeda é obrigatória.")
  }

  /** The position of a check in the order ValidateCommand runs them. */
  function Rank(k: Check): int {
    match k
    case NameRequired => 0
    case EmailRequired => 1
    case EmailMalformed => 2
    case PasswordRequired => 3
    case PasswordTooShort => 4
    case TimezoneRequired => 5
    case CurrencyRequired => 6
  }

  /** A command that passes every check of ValidateCommand. */
  predicate IsValidCommand(c: CreateUserCommand, isValidEmail: string -> bool) {
    && !IsBlank(c.name)
    && !IsBlank(c.email) && isValidEmail(c.email)
    && !IsBlank(c.password) && |c.password| >= MinPasswordLength
    && c.timezoneId != EmptyGuid && c.currencyId != EmptyGuid
  }

  /**
   * The notification ValidateCommand collects: empty exactly for a valid
   * command, and in the order the checks run, so no check twice.
   */
  function CommandErrors(c: CreateUserCommand, isValidEmail: string -> bool): (r: seq<Check>)
    ensures r == [] <==> IsValidCommand(c, isValidEmail)
    ensures InCheckOrder(r)
  {
    var name, email, password := NameErrors(c), EmailErrors(c, isValidEmail), PasswordErrors(c);
    var timezone, currency := TimezoneErrors(c), CurrencyErrors(c);
    AppendInOrder(name, email, 1);
    AppendInOrder(name + email, password, 3);
    AppendInOrder(name + email + password, timezone, 5);
    AppendInOrder(name + email + password + timezone, currency, 6);
    name + email + password + timezone + currency
  }

  /** Strictly increasing ranks: the checks in the order they run, none twice. */
  predicate InCheckOrder(s: seq<Check>) {
    forall i, j :: 0 <= i < j < |s| ==> Rank(s[i]) < Rank(s[j])
  }

  /** Two runs of checks, all of the first ranked below `k` and all of the second from `k` on, stay in order when joined. */
  lemma AppendInOrder(s: seq<Check>, t: seq<Check>, k: int)
    requires InCheckOrder(s) && InCheckOrder(t)
    requires forall x :: x in s ==> Rank(x) < k
    requires forall y :: y in t ==> Rank(y) >= k
    ensures InCheckOrder(s + t)
  {
    var st := s + t;
    forall i, j | 0 <= i < j < |st|
      ensures Rank(st[i]) < Rank(st[j])
    {
      if j < |s| {
        assert st[i] == s[i] && st[j] == s[j];
      } else if i < |s| {
        assert st[i] == s[i] && st[i] in s;
        assert st[j] == t[j - |s|] && st[j] in t;
      } else {
        assert st[i] == t[i - |s|] && st[j] == t[j - |s|];
      }
    }
  }

  function NameErrors(c: CreateUserCommand): seq<Check> {
    if IsBlank(c.name) then [NameRequired] else []
  }

  function EmailErrors(c: CreateUserCommand, isValidEmail: string -> bool): seq<Check> {
    if IsBlank(c.email) then [EmailRequired]
    else if !isValidEmail(c.email) then [EmailMalformed] else []
  }

  function PasswordErrors(c: CreateUserCommand): seq<Check> {
    if IsBlank(c.password) then [PasswordRequired]
    else if |c.password| < MinPasswordLength then [PasswordTooShort] else []
  }

  function TimezoneErrors(c: CreateUserCommand): seq<Check> {
    if c.timezoneId == EmptyGuid then [TimezoneRequired] else []
  }

  function CurrencyErrors(c: CreateUserCommand): seq<Check> {
    if c.currencyId == EmptyGuid then [CurrencyRequired] else []
  }

  /** Whether the check that adds `k` fails for `c`. */
  predicate Fails(c: CreateUserCommand, isValidEmail: string -> bool, k: Check) {
    match k
    case NameRequired => IsBlank(c.name)
    case EmailRequired => IsBlank(c.email)
    case EmailMalformed => !IsBlank(c.email) && !isValidEmail(c.email)
    case PasswordRequired => IsBlank(c.password)
    case PasswordTooShort => !IsBlank(c.password) && |c.password| < MinPasswordLength
    case TimezoneRequired => c.timezoneId == EmptyGuid
    case CurrencyRequired => c.currencyId == EmptyGuid
  }

  /** Each error of the notification is present exactly when its check fails. */
  lemma CommandErrorsExact(c: CreateUserCommand, isValidEmail: string -> bool)
    ensures forall k :: k in CommandErrors(c, isValidEmail) <==> Fails(c, isValidEmail, k)
  {
    var n, e, p := NameErrors(c), EmailErrors(c, isValidEmail), PasswordErrors(c);
    var t, m := TimezoneErrors(c), CurrencyErrors(c);
    forall k
      ensures k in CommandErrors(c, isValidEmail) <==> Fails(c, isValidEmail, k)
    {
      assert k in CommandErrors(c, isValidEmail) <==> k in n || k in e || k in p || k in t || k in m;
    }
  }

  function Messages(errors: seq<Check>): (r: seq<string>)
    ensures |r| == |errors| && forall i :: 0 <= i < |errors| ==> r[i] == ErrorOf(errors[i]).message
  {
    seq(|errors|, i requires 0 <= i < |errors| => ErrorOf(errors[i]).message)
  }

  /** The ValidationException message: the messages, comma separated. */
  function InvalidDataMessage(errors: seq<Check>): string {
    "Dados inválidos: " + Join(", ", Messages(errors))
  }

  function DuplicateMessage(email: string): string {
    "Usuário com e-mail " + email + " já existe."
  }

  /** The user Handle stores: User.Create, then UpdateProfile when a phone is given. */
  function RegisteredData(request: CreateUserCommand, id: Guid, passwordHash: string, now: Time): (d: UserData)
    ensures d.id == id && d.name == request.name && d.email == request.email && d.passwordHash == passwordHash
    ensures d.active && !d.emailConfirmed && d.loginAttempts == 0 && d.lockedUntil == None && d.lastLogin == None
    ensures d.createdAt == now && d.deletedAt == None && d.theme == Light && d.profilePicture == None
    ensures IsNullOrBlank(request.phone) ==> d.phone == None && d.updatedAt == None
    ensures !IsNullOrBlank(request.phone) ==> d.phone == request.phone && d.updatedAt == Some(now)
  {
    var created := NewUserData(id, request.name, request.email, passwordHash, now);
    if IsNullOrBlank(request.phone) then created
    else created.(phone := request.phone, updatedAt := Some(now))
  }

  /** The mediator's IPublisher, reduced to the notifications it was given. */
  class Publisher {
    var published: seq<UserRegisteredEvent>

    constructor ()
      ensures published == []
    {
      published := [];
    }

    method Publish(e: UserRegisteredEvent, fails: bool) returns (o: Outcome)
      modifies this
      ensures fails ==> o == Fail(Fault(PublishEvent)) && published == old(published)
      ensures !fails ==> o == Pass && published == old(published) + [e]
    {
      if fails {
        return Fail(Fault(PublishEvent));
      }
      published := published + [e];
      o := Pass;
    }
  }

  /** The calls of a registration that can throw. */
  datatype CreateFault = LookupFails | BeginFails | InsertFails | CommitFails | PublishFails | RollbackFails

  class CreateUserCommandHandler {
    const repo: UserRepository
    const uow: UnitOfWork
    const publisher: Publisher
    /** PBKDF2 of the password hasher. */
    const pbkdf2: Kdf
    /** IsValidEmail: the MailAddress round trip, not modelled. */
    const isValidEmail: string -> bool

    constructor (repo: UserRepository, uow: UnitOfWork, publisher: Publisher, pbkdf2: Kdf, isValidEmail: string -> bool)
      ensures this.repo == repo && this.uow == uow && this.publisher == publisher
      ensures this.pbkdf2 == pbkdf2 && this.isValidEmail == isValidEmail
    {
      this.repo, this.uow, this.publisher := repo, uow, publisher;
      this.pbkdf2, this.isValidEmail := pbkdf2, isValidEmail;
    }

    /** ValidateCommand: collects the failing checks and throws when there is any. */
    method ValidateCommand(command: CreateUserCommand) returns (o: Outcome)
      ensures var errors := CommandErrors(command, isValidEmail);
              && (errors == [] ==> o == Pass)
              && (errors != [] ==> o == Fail(ValidationFailed(InvalidDataMessage(errors))))
    {
      var notification: seq<Check> := [];
      if IsBlank(command.name) {
        notification := notification + [NameRequired];
      }
      assert notification == NameErrors(command);
      if IsBlank(command.email) {
        notification := notification + [EmailRequired];
      } else if !isValidEmail(command.email) {
        notification := notification + [EmailMalformed];
      }
      assert notification == NameErrors(command) + EmailErrors(command, isValidEmail);
      if IsBlank(command.password) {
        notification := notification + [PasswordRequired];
      } else if |command.password| < MinPasswordLength {
        notification := notification + [PasswordTooShort];
      }
      assert notification == NameErrors(command) + EmailErrors(command, isValidEmail) + PasswordErrors(command);
      if command.timezoneId == EmptyGuid {
        notification := notification + [TimezoneRequired];
      }
      assert notification == NameErrors(command) + EmailErrors(command, isValidEmail) + PasswordErrors(command)
                             + TimezoneErrors(command);
      if command.currencyId == EmptyGuid {
        notification := notification + [CurrencyRequired];
      }
      assert notification == CommandErrors(command, isValidEmail);
      if notification != [] {
        return Fail(ValidationFailed(InvalidDataMessage(notification)));
      }
      o := Pass;
    }

    /**
     * Handle. `newId` is the Guid the new user receives, `salt` the random
     * salt of the hash and `now` the clock. Nothing is written and nothing is
     * published unless the command is valid, the e-mail is free and a
     * transaction can be begun; a publishing failure comes after the commit,
     * so the user stays stored although the caller sees the exception.
     */
    method Handle(request: CreateUserCommand, newId: Guid, salt: Salt, now: Time, faults: set<CreateFault>)
      returns (r: Result<CreateUserResult>)
      modifies uow, uow.connection, uow.transaction, repo, publisher
      ensures repo.confirmations == old(repo.confirmations)
      ensures old(uow.transaction) == null ==> uow.transaction == null
      ensures r.Failure? ==> publisher.published == old(publisher.published)
      ensures CommandErrors(request, isValidEmail) != [] ==>
                r == Failure(ValidationFailed(InvalidDataMessage(CommandErrors(request, isValidEmail))))
                && repo.users == old(repo.users)
      ensures IsValidCommand(request, isValidEmail) ==>
                var found := Stored(UserByEmail(old(repo.users), request.email), GetUserByEmail);
                if LookupFails in faults || found.Failure? then
                  r == Failure(Fault(GetUserByEmail)) && repo.users == old(repo.users)
                else if found.value.Some? then
                  r == Failure(InvalidOperation(DuplicateMessage(request.email))) && repo.users == old(repo.users)
                else if old(uow.transaction) != null then
                  r == Failure(InvalidOperation(AlreadyActiveMessage)) && repo.users == old(repo.users)
                  && uow.transaction == null
                else if BeginFails in faults then
                  r.Failure? && (r.error == Fault(OpenConnection) || r.error == Fault(BeginTransaction))
                  && repo.users == old(repo.users)
                else
                  Registers(request, newId, salt, now, faults, old(repo.users), old(publisher.published), r)
    {
      var validated := ValidateCommand(request);
      if validated.Fail? {
        Recover(RollbackFails in faults);
        return Failure(validated.error);
      }
      var existing := repo.GetByEmail(request.email, LookupFails in faults);
      if existing.Failure? {
        Recover(RollbackFails in faults);
        return Failure(existing.error);
      }
      if existing.value.Some? {
        Recover(RollbackFails in faults);
        return Failure(InvalidOperation(DuplicateMessage(request.email)));
      }
      var begun := uow.Begin(BeginFails in faults, BeginFails in faults);
      if begun.Fail? {
        Recover(RollbackFails in faults);
        return Failure(begun.error);
      }
      r := Register(request, newId, salt, now, faults);
    }

    /** What steps 4 to 9 of Handle leave behind, when the transaction was begun. */
    ghost predicate Registers(request: CreateUserCommand, newId: Guid, salt: Salt, now: Time, faults: set<CreateFault>,
                              users: seq<UserRow>, published: seq<UserRegisteredEvent>, r: Result<CreateUserResult>)
      requires IsValidCommand(request, isValidEmail)
      reads this, repo, publisher
    {
      var hash := Passwords.HashPassword(request.password, salt, pbkdf2).value;
      var stored := users + [InsertedRow(RegisteredData(request, newId, hash, now))];
      && (InsertFails in faults ==> r == Failure(Fault(InsertUser)) && repo.users == users)
      && (InsertFails !in faults ==> repo.users == stored)
      && (InsertFails !in faults && CommitFails in faults ==> r == Failure(Fault(CommitTransaction)))
      && (InsertFails !in faults && CommitFails !in faults && PublishFails in faults ==>
            r == Failure(Fault(PublishEvent)))
      && (InsertFails !in faults && CommitFails !in faults && PublishFails !in faults ==>
            && r == Success(CreateUserResult(newId, request.name, request.email, false))
            && publisher.published == published + [UserRegisteredEvent(newId, request.email, request.name, now)])
    }

    /** Steps 4 to 9 of Handle: hash, build, store, commit, publish. */
    method Register(request: CreateUserCommand, newId: Guid, salt: Salt, now: Time, faults: set<CreateFault>)
      returns (r: Result<CreateUserResult>)
      requires IsValidCommand(request, isValidEmail)
      requires uow.transaction != null
      modifies uow, uow.transaction, repo, publisher
      ensures uow.transaction == null && uow.connection == old(uow.connection)
      ensures repo.confirmations == old(repo.confirmations)
      ensures r.Failure? ==> publisher.published == old(publisher.published)
      ensures Registers(request, newId, salt, now, faults, old(repo.users), old(publisher.published), r)
    {
      var hashed := Passwords.HashPassword(request.password, salt, pbkdf2);
      var user := User.Create(request.name, request.email, hashed.value, newId, now);
      if !IsNullOrBlank(request.phone) {
        user.UpdateProfile(request.name, request.phone, now);
      }
      assert user.View() == RegisteredData(request, newId, hashed.value, now);
      var userId := repo.Create(user, InsertFails in faults);
      if userId.Failure? {
        Recover(RollbackFails in faults);
        return Failure(userId.error);
      }
      var committed := uow.Commit(CommitFails in faults);
      if committed.Fail? {
        Recover(RollbackFails in faults);
        return Failure(committed.error);
      }
      var published := publisher.Publish(UserRegisteredEvent(userId.value, user.email, user.name, now), PublishFails in faults);
      if published.Fail? {
        Recover(RollbackFails in faults);
        return Failure(published.error);
      }
      r := Success(CreateUserResult(userId.value, user.name, user.email, user.emailConfirmed));
    }

    /** The catch block: a rollback attempt whose own exception is logged and dropped. */
    method Recover(rollbackFails: bool)
      modifies uow, uow.transaction
      ensures uow.transaction == null && uow.connection == old(uow.connection)
    {
      var _ := uow.Rollback(rollbackFails);
    }
  }

  /**
   * Registration then login: the user a valid registration stores can log in
   * with the password it was registered with, since the stored hash verifies
   * that password and the new account is active and not locked.
   */
  lemma RegisteredUserCanLogIn(request: CreateUserCommand, isValidEmail: string -> bool, id: Guid, salt: Salt,
                               pbkdf2: Kdf, now: Time, later: Time)
    requires IsValidCommand(request, isValidEmail)
    ensures request.password != []
    ensures var d := RegisteredData(request, id, Passwords.HashPassword(request.password, salt, pbkdf2).value, now);
            Login.AccountCheck(Some(d), request.password, later, (p, h) => VerifyPassword(p, h, pbkdf2))
              == Login.PasswordAccepted
  {
    HashThenVerify(request.password, salt, pbkdf2);
  }

  /**
   * Registration then lookup: on a table where the id is free, the row the
   * handler inserts is the one a lookup by id finds, and it reads back as the
   * user that was registered.
   */
  lemma RegisteredUserIsFound(rows: seq<UserRow>, request: CreateUserCommand, id: Guid, hash: string, now: Time)
    requires UserById(rows, id).None?
    ensures var d := RegisteredData(request, id, hash, now);
            Stored(UserById(rows + [InsertedRow(d)], id), GetUserById) == Success(Some(d))
  {
    var d := RegisteredData(request, id, hash, now);
    ReadAfterInsert(rows, d);
    assert d.(deletedAt := None) == d;
  }
}
