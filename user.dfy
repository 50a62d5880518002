/**
 * The User aggregate (User.cs). Its properties have private setters that its
 * methods overwrite, so it is a class. The members inherited from the
 * aggregate-root base class (Id, CreatedAt, UpdatedAt, DeletedAt, RaiseEvent,
 * MarkAsDeleted) and the login-bookkeeping methods the handlers call
 * (IncrementLoginAttempts, LockAccount, ResetLoginAttempts, UpdateLastLogin)
 * are declared in files that are not part of this model; each of them is
 * given the smallest contract its name implies and is marked ASSUMED below.
 */
module Users {
  import opened Common

  /** Theme enum. Its members are declared `light` and `dark`. */
  datatype Theme = Light | Dark

  /** Theme.ToString(): the declared member name. */
  function ThemeName(t: Theme): (r: string)
    ensures r == ToLowerAscii(r)
  {
    match t
    case Light => "light"
    case Dark => "dark"
  }

  /** Events an aggregate raises. */
  datatype DomainEvent = UserCreated(userId: Guid, name: string, email: string)

  /** A snapshot of every persistent property of a user. */
  datatype UserData = UserData(
    id: Guid,
    name: string,
    email: string,
    passwordHash: string,
    phone: Option<string>,
    profilePicture: Option<string>,
    active: bool,
    emailConfirmed: bool,
    loginAttempts: int,
    lockedUntil: Option<Time>,
    lastLogin: Option<Time>,
    theme: Theme,
    createdAt: Time,
    updatedAt: Option<Time>,
    deletedAt: Option<Time>)

  /** The state `User.Create` gives a new user. */
  function NewUserData(id: Guid, name: string, email: string, passwordHash: string, now: Time): UserData {
    UserData(id, name, email, passwordHash, None, None, true, false, 0, None, None, Light, now, None, None)
  }

  class User {
    var id: Guid
    var name: string
    var email: string
    var passwordHash: string
    var phone: Option<string>
    var profilePicture: Option<string>
    var active: bool
    var emailConfirmed: bool
    var loginAttempts: int
    var lockedUntil: Option<Time>
    var lastLogin: Option<Time>
    var theme: Theme
    var createdAt: Time
    var updatedAt: Option<Time>
    var deletedAt: Option<Time>
    var events: seq<DomainEvent>

    function View(): UserData
      reads this
    {
      UserData(id, name, email, passwordHash, phone, profilePicture, active, emailConfirmed,
               loginAttempts, lockedUntil, lastLogin, theme, createdAt, updatedAt, deletedAt)
    }

    /** A user read back from storage (the data mapper's construction); it has raised no events. */
    constructor FromData(d: UserData)
      ensures View() == d && events == []
    {
      id, name, email, passwordHash := d.id, d.name, d.email, d.passwordHash;
      phone, profilePicture, active, emailConfirmed := d.phone, d.profilePicture, d.active, d.emailConfirmed;
      loginAttempts, lockedUntil, lastLogin, theme := d.loginAttempts, d.lockedUntil, d.lastLogin, d.theme;
      createdAt, updatedAt, deletedAt := d.createdAt, d.updatedAt, d.deletedAt;
      events := [];
    }

    /**
     * The private constructor chained to the aggregate-root base. ASSUMED:
     * the base assigns a new Id (`id`, from Guid.NewGuid) and CreatedAt = now,
     * and leaves UpdatedAt and DeletedAt unset.
     */
    constructor Blank(id: Guid, now: Time)
      ensures this.id == id && createdAt == now && updatedAt == None && deletedAt == None
      ensures events == [] && theme == Light && !active && !emailConfirmed && loginAttempts == 0
      ensures phone == None && profilePicture == None && lockedUntil == None && lastLogin == None
    {
      this.id, createdAt, updatedAt, deletedAt := id, now, None, None;
      name, email, passwordHash := "", "", "";
      phone, profilePicture, active, emailConfirmed := None, None, false, false;
      loginAttempts, lockedUntil, lastLogin, theme := 0, None, None, Light;
      events := [];
    }

    /** RaiseEvent (ASSUMED): appends to the aggregate's pending events. */
    method RaiseEvent(e: DomainEvent)
      modifies this
      ensures View() == old(View()) && events == old(events) + [e]
    {
      events := events + [e];
    }

    /** User.Create: an active, unconfirmed user with no failed logins, light theme, one creation event. */
    static method Create(name: string, email: string, passwordHash: string, id: Guid, now: Time) returns (u: User)
      ensures fresh(u)
      ensures u.View() == NewUserData(id, name, email, passwordHash, now)
      ensures u.events == [UserCreated(id, name, email)]
    {
      u := new User.Blank(id, now);
      u.name, u.email, u.passwordHash := name, email, passwordHash;
      u.active, u.emailConfirmed, u.loginAttempts, u.theme := true, false, 0, Light;
      u.RaiseEvent(UserCreated(u.id, u.name, u.email));
    }

    /** UpdateProfile: sets the name and the phone (None clears it) and stamps UpdatedAt. */
    method UpdateProfile(newName: string, newPhone: Option<string>, now: Time)
      modifies this
      ensures View() == old(View()).(name := newName, phone := newPhone, updatedAt := Some(now))
      ensures events == old(events)
    {
      name, phone, updatedAt := newName, newPhone, Some(now);
    }

    /** ConfirmEmail: sets the flag whatever it was, and stamps UpdatedAt. */
    method ConfirmEmail(now: Time)
      modifies this
      ensures View() == old(View()).(emailConfirmed := true, updatedAt := Some(now))
      ensures events == old(events)
    {
      emailConfirmed, updatedAt := true, Some(now);
    }

    /** MarkAsDeleted (ASSUMED): stamps DeletedAt. */
    method MarkAsDeleted(now: Time)
      modifies this
      ensures View() == old(View()).(deletedAt := Some(now))
      ensures events == old(events)
    {
      deletedAt := Some(now);
    }

    /** Deactivate: clears Active and marks the user deleted. */
    method Deactivate(now: Time)
      modifies this
      ensures View() == old(View()).(active := false, deletedAt := Some(now))
      ensures events == old(events)
    {
      active := false;
      MarkAsDeleted(now);
    }

    /** IncrementLoginAttempts (ASSUMED): one more failed attempt. */
    method IncrementLoginAttempts()
      modifies this
      ensures View() == old(View()).(loginAttempts := old(loginAttempts) + 1)
      ensures events == old(events)
    {
      loginAttempts := loginAttempts + 1;
    }

    /** LockAccount (ASSUMED): locks the account until `until`. */
    method LockAccount(until: Time)
      modifies this
      ensures View() == old(View()).(lockedUntil := Some(until))
      ensures events == old(events)
    {
      lockedUntil := Some(until);
    }

    /** ResetLoginAttempts (ASSUMED): no failed attempts and no lock. */
    method ResetLoginAttempts()
      modifies this
      ensures View() == old(View()).(loginAttempts := 0, lockedUntil := None)
      ensures events == old(events)
    {
      loginAttempts, lockedUntil := 0, None;
    }

    /** UpdateLastLogin (ASSUMED): records `now` as the last login. */
    method UpdateLastLogin(now: Time)
      modifies this
      ensures View() == old(View()).(lastLogin := Some(now))
      ensures events == old(events)
    {
      lastLogin := Some(now);
    }

    /** Validate: the rule bodies are commented out, so no error is added. */
    method Validate(errors: seq<Error>) returns (result: seq<Error>)
      ensures result == errors
    {
      result := errors;
    }
  }
}
