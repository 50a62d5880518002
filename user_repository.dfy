/**
 * The user repository (UserRepository.cs) over an in-memory copy of the two
 * tables it uses, `users` and `email_confirmations`. Each operation follows
 * its SQL statement: the WHERE clause decides which rows are read or changed,
 * the SET or VALUES list decides what is written. A table is a sequence of
 * rows in table order; "first or default" reads return the first matching row.
 * Every operation takes `fails`, which says whether the database throws.
 */
module Repository {
  import opened Common
  import opened Users

  /** A row of `users`; `theme` holds the column text. */
  datatype UserRow = UserRow(
    id: Guid,
    name: string,
    email: string,
    passwordHash: string,
    phone: Option<string>,
    profilePicture: Option<string>,
    active: bool,
    emailConfirmed: bool,
    loginAttempts: int,
    lockedUntil: Option<Time>,
    lastLogin: Option<Time>,
    theme: string,
    createdAt: Time,
    updatedAt: Option<Time>,
    deletedAt: Option<Time>)

  /** A row of `email_confirmations` (the generated key column is not modelled). */
  datatype ConfirmationRow = ConfirmationRow(
    userId: Guid,
    token: Guid,
    expiresAt: Time,
    confirmed: bool,
    confirmedAt: Option<Time>,
    createdAt: Time)

  /** The theme as written to the `theme` column: the enum name, lower-cased. */
  function ThemeColumn(t: Theme): (r: string)
    ensures ToLowerAscii(r) == r
  {
    ToLowerAscii(ThemeName(t))
  }

  /** Reading the `theme` column back into the enum, ignoring case. */
  function ParseTheme(s: string): (r: Option<Theme>)
    ensures r.Some? ==> ThemeColumn(r.value) == ToLowerAscii(s)
    ensures r.None? <==> forall t :: ThemeColumn(t) != ToLowerAscii(s)
  {
    var lower := ToLowerAscii(s);
    if lower == ThemeColumn(Light) then Some(Light)
    else if lower == ThemeColumn(Dark) then Some(Dark)
    else None
  }

  /** What is stored is what is read back. */
  lemma ThemeRoundTrip(t: Theme)
    ensures ParseTheme(ThemeColumn(t)) == Some(t)
  {
    assert ThemeColumn(Light) == "light";
    assert ThemeColumn(Dark) == "dark";
  }

  /** The row `CreateAsync` inserts for a user: its VALUES list, deleted_at left NULL. */
  function InsertedRow(u: UserData): UserRow {
    UserRow(u.id, u.name, u.email, u.passwordHash, u.phone, u.profilePicture, u.active,
            u.emailConfirmed, u.loginAttempts, u.lockedUntil, u.lastLogin, ThemeColumn(u.theme),
            u.createdAt, u.updatedAt, None)
  }

  /** The SET list of `UpdateAsync`: every listed column from the user, updated_at = now. */
  function UpdatedRow(row: UserRow, u: UserData, now: Time): UserRow {
    row.(name := u.name, email := u.email, passwordHash := u.passwordHash, phone := u.phone,
         profilePicture := u.profilePicture, active := u.active, emailConfirmed := u.emailConfirmed,
         loginAttempts := u.loginAttempts, lockedUntil := u.lockedUntil, lastLogin := u.lastLogin,
         theme := ThemeColumn(u.theme), updatedAt := Some(now))
  }

  /** The data mapper: a row becomes a user, unless its theme text names no enum member. */
  function ToData(row: UserRow): Option<UserData> {
    match ParseTheme(row.theme)
    case None => None
    case Some(t) =>
      Some(UserData(row.id, row.name, row.email, row.passwordHash, row.phone, row.profilePicture,
                    row.active, row.emailConfirmed, row.loginAttempts, row.lockedUntil, row.lastLogin,
                    t, row.createdAt, row.updatedAt, row.deletedAt))
  }

  /** Index of the first element satisfying `p`. */
  function FindFirst<T>(rows: seq<T>, p: T -> bool): (r: Option<nat>)
    ensures r.Some? ==> r.value < |rows| && p(rows[r.value])
    ensures r.Some? ==> forall j :: 0 <= j < r.value ==> !p(rows[j])
    ensures r.None? <==> forall j :: 0 <= j < |rows| ==> !p(rows[j])
  {
    if rows == [] then None
    else if p(rows[0]) then Some(0)
    else
      match FindFirst(rows[1..], p)
      case None => None
      case Some(k) => Some(k + 1)
  }

  /** The WHERE clause of GetByIdAsync. */
  predicate LiveWithId(row: UserRow, id: Guid) {
    row.id == id && row.deletedAt.None?
  }

  /** The WHERE clause of GetByEmailAsync. */
  predicate LiveWithEmail(row: UserRow, email: string) {
    row.email == email && row.deletedAt.None?
  }

  function UserById(rows: seq<UserRow>, id: Guid): (r: Option<UserRow>)
    ensures r.Some? ==> r.value in rows && LiveWithId(r.value, id)
    ensures r.None? <==> forall j :: 0 <= j < |rows| ==> !LiveWithId(rows[j], id)
  {
    match FindFirst(rows, (row: UserRow) => LiveWithId(row, id))
    case None => None
    case Some(i) => Some(rows[i])
  }

  function UserByEmail(rows: seq<UserRow>, email: string): (r: Option<UserRow>)
    ensures r.Some? ==> r.value in rows && LiveWithEmail(r.value, email)
    ensures r.None? <==> forall j :: 0 <= j < |rows| ==> !LiveWithEmail(rows[j], email)
  {
    match FindFirst(rows, (row: UserRow) => LiveWithEmail(row, email))
    case None => None
    case Some(i) => Some(rows[i])
  }

  function ConfirmationByToken(rows: seq<ConfirmationRow>, token: Guid): (r: Option<ConfirmationRow>)
    ensures r.Some? ==> r.value in rows && r.value.token == token
    ensures r.None? <==> forall j :: 0 <= j < |rows| ==> rows[j].token != token
  {
    match FindFirst(rows, (row: ConfirmationRow) => row.token == token)
    case None => None
    case Some(i) => Some(rows[i])
  }

  /** `UPDATE users SET ... WHERE id = @Id`: no filter on deleted_at. */
  function UpdateWhere(rows: seq<UserRow>, u: UserData, now: Time): (r: seq<UserRow>)
    ensures |r| == |rows|
    ensures forall i :: 0 <= i < |rows| ==> r[i].id == rows[i].id && r[i].deletedAt == rows[i].deletedAt
                                            && r[i].createdAt == rows[i].createdAt
    ensures forall i :: 0 <= i < |rows| && rows[i].id != u.id ==> r[i] == rows[i]
    ensures forall i :: 0 <= i < |rows| && rows[i].id == u.id ==> r[i] == UpdatedRow(rows[i], u, now)
  {
    seq(|rows|, i requires 0 <= i < |rows| => if rows[i].id == u.id then UpdatedRow(rows[i], u, now) else rows[i])
  }

  /** `UPDATE users SET deleted_at, updated_at WHERE id = @Id`. */
  function SoftDeleteWhere(rows: seq<UserRow>, id: Guid, now: Time): (r: seq<UserRow>)
    ensures |r| == |rows|
    ensures forall i :: 0 <= i < |rows| && rows[i].id != id ==> r[i] == rows[i]
    ensures forall i :: 0 <= i < |rows| && rows[i].id == id ==>
              r[i] == rows[i].(deletedAt := Some(now), updatedAt := Some(now))
  {
    seq(|rows|, i requires 0 <= i < |rows| =>
      if rows[i].id == id then rows[i].(deletedAt := Some(now), updatedAt := Some(now)) else rows[i])
  }

  /** `UPDATE email_confirmations SET confirmed = true, confirmed_at WHERE token = @Token`. */
  function MarkUsedWhere(rows: seq<ConfirmationRow>, token: Guid, now: Time): (r: seq<ConfirmationRow>)
    ensures |r| == |rows|
    ensures forall i :: 0 <= i < |rows| && rows[i].token != token ==> r[i] == rows[i]
    ensures forall i :: 0 <= i < |rows| && rows[i].token == token ==>
              r[i] == rows[i].(confirmed := true, confirmedAt := Some(now))
  {
    seq(|rows|, i requires 0 <= i < |rows| =>
      if rows[i].token == token then rows[i].(confirmed := true, confirmedAt := Some(now)) else rows[i])
  }

  /** The row `CreateEmailConfirmationAsync` inserts: unconfirmed, with the given expiry. */
  function NewConfirmation(userId: Guid, token: Guid, expiresAt: Time, now: Time): ConfirmationRow {
    ConfirmationRow(userId, token, expiresAt, false, None, now)
  }

  class UserRepository {
    var users: seq<UserRow>
    var confirmations: seq<ConfirmationRow>

    constructor (users: seq<UserRow>, confirmations: seq<ConfirmationRow>)
      ensures this.users == users && this.confirmations == confirmations
    {
      this.users, this.confirmations := users, confirmations;
    }

    /** GetByIdAsync: the first row with that id that is not soft-deleted, as a new user object. */
    method GetById(id: Guid, fails: bool) returns (r: Result<Option<User>>)
      ensures fails ==> r == Failure(Fault(GetUserById))
      ensures !fails ==> Materialises(r, Stored(UserById(users, id), GetUserById))
      ensures r.Success? && r.value.Some? ==> fresh(r.value.value) && r.value.value.events == []
    {
      if fails {
        return Failure(Fault(GetUserById));
      }
      r := Read(UserById(users, id), GetUserById);
    }

    /** GetByEmailAsync: the first row with that e-mail that is not soft-deleted. */
    method GetByEmail(email: string, fails: bool) returns (r: Result<Option<User>>)
      ensures fails ==> r == Failure(Fault(GetUserByEmail))
      ensures !fails ==> Materialises(r, Stored(UserByEmail(users, email), GetUserByEmail))
      ensures r.Success? && r.value.Some? ==> fresh(r.value.value) && r.value.value.events == []
    {
      if fails {
        return Failure(Fault(GetUserByEmail));
      }
      r := Read(UserByEmail(users, email), GetUserByEmail);
    }

    /** CreateAsync: inserts the user's row and returns the id the insert reports, the user's own. */
    method Create(u: User, fails: bool) returns (r: Result<Guid>)
      modifies this
      ensures confirmations == old(confirmations)
      ensures fails ==> r == Failure(Fault(InsertUser)) && users == old(users)
      ensures !fails ==> r == Success(u.id) && users == old(users) + [InsertedRow(u.View())]
    {
      if fails {
        return Failure(Fault(InsertUser));
      }
      users := users + [InsertedRow(u.View())];
      r := Success(u.id);
    }

    /** UpdateAsync: rewrites every row with the user's id, soft-deleted or not. */
    method Update(u: User, now: Time, fails: bool) returns (o: Outcome)
      modifies this
      ensures confirmations == old(confirmations)
      ensures fails ==> o == Fail(Fault(UpdateUser)) && users == old(users)
      ensures !fails ==> o == Pass && users == UpdateWhere(old(users), u.View(), now)
    {
      if fails {
        return Fail(Fault(UpdateUser));
      }
      users := UpdateWhere(users, u.View(), now);
      o := Pass;
    }

    /** DeleteAsync: a soft delete; the rows stay, stamped as deleted. */
    method Delete(id: Guid, now: Time, fails: bool) returns (o: Outcome)
      modifies this
      ensures confirmations == old(confirmations)
      ensures fails ==> o == Fail(Fault(DeleteUser)) && users == old(users)
      ensures !fails ==> o == Pass && users == SoftDeleteWhere(old(users), id, now)
    {
      if fails {
        return Fail(Fault(DeleteUser));
      }
      users := SoftDeleteWhere(users, id, now);
      o := Pass;
    }

    /** GetEmailConfirmationByTokenAsync: filters on the token only. */
    method GetConfirmation(token: Guid, fails: bool) returns (r: Result<Option<ConfirmationRow>>)
      ensures fails ==> r == Failure(Fault(Call.GetConfirmation))
      ensures !fails ==> r == Success(ConfirmationByToken(confirmations, token))
    {
      if fails {
        return Failure(Fault(Call.GetConfirmation));
      }
      r := Success(ConfirmationByToken(confirmations, token));
    }

    /** MarkEmailConfirmationAsUsedAsync: every row with the token becomes confirmed at `now`. */
    method MarkUsed(token: Guid, now: Time, fails: bool) returns (o: Outcome)
      modifies this
      ensures users == old(users)
      ensures fails ==> o == Fail(Fault(MarkConfirmationUsed)) && confirmations == old(confirmations)
      ensures !fails ==> o == Pass && confirmations == MarkUsedWhere(old(confirmations), token, now)
    {
      if fails {
        return Fail(Fault(MarkConfirmationUsed));
      }
      confirmations := MarkUsedWhere(confirmations, token, now);
      o := Pass;
    }

    /** CreateEmailConfirmationAsync: appends an unconfirmed row. */
    method CreateConfirmation(userId: Guid, token: Guid, expiresAt: Time, now: Time, fails: bool) returns (o: Outcome)
      modifies this
      ensures users == old(users)
      ensures fails ==> o == Fail(Fault(InsertConfirmation)) && confirmations == old(confirmations)
      ensures !fails ==> o == Pass && confirmations == old(confirmations) + [NewConfirmation(userId, token, expiresAt, now)]
    {
      if fails {
        return Fail(Fault(InsertConfirmation));
      }
      confirmations := confirmations + [NewConfirmation(userId, token, expiresAt, now)];
      o := Pass;
    }
  }

  /**
   * What a lookup yields: no user, the data of the row found, or the data
   * mapper's exception when the row's theme text names no enum member.
   */
  function Stored(found: Option<UserRow>, origin: Call): (r: Result<Option<UserData>>)
    ensures found.None? ==> r == Success(None)
    ensures r.Failure? ==> r.error == Fault(origin)
    ensures found.Some? ==> (r.Failure? <==> ParseTheme(found.value.theme).None?)
    ensures r.Success? && r.value.Some? ==> found.Some? && SameFields(r.value.value, found.value)
  {
    if found.None? then Success(None)
    else
      match ToData(found.value)
      case None => Failure(Fault(origin))
      case Some(d) => Success(Some(d))
  }

  /** Every column of the row carried over, the theme parsed from its text. */
  predicate SameFields(d: UserData, row: UserRow) {
    && d.id == row.id && d.name == row.name && d.email == row.email
    && d.passwordHash == row.passwordHash && d.phone == row.phone
    && d.profilePicture == row.profilePicture && d.active == row.active
    && d.emailConfirmed == row.emailConfirmed && d.loginAttempts == row.loginAttempts
    && d.lockedUntil == row.lockedUntil && d.lastLogin == row.lastLogin
    && Some(d.theme) == ParseTheme(row.theme) && d.createdAt == row.createdAt
    && d.updatedAt == row.updatedAt && d.deletedAt == row.deletedAt
  }

  /** `r` is the outcome `s` describes, with a user object holding the described data. */
  predicate Materialises(r: Result<Option<User>>, s: Result<Option<UserData>>)
    reads if r.Success? && r.value.Some? then {r.value.value} else {}
  {
    match r
    case Failure(e) => s == Failure(e)
    case Success(None) => s == Success(None)
    case Success(Some(u)) => s == Success(Some(u.View()))
  }

  /** Materialises a looked-up row into a new user object. */
  method Read(found: Option<UserRow>, origin: Call) returns (r: Result<Option<User>>)
    ensures Materialises(r, Stored(found, origin))
    ensures r.Success? && r.value.Some? ==> fresh(r.value.value) && r.value.value.events == []
  {
    if found.None? {
      return Success(None);
    }
    var data := ToData(found.value);
    if data.None? {
      return Failure(Fault(origin));
    }
    var u := new User.FromData(data.value);
    r := Success(Some(u));
  }

  // ---- Properties of the table operations ----

  /** Two tables on which a condition holds at the same positions have the same first match. */
  lemma FindFirstAgrees<T, U>(a: seq<T>, p: T -> bool, b: seq<U>, q: U -> bool)
    requires |a| == |b|
    requires forall j :: 0 <= j < |a| ==> (p(a[j]) <==> q(b[j]))
    ensures FindFirst(a, p) == FindFirst(b, q)
  {
  }

  /** A user read by id after its soft delete is not found, though its rows remain. */
  lemma DeletedUserIsNotFound(rows: seq<UserRow>, id: Guid, now: Time)
    ensures |SoftDeleteWhere(rows, id, now)| == |rows|
    ensures UserById(SoftDeleteWhere(rows, id, now), id) == None
  {
    var r := SoftDeleteWhere(rows, id, now);
    forall j | 0 <= j < |r| ensures !LiveWithId(r[j], id) {
      if rows[j].id == id {
        assert r[j].deletedAt == Some(now);
      }
    }
  }

  /** Soft-deleted rows are reached by UpdateAsync: they take the new values and stay deleted. */
  lemma UpdateReachesDeletedRows(rows: seq<UserRow>, u: UserData, now: Time, i: nat)
    requires i < |rows| && rows[i].id == u.id && rows[i].deletedAt.Some?
    ensures var r := UpdateWhere(rows, u, now);
            && r[i].name == u.name && r[i].email == u.email && r[i].active == u.active
            && r[i].deletedAt == rows[i].deletedAt && r[i].updatedAt == Some(now)
  {
  }

  /** An update neither hides nor revives a user: it keeps deleted_at. */
  lemma UpdateKeepsLiveness(rows: seq<UserRow>, u: UserData, now: Time, id: Guid)
    ensures UserById(UpdateWhere(rows, u, now), id).None? <==> UserById(rows, id).None?
  {
    var r := UpdateWhere(rows, u, now);
    assert forall j :: 0 <= j < |rows| ==> (LiveWithId(r[j], id) <==> LiveWithId(rows[j], id));
  }

  /** Read after update: the live user with that id now reads back as the written data. */
  lemma ReadAfterUpdate(rows: seq<UserRow>, u: UserData, now: Time)
    requires UserById(rows, u.id).Some?
    ensures var before := UserById(rows, u.id).value;
            UserById(UpdateWhere(rows, u, now), u.id).Some?
            && ToData(UserById(UpdateWhere(rows, u, now), u.id).value)
               == Some(u.(createdAt := before.createdAt, updatedAt := Some(now), deletedAt := None))
  {
    var r := UpdateWhere(rows, u, now);
    var p := (row: UserRow) => LiveWithId(row, u.id);
    FindFirstAgrees(rows, p, r, p);
    var i := FindFirst(rows, p).value;
    assert r[i] == UpdatedRow(rows[i], u, now);
    ThemeRoundTrip(u.theme);
  }

  /** Read after insert: a user whose id is not live yet reads back as inserted. */
  lemma ReadAfterInsert(rows: seq<UserRow>, u: UserData)
    requires UserById(rows, u.id).None?
    ensures UserById(rows + [InsertedRow(u)], u.id) == Some(InsertedRow(u))
    ensures ToData(InsertedRow(u)) == Some(u.(deletedAt := None))
  {
    var r := rows + [InsertedRow(u)];
    assert LiveWithId(r[|rows|], u.id);
    assert forall j :: 0 <= j < |rows| ==> r[j] == rows[j];
    ThemeRoundTrip(u.theme);
  }

  /** A confirmation inserted under a new token is found by it, unconfirmed, with its expiry. */
  lemma InsertedConfirmationIsFound(rows: seq<ConfirmationRow>, userId: Guid, token: Guid, expiresAt: Time, now: Time)
    requires ConfirmationByToken(rows, token).None?
    ensures ConfirmationByToken(rows + [NewConfirmation(userId, token, expiresAt, now)], token)
            == Some(ConfirmationRow(userId, token, expiresAt, false, None, now))
  {
    var r := rows + [NewConfirmation(userId, token, expiresAt, now)];
    assert r[|rows|].token == token;
    assert forall j :: 0 <= j < |rows| ==> r[j] == rows[j];
  }

  /** After marking a token used, reading it gives the same row, confirmed at `now`. */
  lemma MarkedConfirmationIsConfirmed(rows: seq<ConfirmationRow>, token: Guid, now: Time)
    requires ConfirmationByToken(rows, token).Some?
    ensures ConfirmationByToken(MarkUsedWhere(rows, token, now), token)
            == Some(ConfirmationByToken(rows, token).value.(confirmed := true, confirmedAt := Some(now)))
  {
    var r := MarkUsedWhere(rows, token, now);
    var p := (row: ConfirmationRow) => row.token == token;
    assert forall j :: 0 <= j < |rows| ==> r[j].token == rows[j].token;
    FindFirstAgrees(rows, p, r, p);
  }

  /** Two updates of the same user in a row leave what the second one alone would. */
  lemma UpdateTwice(rows: seq<UserRow>, a: UserData, b: UserData, now: Time)
    requires a.id == b.id
    ensures UpdateWhere(UpdateWhere(rows, a, now), b, now) == UpdateWhere(rows, b, now)
  {
    var once := UpdateWhere(rows, a, now);
    var twice := UpdateWhere(once, b, now);
    forall i | 0 <= i < |rows| ensures twice[i] == UpdateWhere(rows, b, now)[i] {
      if rows[i].id == a.id {
        assert twice[i] == UpdatedRow(once[i], b, now);
      }
    }
  }
}
