/**
 * ConfirmEmailCommandHandler.cs: inside a transaction, looks up the
 * confirmation by token, rejects an unknown, used or expired token and a
 * missing user, and otherwise confirms the user's e-mail, marks the token used
 * and commits. The four rejections return without Commit or Rollback, so they
 * leave the transaction open. Any exception ends in a rollback attempt, whose
 * own failure is ignored, and a generic error answer.
 */
module ConfirmEmail {
  import opened Common
  import opened Data
  import opened Users
  import opened Repository

  const InvalidTokenMessage := "Token de confirmação inválido."
  const AlreadyConfirmedMessage := "Email já foi confirmado anteriormente."
  const ExpiredTokenMessage := "Token de confirmação expirado."
  const UserNotFoundMessage := "Usuário não encontrado."
  const ConfirmedMessage := "Email confirmado com sucesso!"
  const InternalErrorMessage := "Erro interno do servidor."

  datatype ConfirmEmailCommand = ConfirmEmailCommand(token: Guid)
  datatype ConfirmEmailResult = ConfirmEmailResult(success: bool, message: string, userId: Option<Guid>)

  function Reject(message: string): ConfirmEmailResult {
    ConfirmEmailResult(false, message, None)
  }

  /**
   * The token checks, in order: unknown, already confirmed, expired (the
   * expiry strictly before `now`). None when the token may be used.
   */
  function TokenCheck(c: Option<ConfirmationRow>, now: Time): (rejection: Option<string>)
    ensures rejection.None? <==> c.Some? && !c.value.confirmed && c.value.expiresAt >= now
    ensures c.None? ==> rejection == Some(InvalidTokenMessage)
    ensures c.Some? && c.value.confirmed ==> rejection == Some(AlreadyConfirmedMessage)
    ensures c.Some? && !c.value.confirmed && c.value.expiresAt < now ==> rejection == Some(ExpiredTokenMessage)
  {
    if c.None? then Some(InvalidTokenMessage)
    else if c.value.confirmed then Some(AlreadyConfirmedMessage)
    else if c.value.expiresAt < now then Some(ExpiredTokenMessage)
    else None
  }

  /** The user as the success path writes it. */
  function Confirmed(d: UserData, now: Time): (r: UserData)
    ensures r.emailConfirmed && r.updatedAt == Some(now)
    ensures r.(emailConfirmed := d.emailConfirmed, updatedAt := d.updatedAt) == d
  {
    d.(emailConfirmed := true, updatedAt := Some(now))
  }

  /** The calls of a confirmation that can throw. */
  datatype ConfirmFault =
    | BeginFails | TokenLookupFails | UserLookupFails | UpdateFails | MarkFails | CommitFails | RollbackFails

  class ConfirmEmailCommandHandler {
    const repo: UserRepository
    const uow: UnitOfWork

    constructor (repo: UserRepository, uow: UnitOfWork)
      ensures this.repo == repo && this.uow == uow
    {
      this.repo, this.uow := repo, uow;
    }

    /**
     * Handle. From an open transaction Begin throws, and the catch block rolls
     * that transaction back. From Idle: a rejection leaves a new transaction
     * open and nothing written; success writes the user and the token and
     * commits; any exception leaves no transaction open.
     */
    method Handle(request: ConfirmEmailCommand, now: Time, faults: set<ConfirmFault>) returns (result: ConfirmEmailResult)
      modifies uow, uow.connection, uow.transaction, repo
      ensures old(uow.transaction) != null || BeginFails in faults ==>
                result == Reject(InternalErrorMessage) && uow.transaction == null
                && repo.users == old(repo.users) && repo.confirmations == old(repo.confirmations)
      ensures old(uow.transaction) == null && BeginFails !in faults && TokenLookupFails in faults ==>
                result == Reject(InternalErrorMessage) && uow.transaction == null
                && repo.users == old(repo.users) && repo.confirmations == old(repo.confirmations)
      ensures old(uow.transaction) == null && BeginFails !in faults && TokenLookupFails !in faults ==>
                var c := ConfirmationByToken(old(repo.confirmations), request.token);
                if TokenCheck(c, now).Some? then
                  && result == Reject(TokenCheck(c, now).value)
                  && uow.transaction != null && fresh(uow.transaction) && uow.transaction.fate == Pending
                  && repo.users == old(repo.users) && repo.confirmations == old(repo.confirmations)
                else
                  var found := Stored(UserById(old(repo.users), c.value.userId), GetUserById);
                  if UserLookupFails in faults || found.Failure? then
                    && result == Reject(InternalErrorMessage) && uow.transaction == null
                    && repo.users == old(repo.users) && repo.confirmations == old(repo.confirmations)
                  else if found.value.None? then
                    && result == Reject(UserNotFoundMessage)
                    && uow.transaction != null && fresh(uow.transaction) && uow.transaction.fate == Pending
                    && repo.users == old(repo.users) && repo.confirmations == old(repo.confirmations)
                  else
                    && uow.transaction == null
                    && (UpdateFails in faults || MarkFails in faults || CommitFails in faults ==>
                          result == Reject(InternalErrorMessage))
                    && (UpdateFails in faults ==>
                          repo.users == old(repo.users) && repo.confirmations == old(repo.confirmations))
                    && (UpdateFails !in faults ==>
                          repo.users == UpdateWhere(old(repo.users), Confirmed(found.value.value, now), now))
                    && (UpdateFails !in faults && MarkFails in faults ==> repo.confirmations == old(repo.confirmations))
                    && (UpdateFails !in faults && MarkFails !in faults ==>
                          repo.confirmations == MarkUsedWhere(old(repo.confirmations), request.token, now))
                    && (UpdateFails !in faults && MarkFails !in faults && CommitFails !in faults ==>
                          result == ConfirmEmailResult(true, ConfirmedMessage, Some(found.value.value.id)))
    {
      var begun := uow.Begin(BeginFails in faults, BeginFails in faults);
      if begun.Fail? {
        Recover(RollbackFails in faults);
        return Reject(InternalErrorMessage);
      }
      var confirmation := repo.GetConfirmation(request.token, TokenLookupFails in faults);
      if confirmation.Failure? {
        Recover(RollbackFails in faults);
        return Reject(InternalErrorMessage);
      }
      var c := confirmation.value;
      if c.None? {
        return Reject(InvalidTokenMessage);
      }
      if c.value.confirmed {
        return Reject(AlreadyConfirmedMessage);
      }
      if c.value.expiresAt < now {
        return Reject(ExpiredTokenMessage);
      }
      var lookup := repo.GetById(c.value.userId, UserLookupFails in faults);
      if lookup.Failure? {
        Recover(RollbackFails in faults);
        return Reject(InternalErrorMessage);
      }
      if lookup.value.None? {
        return Reject(UserNotFoundMessage);
      }
      var user := lookup.value.value;
      result := ConfirmUser(user, request.token, now, faults);
    }

    /** Steps 6 to 9 of Handle: ConfirmEmail, UpdateAsync, MarkEmailConfirmationAsUsedAsync, Commit. */
    method ConfirmUser(user: User, token: Guid, now: Time, faults: set<ConfirmFault>) returns (result: ConfirmEmailResult)
      requires uow.transaction != null
      modifies uow, uow.transaction, repo, user
      ensures uow.transaction == null && uow.connection == old(uow.connection)
      ensures UpdateFails in faults || MarkFails in faults || CommitFails in faults ==> result == Reject(InternalErrorMessage)
      ensures UpdateFails in faults ==> repo.users == old(repo.users) && repo.confirmations == old(repo.confirmations)
      ensures UpdateFails !in faults ==> repo.users == UpdateWhere(old(repo.users), Confirmed(old(user.View()), now), now)
      ensures UpdateFails !in faults && MarkFails in faults ==> repo.confirmations == old(repo.confirmations)
      ensures UpdateFails !in faults && MarkFails !in faults ==>
                repo.confirmations == MarkUsedWhere(old(repo.confirmations), token, now)
      ensures UpdateFails !in faults && MarkFails !in faults && CommitFails !in faults ==>
                result == ConfirmEmailResult(true, ConfirmedMessage, Some(old(user.id)))
    {
      user.ConfirmEmail(now);
      var updated := repo.Update(user, now, UpdateFails in faults);
      if updated.Fail? {
        Recover(RollbackFails in faults);
        return Reject(InternalErrorMessage);
      }
      var marked := repo.MarkUsed(token, now, MarkFails in faults);
      if marked.Fail? {
        Recover(RollbackFails in faults);
        return Reject(InternalErrorMessage);
      }
      var committed := uow.Commit(CommitFails in faults);
      if committed.Fail? {
        Recover(RollbackFails in faults);
        return Reject(InternalErrorMessage);
      }
      result := ConfirmEmailResult(true, ConfirmedMessage, Some(user.id));
    }

    /** The catch block: a rollback attempt whose own exception is logged and dropped. */
    method Recover(rollbackFails: bool)
      modifies uow, uow.transaction
      ensures uow.transaction == null && uow.connection == old(uow.connection)
    {
      var _ := uow.Rollback(rollbackFails);
    }
  }

  // ---- The confirmation lifecycle ----

  /**
   * A confirmation stored for a new token at `now` can be used from then until
   * its expiry 24 hours later, and is refused as expired afterwards.
   */
  lemma NewTokenUsableFor24Hours(rows: seq<ConfirmationRow>, userId: Guid, token: Guid, now: Time, later: Time)
    requires ConfirmationByToken(rows, token).None?
    ensures var stored := rows + [NewConfirmation(userId, token, AddHours(now, 24), now)];
            && (later <= AddHours(now, 24) ==> TokenCheck(ConfirmationByToken(stored, token), later).None?)
            && (later > AddHours(now, 24) ==> TokenCheck(ConfirmationByToken(stored, token), later) == Some(ExpiredTokenMessage))
  {
    InsertedConfirmationIsFound(rows, userId, token, AddHours(now, 24), now);
  }

  /** Once a token has been marked used, every later attempt is refused as already confirmed. */
  lemma SecondConfirmationRefused(rows: seq<ConfirmationRow>, token: Guid, now: Time, later: Time)
    requires ConfirmationByToken(rows, token).Some?
    ensures TokenCheck(ConfirmationByToken(MarkUsedWhere(rows, token, now), token), later) == Some(AlreadyConfirmedMessage)
  {
    MarkedConfirmationIsConfirmed(rows, token, now);
  }

  /**
   * Confirming the same token twice, each request with its own unit of work:
   * when the first succeeds, the second is refused as already confirmed.
   */
  method ConfirmTwice(repo: UserRepository, token: Guid, first: Time, second: Time) returns (r1: ConfirmEmailResult, r2: ConfirmEmailResult)
    modifies repo
    ensures r1.success ==> r2 == Reject(AlreadyConfirmedMessage)
  {
    var uow1 := new UnitOfWork();
    var handler1 := new ConfirmEmailCommandHandler(repo, uow1);
    ghost var before := repo.confirmations;
    r1 := handler1.Handle(ConfirmEmailCommand(token), first, {});
    if r1.success {
      SecondConfirmationRefused(before, token, first, second);
    }
    var uow2 := new UnitOfWork();
    var handler2 := new ConfirmEmailCommandHandler(repo, uow2);
    r2 := handler2.Handle(ConfirmEmailCommand(token), second, {});
  }
}
