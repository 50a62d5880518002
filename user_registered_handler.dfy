/**
 * UserRegisteredEventHandler.cs: on a UserRegisteredEvent, stores an e-mail
 * confirmation for the new user that expires 24 hours later. Failures are
 * logged and dropped, and although a unit of work is injected it is never used.
 */
module Registration {
  import opened Common
  import opened Data
  import opened Repository

  /** UserRegisteredEvent(UserId, Email, Name, RegisteredAt). */
  datatype UserRegisteredEvent = UserRegisteredEvent(userId: Guid, email: string, name: string, registeredAt: Time)

  const ConfirmationValidityHours := 24

  class UserRegisteredEventHandler {
    const repo: UserRepository
    const uow: UnitOfWork

    constructor (repo: UserRepository, uow: UnitOfWork)
      ensures this.repo == repo && this.uow == uow
    {
      this.repo, this.uow := repo, uow;
    }

    /**
     * Handle. `token` is the Guid.NewGuid() of the confirmation and `now` the
     * clock; `insertFails` says whether the insert throws. The unit of work is
     * outside the frame: no transaction is begun, committed or rolled back.
     */
    method Handle(notification: UserRegisteredEvent, token: Guid, now: Time, insertFails: bool)
      modifies repo
      ensures repo.users == old(repo.users)
      ensures insertFails ==> repo.confirmations == old(repo.confirmations)
      ensures !insertFails ==>
                repo.confirmations == old(repo.confirmations)
                  + [NewConfirmation(notification.userId, token, AddHours(now, ConfirmationValidityHours), now)]
    {
      var expiresAt := AddHours(now, ConfirmationValidityHours);
      var _ := repo.CreateConfirmation(notification.userId, token, expiresAt, now, insertFails);
    }
  }
}
