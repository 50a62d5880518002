/**
 * The unit of work of the infrastructure layer (UnitOfWork.cs): one lazily
 * created database connection and at most one open transaction.
 *
 * States: Idle (`transaction == null`) and Active (`transaction != null`).
 * The database driver is not modelled; each method that calls into it takes a
 * flag saying whether that driver call throws.
 */
module Data {
  import opened Common

  /** The driver's connection object (NpgsqlConnection). */
  class DbConnection {
    var isOpen: bool
    var disposed: bool

    constructor ()
      ensures !isOpen && !disposed
    {
      isOpen, disposed := false, false;
    }
  }

  /** What became of a driver transaction. */
  datatype TxFate = Pending | Committed | RolledBack

  /** The driver's transaction object (IDbTransaction). */
  class DbTransaction {
    var fate: TxFate
    var disposed: bool

    constructor ()
      ensures fate == Pending && !disposed
    {
      fate, disposed := Pending, false;
    }
  }

  const AlreadyActiveMessage := "Uma transação já está ativa."
  const NothingToCommitMessage := "Nenhuma transação ativa para confirmar."
  const NothingToRollbackMessage := "Nenhuma transação ativa para desfazer."

  class UnitOfWork {
    var connection: DbConnection?
    var transaction: DbTransaction?
    var disposed: bool

    /** Idle: no transaction is open. */
    predicate IsIdle()
      reads this
    {
      transaction == null
    }

    /** A new unit of work is Idle and has not created its connection yet. */
    constructor ()
      ensures connection == null && transaction == null && !disposed
    {
      connection, transaction, disposed := null, null, false;
    }

    /**
     * The `Connection` getter: creates the connection on first use and opens
     * it whenever it is not open. `openFails` says whether the driver's Open()
     * throws; a connection created by a failing call is kept, unopened.
     */
    method GetConnection(openFails: bool) returns (r: Result<DbConnection>)
      modifies this, connection
      ensures transaction == old(transaction) && disposed == old(disposed)
      ensures old(connection) != null ==> connection == old(connection)
      ensures old(connection) == null ==> connection != null && fresh(connection) && !connection.disposed
      ensures connection != null
      ensures connection.disposed == (old(connection) != null && old(connection.disposed))
      ensures var wasOpen := old(connection) != null && old(connection.isOpen);
              && (wasOpen || !openFails ==> r == Success(connection) && connection.isOpen)
              && (!wasOpen && openFails ==> r == Failure(Fault(OpenConnection)) && !connection.isOpen)
    {
      if connection == null {
        connection := new DbConnection();
        r := Open(connection, openFails);
      } else if !connection.isOpen {
        r := Open(connection, openFails);
      } else {
        r := Success(connection);
      }
    }

    /** BeginTransactionAsync. Throws when a transaction is already open. */
    method Begin(openFails: bool, startFails: bool) returns (o: Outcome)
      modifies this, connection
      ensures disposed == old(disposed)
      ensures old(transaction) != null ==>
                && o == Fail(InvalidOperation(AlreadyActiveMessage))
                && transaction == old(transaction)
                && connection == old(connection)
                && (connection != null ==> unchanged(connection))
      ensures old(transaction) == null ==>
                && connection != null
                && (old(connection) != null ==> connection == old(connection))
                && (old(connection) == null ==> fresh(connection))
                && (o.Pass? <==> transaction != null)
                && (o.Pass? ==> fresh(transaction) && transaction.fate == Pending && !transaction.disposed && connection.isOpen)
                && (o.Pass? <==> !startFails && (!openFails || (old(connection) != null && old(connection.isOpen))))
                && (o.Fail? ==> o.error == Fault(OpenConnection) || o.error == Fault(BeginTransaction))
    {
      if transaction != null {
        return Fail(InvalidOperation(AlreadyActiveMessage));
      }
      var c := GetConnection(openFails);
      if c.Failure? {
        return Fail(c.error);
      }
      if startFails {
        return Fail(Fault(BeginTransaction));
      }
      transaction := new DbTransaction();
      o := Pass;
    }

    /**
     * CommitTransactionAsync. Throws when no transaction is open; otherwise
     * commits, and disposes and forgets the transaction even when the
     * driver's Commit() throws (`commitFails`).
     */
    method Commit(commitFails: bool) returns (o: Outcome)
      modifies this, transaction
      ensures connection == old(connection) && disposed == old(disposed)
      ensures old(transaction) == null ==>
                o == Fail(InvalidOperation(NothingToCommitMessage)) && transaction == null
      ensures old(transaction) != null ==>
                && transaction == null
                && old(transaction).disposed
                && old(transaction).fate == (if commitFails then old(transaction.fate) else Committed)
                && o == (if commitFails then Fail(Fault(CommitTransaction)) else Pass)
    {
      if transaction == null {
        return Fail(InvalidOperation(NothingToCommitMessage));
      }
      if commitFails {
        o := Fail(Fault(CommitTransaction));
      } else {
        transaction.fate := Committed;
        o := Pass;
      }
      transaction.disposed := true;
      transaction := null;
    }

    /**
     * RollbackTransactionAsync. Throws when no transaction is open; otherwise
     * rolls back, and disposes and forgets the transaction even when the
     * driver's Rollback() throws (`rollbackFails`).
     */
    method Rollback(rollbackFails: bool) returns (o: Outcome)
      modifies this, transaction
      ensures connection == old(connection) && disposed == old(disposed)
      ensures old(transaction) == null ==>
                o == Fail(InvalidOperation(NothingToRollbackMessage)) && transaction == null
      ensures old(transaction) != null ==>
                && transaction == null
                && old(transaction).disposed
                && old(transaction).fate == (if rollbackFails then old(transaction.fate) else RolledBack)
                && o == (if rollbackFails then Fail(Fault(RollbackTransaction)) else Pass)
    {
      if transaction == null {
        return Fail(InvalidOperation(NothingToRollbackMessage));
      }
      if rollbackFails {
        o := Fail(Fault(RollbackTransaction));
      } else {
        transaction.fate := RolledBack;
        o := Pass;
      }
      transaction.disposed := true;
      transaction := null;
    }

    /** SaveChangesAsync: statements run immediately, so nothing is pending. */
    method SaveChanges() returns (n: int)
      ensures n == 0
    {
      n := 0;
    }

    /** Dispose: releases the transaction and the connection, once. */
    method Dispose()
      modifies this, connection, transaction
      ensures disposed
      ensures connection == old(connection) && transaction == old(transaction)
      ensures old(disposed) ==> unchanged(this) && (connection != null ==> unchanged(connection))
                                && (transaction != null ==> unchanged(transaction))
      ensures !old(disposed) ==> (connection != null ==> connection.disposed && connection.isOpen == old(connection.isOpen))
                                 && (transaction != null ==> transaction.disposed && transaction.fate == old(transaction.fate))
    {
      if !disposed {
        if transaction != null {
          transaction.disposed := true;
        }
        if connection != null {
          connection.disposed := true;
        }
        disposed := true;
      }
    }
  }

  /** connection.Open(): throws when `fails`, otherwise the connection is open. */
  method Open(c: DbConnection, fails: bool) returns (r: Result<DbConnection>)
    modifies c
    ensures c.disposed == old(c.disposed)
    ensures fails ==> r == Failure(Fault(OpenConnection)) && c.isOpen == old(c.isOpen)
    ensures !fails ==> r == Success(c) && c.isOpen
  {
    if fails {
      return Failure(Fault(OpenConnection));
    }
    c.isOpen := true;
    r := Success(c);
  }

  /**
   * The handle is reusable: from Idle, Begin then Commit (or Rollback) returns
   * to Idle, and a second Begin succeeds again.
   */
  method BeginCommitBegin(uow: UnitOfWork, commitFails: bool, useRollback: bool) returns (o1: Outcome, o2: Outcome)
    requires uow.transaction == null
    modifies uow, uow.connection
    ensures o1.Pass? && o2.Pass?
    ensures uow.transaction != null && uow.transaction.fate == Pending
  {
    o1 := uow.Begin(false, false);
    var first := uow.transaction;
    if useRollback {
      var _ := uow.Rollback(commitFails);
    } else {
      var _ := uow.Commit(commitFails);
    }
    assert uow.transaction == null && first.disposed;
    o2 := uow.Begin(false, false);
    assert uow.transaction != first;
  }
}
