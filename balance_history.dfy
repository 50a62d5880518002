/**
 * BalanceHistory (BalanceHistory.cs): one movement of a user's balance.
 * Its properties are only set by Create, so it is a value here.
 */
module Balances {
  import opened Common
  import opened Bets

  datatype TransactionType = Deposit | Withdrawal | BetPlaced | BetWon | BetLost | Commission

  datatype BalanceHistory = BalanceHistory(
    id: Guid,
    userId: Guid,
    betId: Option<Guid>,
    transactionType: TransactionType,
    amount: Money,
    balanceBefore: Money,
    balanceAfter: Money,
    description: Option<string>)

  /**
   * BalanceHistory.Create. The identifier comes from the entity base class,
   * which is not part of this model (ASSUMED: a given new Guid). The amount is
   * added as given whatever the transaction type: a withdrawal is not negated.
   */
  function Create(id: Guid, userId: Guid, transactionType: TransactionType, amount: Money, balanceBefore: Money,
                  description: Option<string> := None, betId: Option<Guid> := None): (h: BalanceHistory)
    ensures h.id == id && h.userId == userId && h.transactionType == transactionType
    ensures h.amount == amount && h.balanceBefore == balanceBefore
    ensures h.description == description && h.betId == betId
    ensures h.balanceAfter.amount - h.balanceBefore.amount == amount.amount
  {
    BalanceHistory(id, userId, betId, transactionType, amount, balanceBefore,
                   Money(balanceBefore.amount + amount.amount), description)
  }

  /** The type of movement plays no part in the resulting balance. */
  lemma BalanceIgnoresType(id: Guid, userId: Guid, t1: TransactionType, t2: TransactionType, amount: Money, before: Money)
    ensures Create(id, userId, t1, amount, before).balanceAfter == Create(id, userId, t2, amount, before).balanceAfter
  {
  }

  /**
   * A run of movements made by Create, one per (type, amount), each starting
   * from the balance the previous one ended at. BalanceHistory itself keeps no
   * such run; it is here to state ReplayChains.
   */
  function Replay(userId: Guid, start: Money, moves: seq<(TransactionType, Money)>, ids: seq<Guid>): (hs: seq<BalanceHistory>)
    requires |ids| == |moves|
    ensures |hs| == |moves|
    decreases |moves|
  {
    if moves == [] then []
    else
      var h := Create(ids[0], userId, moves[0].0, moves[0].1, start);
      [h] + Replay(userId, h.balanceAfter, moves[1..], ids[1..])
  }

  function Total(moves: seq<(TransactionType, Money)>): real
    decreases |moves|
  {
    if moves == [] then 0.0 else moves[0].1.amount + Total(moves[1..])
  }

  /**
   * Chained movements: each begins at the balance the previous one ended at,
   * and the last ends at the starting balance plus the sum of all amounts.
   */
  lemma {:induction false} ReplayChains(userId: Guid, start: Money, moves: seq<(TransactionType, Money)>, ids: seq<Guid>)
    requires |ids| == |moves|
    ensures var hs := Replay(userId, start, moves, ids);
            && (hs != [] ==> hs[0].balanceBefore == start)
            && (forall i :: 0 <= i < |hs| - 1 ==> hs[i + 1].balanceBefore == hs[i].balanceAfter)
            && (hs != [] ==> hs[|hs| - 1].balanceAfter.amount == start.amount + Total(moves))
    decreases |moves|
  {
    if moves != [] {
      var h := Create(ids[0], userId, moves[0].0, moves[0].1, start);
      ReplayChains(userId, h.balanceAfter, moves[1..], ids[1..]);
      var hs := Replay(userId, start, moves, ids);
      var tail := Replay(userId, h.balanceAfter, moves[1..], ids[1..]);
      assert hs == [h] + tail;
      forall i | 0 <= i < |hs| - 1
        ensures hs[i + 1].balanceBefore == hs[i].balanceAfter
      {
        if i > 0 {
          assert hs[i] == tail[i - 1] && hs[i + 1] == tail[i];
        }
      }
    }
  }

  /** Validate: its body is empty, so no error is added. */
  function Validate(errors: seq<Error>): (result: seq<Error>)
    ensures result == errors
  {
    errors
  }
}
