/**
 * The Bet aggregate (Bet.cs) and its value objects. `decimal` amounts and
 * odds are exact reals here. A bet keeps its details in a list that
 * AddDetail appends to, so it is a class; TotalOdds is set once, by Create.
 */
module Bets {
  import opened Common

  /** Money(amount) and Odd(value) are value objects compared by their one field. */
  datatype Money = Money(amount: real)
  datatype Odd = Odd(value: real)

  datatype BetStatus = Pending | Won | Lost | Void | PartiallyWon
  datatype BetDetailResult = DetailWon | DetailLost | DetailVoid | Pushed

  /** BetDetail: one selection of a bet, at its odd. */
  datatype BetDetail = BetDetail(
    betId: Guid,
    gameId: Guid,
    marketId: Guid,
    selection: string,
    odd: Odd,
    result: Option<BetDetailResult>)

  /** BetDetail.Create: BetId is left unset and there is no result yet. */
  function NewBetDetail(gameId: Guid, marketId: Guid, selection: string, odd: Odd): (d: BetDetail)
    ensures d.gameId == gameId && d.marketId == marketId && d.selection == selection && d.odd == odd
    ensures d.betId == EmptyGuid && d.result == None
  {
    BetDetail(EmptyGuid, gameId, marketId, selection, odd, None)
  }

  const NoDetailsMessage := "A bet must have at least one detail."

  /** Enumerable.Aggregate(seed, (acc, d) => acc * d.Odd.Value): a left fold. */
  function Aggregate(acc: real, details: seq<BetDetail>): real
    decreases |details|
  {
    if details == [] then acc else Aggregate(acc * details[0].odd.value, details[1..])
  }

  /** The product of the odds, as a right fold: the reference definition. */
  function Product(details: seq<BetDetail>): real
    decreases |details|
  {
    if details == [] then 1.0 else details[0].odd.value * Product(details[1..])
  }

  /** Folding from a seed multiplies the seed by the product of the odds. */
  lemma {:induction false} AggregateIsProduct(acc: real, details: seq<BetDetail>)
    ensures Aggregate(acc, details) == acc * Product(details)
    decreases |details|
  {
    if details != [] {
      AggregateIsProduct(acc * details[0].odd.value, details[1..]);
    }
  }

  /** The product over two runs of details is the product of their products. */
  lemma {:induction false} ProductOfConcat(a: seq<BetDetail>, b: seq<BetDetail>)
    ensures Product(a + b) == Product(a) * Product(b)
    decreases |a|
  {
    if a == [] {
      assert a + b == b;
    } else {
      assert (a + b)[1..] == a[1..] + b;
      ProductOfConcat(a[1..], b);
    }
  }

  /**
   * The integer nearest to `y`; on a tie, the even one (Math.Round's
   * default MidpointRounding.ToEven).
   */
  function RoundHalfEven(y: real): (n: int)
    ensures -0.5 <= n as real - y <= 0.5
    ensures n as real - y == 0.5 || n as real - y == -0.5 ==> n % 2 == 0
  {
    var f := y.Floor;
    var frac := y - f as real;
    if frac < 0.5 then f
    else if frac > 0.5 then f + 1
    else if f % 2 == 0 then f else f + 1
  }

  /** Math.Round(x, 3): the nearest multiple of 0.001, ties to the even last digit. */
  function Round3(x: real): (r: real)
    ensures -0.0005 <= r - x <= 0.0005
    ensures (r * 1000.0).Floor as real == r * 1000.0
    ensures r - x == 0.0005 || r - x == -0.0005 ==> (r * 1000.0).Floor % 2 == 0
  {
    RoundHalfEven(x * 1000.0) as real / 1000.0
  }

  /** Rounding an integer changes nothing, so a value already at 3 places is kept. */
  lemma RoundKeepsIntegers(n: int)
    ensures RoundHalfEven(n as real) == n
  {
  }

  lemma Round3Idempotent(x: real)
    ensures Round3(Round3(x)) == Round3(x)
  {
    var n := RoundHalfEven(x * 1000.0);
    assert Round3(x) * 1000.0 == n as real;
    RoundKeepsIntegers(n);
  }

  class Bet {
    var id: Guid
    var userId: Guid
    var betDate: Time
    var bookmakerId: Guid
    var betTypeId: Guid
    var stake: Money
    var totalOdds: Option<Odd>
    var betStatus: BetStatus
    var returnValue: Option<Money>
    var grossProfit: Option<Money>
    var netProfit: Option<Money>
    var profitUnits: Option<real>
    var commission: Option<Money>
    var notes: Option<string>
    var settledAt: Option<Time>
    var details: seq<BetDetail>

    /**
     * The object initializer of Create. The identifier is assigned by the
     * aggregate-root base class, which is not part of this model (ASSUMED:
     * a given new Guid). TotalOdds is still null here.
     */
    constructor Init(id: Guid, userId: Guid, bookmakerId: Guid, betTypeId: Guid, stake: Money, now: Time)
      ensures this.id == id && this.userId == userId && this.bookmakerId == bookmakerId
      ensures this.betTypeId == betTypeId && this.stake == stake && betDate == now
      ensures betStatus == Pending && totalOdds == None && details == []
      ensures returnValue == None && grossProfit == None && netProfit == None && profitUnits == None
      ensures commission == None && notes == None && settledAt == None
    {
      this.id, this.userId, this.bookmakerId, this.betTypeId := id, userId, bookmakerId, betTypeId;
      this.stake, betDate, betStatus := stake, now, Pending;
      totalOdds, returnValue, grossProfit, netProfit := None, None, None, None;
      profitUnits, commission, notes, settledAt := None, None, None, None;
      details := [];
    }

    /**
     * Bet.Create: throws ArgumentException when there are no details;
     * otherwise a Pending bet holding the details in order, whose TotalOdds
     * is the product of their odds rounded to three places.
     */
    static method Create(id: Guid, userId: Guid, bookmakerId: Guid, betTypeId: Guid, stake: Money,
                         details: seq<BetDetail>, now: Time) returns (r: Result<Bet>)
      ensures details == [] <==> r.Failure?
      ensures r.Failure? ==> r.error == Argument(NoDetailsMessage)
      ensures r.Success? ==>
                && fresh(r.value)
                && r.value.id == id && r.value.userId == userId && r.value.bookmakerId == bookmakerId
                && r.value.betTypeId == betTypeId && r.value.stake == stake && r.value.betDate == now
                && r.value.betStatus == Pending
                && r.value.details == details
                && r.value.totalOdds == Some(Odd(Round3(Product(details))))
    {
      var bet := new Bet.Init(id, userId, bookmakerId, betTypeId, stake, now);
      if details == [] {
        return Failure(Argument(NoDetailsMessage));
      }
      for i := 0 to |details|
        invariant bet.details == details[..i]
        invariant bet.id == id && bet.userId == userId && bet.bookmakerId == bookmakerId
        invariant bet.betTypeId == betTypeId && bet.stake == stake && bet.betDate == now
        invariant bet.betStatus == Pending
      {
        bet.AddDetail(details[i]);
      }
      assert details[..|details|] == details;
      bet.CalculateTotalOdds();
      r := Success(bet);
    }

    /** AddDetail: appends; TotalOdds is not recomputed. */
    method AddDetail(detail: BetDetail)
      modifies this
      ensures details == old(details) + [detail]
      ensures totalOdds == old(totalOdds) && betStatus == old(betStatus) && stake == old(stake)
      ensures id == old(id) && userId == old(userId) && bookmakerId == old(bookmakerId)
      ensures betTypeId == old(betTypeId) && betDate == old(betDate)
    {
      details := details + [detail];
    }

    /** CalculateTotalOdds: the product of the detail odds from 1.0, rounded to three places. */
    method CalculateTotalOdds()
      modifies this
      ensures totalOdds == Some(Odd(Round3(Product(details))))
      ensures details == old(details) && betStatus == old(betStatus) && stake == old(stake)
      ensures id == old(id) && userId == old(userId) && bookmakerId == old(bookmakerId)
      ensures betTypeId == old(betTypeId) && betDate == old(betDate)
    {
      var total := Aggregate(1.0, details);
      AggregateIsProduct(1.0, details);
      assert total == Product(details);
      totalOdds := Some(Odd(Round3(total)));
    }

    /** Validate: the rule bodies are commented out, so no error is added. */
    method Validate(errors: seq<Error>) returns (result: seq<Error>)
      ensures result == errors
    {
      result := errors;
    }
  }
}
