/**
 * The books end to end: what whole runs of trades and reconciling turns add to the realised
 * total that the reports show, against what the contract cost and brought in.
 */
module RealisedCash {
  import opened Prelude
  import opened Trade
  import opened TradeLedger
  import opened OrderLifecycle
  import opened ExecuteTrade
  import opened LedgerRuns
  import opened ProfitConservation
  import opened Performance

  /** The cash of one row for a user, of one contract or of all. */
  function CashOf(row: Execution, user: UserId, contract: Option<string>): int {
    if row.user == user && (contract.Some? ==> row.contract == contract.value) then TradeCashflow(row).GetOr(0) else 0
  }

  function Cash(rows: seq<Execution>, user: UserId, contract: Option<string>): int {
    if rows == [] then 0 else Cash(rows[..|rows| - 1], user, contract) + CashOf(rows[|rows| - 1], user, contract)
  }

  lemma {:induction false} TotalIsAllCash(rows: seq<Execution>, user: UserId)
    ensures TotalCash(rows, user) == Cash(rows, user, None)
  {
    if rows != [] {
      TotalIsAllCash(rows[..|rows| - 1], user);
    }
  }

  lemma AppendedCash(rows: seq<Execution>, row: Execution, user: UserId, contract: Option<string>)
    ensures Cash(rows + [row], user, contract) == Cash(rows, user, contract) + CashOf(row, user, contract)
  {
    assert (rows + [row])[..|rows|] == rows;
  }

  lemma {:induction false} UpdatedCash(rows: seq<Execution>, i: nat, row: Execution, user: UserId, contract: Option<string>)
    requires i < |rows|
    ensures Cash(rows[i := row], user, contract) ==
              Cash(rows, user, contract) - CashOf(rows[i], user, contract) + CashOf(row, user, contract)
  {
    var n := |rows| - 1;
    if i == n {
      assert rows[i := row][..n] == rows[..n];
    } else {
      UpdatedCash(rows[..n], i, row, user, contract);
      assert rows[i := row][..n] == rows[..n][i := row];
    }
  }

  // ----- what one event realises -----

  /** A close that an event books for a user. */
  datatype Booking = Booking(contract: string, close: Close)

  function PlacedBooking(e: Event, user: UserId): Option<Booking>
    requires e.Traded?
  {
    if e.user.id == user && e.v.errors == [] && !Aborts(e.v, e.b) && !Uncovered(e.v, e.b) && e.v.action.SellToClose? then
      var (status, price) := PlacedStatus(e.v, e.b);
      if status == Filled && price.Some? then Some(Booking(e.v.contractSymbol, Close(price.value, e.v.quantity))) else None
    else None
  }

  function SettledBooking(row: Execution, reply: Option<StatusData>, user: UserId): Option<Booking> {
    if Reconcilable(row) && row.user == user then
      var (status, price) := ResolveFill(row.orderId, true, reply, row.fillPrice);
      if status == Filled && price.Some? then Some(Booking(row.contract, Close(price.value, row.quantity))) else None
    else None
  }

  function BookedBy(rows: seq<Execution>, e: Event, user: UserId): Option<Booking> {
    match e
    case Traded(_, _, _, _, _) => PlacedBooking(e, user)
    case TradedFuture(_, _, _, _, _, _) => None
    case Asked(i, reply) => if i < |rows| then SettledBooking(rows[i], reply, user) else None
  }

  /** In cents, against the average there is at the time. */
  function Amount(rows: seq<Execution>, user: UserId, contract: Option<string>, booking: Option<Booking>): int {
    if booking.Some? && (contract.Some? ==> booking.value.contract == contract.value)
    then ClosePnl(rows, user, booking.value.contract, booking.value.close.quantity, Some(booking.value.close.price)).GetOr(0)
    else 0
  }

  lemma PlacedCash(rows: seq<Execution>, e: Event, user: UserId, contract: Option<string>)
    requires e.Traded? && e.v.errors == [] && !Aborts(e.v, e.b) && !Uncovered(e.v, e.b)
    ensures CashOf(PlacedRow(rows, e.user, e.alert, e.v, e.b, e.at), user, contract)
         == Amount(rows, user, contract, PlacedBooking(e, user))
  {
  }

  lemma RejectedCashIsNone(rows: seq<Execution>, e: Event, status: Status, user: UserId, contract: Option<string>)
    requires e.Traded? && status != Filled
    ensures var row := EntryRow(e.user, e.alert, e.v, status, None, None, "", e.at);
            Cash(rows + [row], user, contract) == Cash(rows, user, contract)
  {
    AppendedCash(rows, EntryRow(e.user, e.alert, e.v, status, None, None, "", e.at), user, contract);
  }

  lemma WithLegKeepsCash(rows: seq<Execution>, v: ValidatedTrade, entry: Execution, reported: OrderId, cents: int,
                         accepted: bool, at: Time, user: UserId, contract: Option<string>)
    ensures Cash(WithLeg(rows, v, entry, reported, cents, accepted, at), user, contract) == Cash(rows, user, contract)
  {
    AppendedCash(rows, Leg(v, entry, LegOrderId(reported, entry.orderId), cents, accepted, at), user, contract);
  }

  lemma TradedCash(rows: seq<Execution>, e: Event, user: UserId, contract: Option<string>)
    requires e.Traded?
    ensures Cash(Step(rows, e), user, contract) == Cash(rows, user, contract) + Amount(rows, user, contract, PlacedBooking(e, user))
  {
    if e.v.errors != [] {
      RejectedCashIsNone(rows, e, ValidationFailed, user, contract);
    } else if Aborts(e.v, e.b) {
    } else if Uncovered(e.v, e.b) {
      RejectedCashIsNone(rows, e, Skipped, user, contract);
    } else {
      var entry := PlacedRow(rows, e.user, e.alert, e.v, e.b, e.at);
      PlacedCash(rows, e, user, contract);
      AppendedCash(rows, entry, user, contract);
      if ExitOf(e.v).Some? {
        WithLegKeepsCash(rows + [entry], e.v, entry, e.b.placed.value.legId, ExitOf(e.v).value, e.b.placed.value.legAccepted, e.at,
                         user, contract);
      }
    }
  }

  lemma SettledCash(rows: seq<Execution>, row: Execution, reply: Option<StatusData>, user: UserId, contract: Option<string>)
    requires Reconcilable(row)
    ensures CashOf(row, user, contract) == 0
    ensures CashOf(Settled(rows, row, reply), user, contract) == Amount(rows, user, contract, SettledBooking(row, reply, user))
  {
  }

  /** The realised total moves by exactly what the event books. */
  lemma StepCash(rows: seq<Execution>, e: Event, user: UserId, contract: Option<string>)
    ensures Cash(Step(rows, e), user, contract) == Cash(rows, user, contract) + Amount(rows, user, contract, BookedBy(rows, e, user))
  {
    match e
    case Traded(_, _, _, _, _) => TradedCash(rows, e, user, contract);
    case TradedFuture(owner, alert, f, to, net, at) =>
      if Step(rows, e) != rows {
        AppendedCash(rows, Step(rows, e)[|rows|], user, contract);
      }
    case Asked(i, reply) =>
      if i < |rows| && Reconcilable(rows[i]) {
        SettledCash(rows, rows[i], reply, user, contract);
        UpdatedCash(rows, i, Settled(rows, rows[i], reply), user, contract);
      }
  }

  // ----- runs -----

  /** The closes of a contract that a run books, in order. */
  function ClosesOf(rows: seq<Execution>, events: seq<Event>, user: UserId, contract: string): seq<Close> {
    if events == [] then []
    else
      var before := After(rows, events[..|events| - 1]);
      var booking := BookedBy(before, events[|events| - 1], user);
      ClosesOf(rows, events[..|events| - 1], user, contract)
      + if booking.Some? && booking.value.contract == contract then [booking.value.close] else []
  }

  ghost predicate NothingOpened(events: seq<Event>, user: UserId, contract: string) {
    forall k :: 0 <= k < |events| ==> OpenedBy(events[k], user, contract).None?
  }

  lemma {:induction false} AverageStays(rows: seq<Execution>, events: seq<Event>, user: UserId, contract: string)
    requires NothingOpened(events, user, contract)
    ensures OpenQuantity(After(rows, events), user, contract) == OpenQuantity(rows, user, contract)
    ensures OpenCost(After(rows, events), user, contract) == OpenCost(rows, user, contract)
  {
    if events != [] {
      var before, e := events[..|events| - 1], events[|events| - 1];
      AverageStays(rows, before, user, contract);
      if e.Traded? {
        ExecutedCost(After(rows, before), e, user, contract);
      } else {
        StepCost(After(rows, before), e, user, contract);
      }
    }
  }

  lemma {:induction false} OneMoreClose(average: real, closes: seq<Close>, c: Close)
    ensures ExactTotal(average, closes + [c]) == ExactTotal(average, closes) + ExactPnl(average, c.price, c.quantity)
  {
    if closes == [] {
      assert [c][1..] == [];
    } else {
      OneMoreClose(average, closes[1..], c);
      assert (closes + [c])[1..] == closes[1..] + [c];
    }
  }

  /** Within `n` half-cents of an amount in dollars. */
  predicate Near(cents: int, dollars: real, n: nat) {
    dollars * 100.0 - n as real * 0.5 <= cents as real <= dollars * 100.0 + n as real * 0.5
  }

  lemma NearAdds(a: int, x: real, n: nat, b: int, y: real)
    requires Near(a, x, n) && Near(b, y, 1)
    ensures Near(a + b, x + y, n + 1)
  {
  }

  lemma AmountIsNear(rows: seq<Execution>, user: UserId, booking: Booking, average: real)
    requires booking.contract != "" && OpenQuantity(rows, user, booking.contract) > 0
    requires average == AverageOpen(rows, user, booking.contract)
    ensures Near(Amount(rows, user, Some(booking.contract), Some(booking)),
                 ExactPnl(average, booking.close.price, booking.close.quantity), 1)
  {
  }

  /** One more event, after a part of the run that has kept the average. */
  lemma StepIsNear(mid: seq<Execution>, e: Event, user: UserId, contract: string, average: real, closes: seq<Close>, sofar: int)
    requires contract != "" && OpenQuantity(mid, user, contract) > 0 && average == AverageOpen(mid, user, contract)
    requires Near(sofar, ExactTotal(average, closes), |closes|)
    ensures var booking := BookedBy(mid, e, user);
            var closes' := closes + if booking.Some? && booking.value.contract == contract then [booking.value.close] else [];
            Near(sofar + Amount(mid, user, Some(contract), booking), ExactTotal(average, closes'), |closes'|)
  {
    var booking := BookedBy(mid, e, user);
    if booking.Some? && booking.value.contract == contract {
      var c := booking.value.close;
      OneMoreClose(average, closes, c);
      AmountIsNear(mid, user, booking.value, average);
      NearAdds(sofar, ExactTotal(average, closes), |closes|, Amount(mid, user, Some(contract), booking),
               ExactPnl(average, c.price, c.quantity));
    } else {
      assert closes + [] == closes;
    }
  }

  /** What a run has added to the cash of a contract, and against which closes. */
  ghost predicate Realises(rows: seq<Execution>, events: seq<Event>, user: UserId, contract: string, average: real) {
    var closes := ClosesOf(rows, events, user, contract);
    Near(Cash(After(rows, events), user, Some(contract)) - Cash(rows, user, Some(contract)), ExactTotal(average, closes), |closes|)
  }

  lemma OneMoreEvent(rows: seq<Execution>, events: seq<Event>, e: Event, user: UserId, contract: string, average: real)
    requires contract != "" && Realises(rows, events, user, contract, average)
    requires OpenQuantity(After(rows, events), user, contract) > 0 && average == AverageOpen(After(rows, events), user, contract)
    ensures Realises(rows, events + [e], user, contract, average)
  {
    var mid := After(rows, events);
    assert (events + [e])[..|events|] == events;
    StepCash(mid, e, user, Some(contract));
    StepIsNear(mid, e, user, contract, average, ClosesOf(rows, events, user, contract),
               Cash(mid, user, Some(contract)) - Cash(rows, user, Some(contract)));
  }

  lemma SameAverage(rows: seq<Execution>, rows': seq<Execution>, user: UserId, contract: string)
    requires OpenQuantity(rows, user, contract) > 0
    requires OpenQuantity(rows', user, contract) == OpenQuantity(rows, user, contract)
    requires OpenCost(rows', user, contract) == OpenCost(rows, user, contract)
    ensures AverageOpen(rows', user, contract) == AverageOpen(rows, user, contract)
  {
  }

  /** A run that opens no more of a contract realises its closes against one average. */
  lemma {:induction false} RunCash(rows: seq<Execution>, events: seq<Event>, user: UserId, contract: string)
    requires contract != "" && OpenQuantity(rows, user, contract) > 0 && NothingOpened(events, user, contract)
    ensures Realises(rows, events, user, contract, AverageOpen(rows, user, contract))
  {
    if events != [] {
      var before, e := events[..|events| - 1], events[|events| - 1];
      RunCash(rows, before, user, contract);
      AverageStays(rows, before, user, contract);
      SameAverage(rows, After(rows, before), user, contract);
      OneMoreEvent(rows, before, e, user, contract, AverageOpen(rows, user, contract));
      assert before + [e] == events;
    }
  }

  lemma {:induction false} AfterConcat(rows: seq<Execution>, a: seq<Event>, b: seq<Event>)
    ensures After(rows, a + b) == After(After(rows, a), b)
  {
    if b == [] {
      assert a + b == a;
    } else {
      AfterConcat(rows, a, b[..|b| - 1]);
      assert (a + b)[..|a + b| - 1] == a + b[..|b| - 1];
    }
  }

  /**
   * The books balance end to end. After any run `first`, let a run `later` open no more of a
   * contract and close as many as `first` bought. Whatever else happens meanwhile, the cash
   * realised on the contract during `later` is what the closes brought in minus what the buys
   * had cost, to within half a cent per close.
   */
  lemma RunsBalance(first: seq<Event>, later: seq<Event>, user: UserId, contract: string)
    requires contract != "" && BoughtQuantity(first, user, contract) > 0 && NothingOpened(later, user, contract)
    requires ClosedQuantity(ClosesOf(After([], first), later, user, contract)) == BoughtQuantity(first, user, contract)
    ensures var closes := ClosesOf(After([], first), later, user, contract);
            Near(Cash(After([], first + later), user, Some(contract)) - Cash(After([], first), user, Some(contract)),
                 Proceeds(closes) - BoughtCost(first, user, contract), |closes|)
  {
    var rows := After([], first);
    AfterConcat([], first, later);
    OpenCostIsBuysFilledAtOnce(first, user, contract);
    RunCash(rows, later, user, contract);
    ClosesConserve(rows, user, contract, ClosesOf(rows, later, user, contract));
  }

  /** Nothing of the user's but this contract is closed. */
  ghost predicate OnlyCloses(rows: seq<Execution>, events: seq<Event>, user: UserId, contract: string) {
    forall k :: 0 <= k < |events| ==>
      var booking := BookedBy(After(rows, events[..k]), events[k], user);
      booking.Some? ==> booking.value.contract == contract
  }

  lemma {:induction false} OtherCashStays(rows: seq<Execution>, events: seq<Event>, user: UserId, contract: string)
    requires OnlyCloses(rows, events, user, contract)
    ensures TotalCash(After(rows, events), user) - TotalCash(rows, user)
         == Cash(After(rows, events), user, Some(contract)) - Cash(rows, user, Some(contract))
  {
    if events != [] {
      var before, e := events[..|events| - 1], events[|events| - 1];
      var mid := After(rows, before);
      assert OnlyCloses(rows, before, user, contract) by {
        forall k | 0 <= k < |before|
          ensures var booking := BookedBy(After(rows, before[..k]), before[k], user);
                  booking.Some? ==> booking.value.contract == contract
        {
          assert before[..k] == events[..k] && before[k] == events[k];
        }
      }
      OtherCashStays(rows, before, user, contract);
      StepCash(mid, e, user, Some(contract));
      StepCash(mid, e, user, None);
      TotalIsAllCash(mid, user);
      TotalIsAllCash(After(rows, events), user);
      assert events[..|events| - 1] == before;
    }
  }

  /** Then the realised total of the reports moves by just that. */
  lemma ReportedTotalBalances(first: seq<Event>, later: seq<Event>, user: UserId, contract: string)
    requires contract != "" && BoughtQuantity(first, user, contract) > 0 && NothingOpened(later, user, contract)
    requires ClosedQuantity(ClosesOf(After([], first), later, user, contract)) == BoughtQuantity(first, user, contract)
    requires OnlyCloses(After([], first), later, user, contract)
    ensures var closes := ClosesOf(After([], first), later, user, contract);
            Near(TotalCash(After([], first + later), user) - TotalCash(After([], first), user),
                 Proceeds(closes) - BoughtCost(first, user, contract), |closes|)
  {
    RunsBalance(first, later, user, contract);
    AfterConcat([], first, later);
    OtherCashStays(After([], first), later, user, contract);
  }

  // ----- one such run -----

  /** Two contracts at 1.00, to be sold at half as much again. */
  const BUY: ValidatedTrade := ValidatedTrade(
    BuyToOpen, "SPX", Call, 5000.0, 0, 2, None, "", "C", Some(0.9), Some(1.0), None, [], Some(0.5), None)

  const BOUGHT: BrokerReplies := BrokerReplies(
    Returned([]), Returned(PlaceResult(true, "entry", "exit", true)), true, Returned(Reply("FILLED", Some(1.0))))

  function Bought(user: User, at: Time): Event {
    Traded(user, "alert", BUY, BOUGHT, at)
  }

  /** The entry is filled at once, and its exit rests at 1.50. */
  lemma EntryAndExit(user: User, at: Time) returns (entry: Execution, exit: Execution)
    ensures After([], [Bought(user, at)]) == [entry, exit]
    ensures entry == EntryRow(user, "alert", BUY, Filled, Some(1.0), None, "entry", at)
    ensures exit.user == user.id && exit.contract == "C" && exit.quantity == 2 && Reconcilable(exit) && exit.fillPrice == Some(1.5)
    ensures OpenedBy(Bought(user, at), user.id, "C") == Some((2, 1.0))
  {
    NoMarkInNothing();
    assert [Bought(user, at)][..0] == [];
    assert FirstLegPrice([]) == None;
    assert PlacedStatus(BUY, BOUGHT) == (Filled, Some(1.0));
    entry := PlacedRow([], user, "alert", BUY, BOUGHT, at);
    assert TargetCents(1.0, 0.5) == 150.0;
    assert TakeProfitPrice(BUY) == Some(150);
    exit := Leg(BUY, entry, "exit", 150, true, at);
    assert [] + [entry] == [entry] && [entry] + [exit] == [entry, exit];
  }

  lemma OneClose(c: Close)
    ensures ClosedQuantity([c]) == c.quantity && Proceeds([c]) == Outlay(c.price, c.quantity)
  {
    assert [c][1..] == [];
  }

  /** The exit fills at 1.50, and $100 are realised. */
  lemma TakeProfitIsRealised(user: User, at: Time)
    ensures var first, later := [Bought(user, at)], [Asked(1, Reply("FILLED", Some(1.5)))];
            && BoughtQuantity(first, user.id, "C") == 2 && NothingOpened(later, user.id, "C")
            && ClosesOf(After([], first), later, user.id, "C") == [Close(1.5, 2)]
            && Cash(After([], first + later), user.id, Some("C")) - Cash(After([], first), user.id, Some("C")) == 10000
  {
    var first, later := [Bought(user, at)], [Asked(1, Reply("FILLED", Some(1.5)))];
    var entry, exit := EntryAndExit(user, at);
    assert first[..0] == [] && later[..0] == [];
    assert After([], first)[1] == exit;
    assert FirstLegPrice([]) == None;
    assert SettledBooking(exit, Reply("FILLED", Some(1.5)), user.id) == Some(Booking("C", Close(1.5, 2)));
    var closes := ClosesOf(After([], first), later, user.id, "C");
    assert closes == [] + [Close(1.5, 2)] == [Close(1.5, 2)];
    OneClose(Close(1.5, 2));
    assert Outlay(1.5, 2) == 300.0 && Outlay(1.0, 2) == 200.0;
    assert BoughtCost(first, user.id, "C") == 200.0;
    RunsBalance(first, later, user.id, "C");
  }
}
