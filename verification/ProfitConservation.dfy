/**
 * Realised profit over a whole run of closes: what the closes of a contract add up to, how
 * far rounding can move the sum, and when reopening a contract breaks the books.
 */
module ProfitConservation {
  import opened Prelude
  import opened Trade
  import opened TradeLedger

  /** A close: the price it filled at and how many contracts. */
  datatype Close = Close(price: real, quantity: int)

  function CloseRow(user: UserId, contract: string, c: Close, pnl: Option<int>): Execution {
    Execution(user, None, contract, Filled, c.quantity, Some(c.price), pnl, "", Some(IntentJson(SellToClose, "")), false, 0.0)
  }

  /** The closes happen one after the other, each booked against the rows there are by then. */
  function Book(rows: seq<Execution>, user: UserId, contract: string, closes: seq<Close>): (pnls: seq<Option<int>>)
    ensures |pnls| == |closes|
    decreases |closes|
  {
    if closes == [] then []
    else
      var pnl := ClosePnl(rows, user, contract, closes[0].quantity, Some(closes[0].price));
      [pnl] + Book(rows + [CloseRow(user, contract, closes[0], pnl)], user, contract, closes[1..])
  }

  function Proceeds(closes: seq<Close>): real {
    if closes == [] then 0.0 else Outlay(closes[0].price, closes[0].quantity) + Proceeds(closes[1..])
  }

  function ClosedQuantity(closes: seq<Close>): int {
    if closes == [] then 0 else closes[0].quantity + ClosedQuantity(closes[1..])
  }

  /** The closes' profit before rounding, all against one average. */
  function ExactTotal(average: real, closes: seq<Close>): real {
    if closes == [] then 0.0
    else ExactPnl(average, closes[0].price, closes[0].quantity) + ExactTotal(average, closes[1..])
  }

  function Booked(pnls: seq<Option<int>>): int {
    if pnls == [] then 0 else pnls[0].GetOr(0) + Booked(pnls[1..])
  }

  lemma {:induction false} ExactTotalIsMargin(average: real, closes: seq<Close>)
    ensures ExactTotal(average, closes) == Proceeds(closes) - Outlay(average, ClosedQuantity(closes))
  {
    if closes == [] {
      assert average * (0 as real * 100.0) == 0.0;
    } else {
      ExactTotalIsMargin(average, closes[1..]);
      OutlayAdds(average, closes[0].quantity, ClosedQuantity(closes[1..]));
      var n := closes[0].quantity as real * 100.0;
      assert (closes[0].price - average) * n == closes[0].price * n - average * n;
    }
  }

  lemma AverageTimesQuantity(rows: seq<Execution>, user: UserId, contract: string)
    requires OpenQuantity(rows, user, contract) > 0
    ensures Outlay(AverageOpen(rows, user, contract), OpenQuantity(rows, user, contract)) == OpenCost(rows, user, contract)
  {
    var q := OpenQuantity(rows, user, contract) as real * 100.0;
    assert OpenCost(rows, user, contract) / q * q == OpenCost(rows, user, contract);
  }

  /**
   * Conservation, and exactly when: before rounding, the closes add up to proceeds minus
   * cost if and only if they close what was opened (or the opens were free on average).
   */
  lemma ClosesConserve(rows: seq<Execution>, user: UserId, contract: string, closes: seq<Close>)
    requires OpenQuantity(rows, user, contract) > 0
    ensures ExactTotal(AverageOpen(rows, user, contract), closes) == Proceeds(closes) - OpenCost(rows, user, contract)
       <==> ClosedQuantity(closes) == OpenQuantity(rows, user, contract) || AverageOpen(rows, user, contract) == 0.0
  {
    var average := AverageOpen(rows, user, contract);
    var n, m := OpenQuantity(rows, user, contract), ClosedQuantity(closes);
    ExactTotalIsMargin(average, closes);
    AverageTimesQuantity(rows, user, contract);
    OutlaySameIff(average, m, n);
  }

  lemma OutlaySameIff(price: real, m: int, n: int)
    ensures Outlay(price, m) == Outlay(price, n) <==> m == n || price == 0.0
  {
    var d := (m - n) as real * 100.0;
    assert Outlay(price, m) - Outlay(price, n) == price * d;
    if m != n && price != 0.0 {
      assert d != 0.0;
      ProductNonzero(price, d);
    }
  }

  lemma ProductNonzero(a: real, b: real)
    requires a != 0.0 && b != 0.0
    ensures a * b != 0.0
  {
    assert a * b / b == a;
  }

  /** Booking a close leaves the average as it was. */
  lemma CloseKeepsCost(rows: seq<Execution>, user: UserId, contract: string, c: Close, pnl: Option<int>)
    ensures var rows' := rows + [CloseRow(user, contract, c, pnl)];
            && OpenQuantity(rows', user, contract) == OpenQuantity(rows, user, contract)
            && OpenCost(rows', user, contract) == OpenCost(rows, user, contract)
  {
    CostOfConcat(rows, [CloseRow(user, contract, c, pnl)], user, contract);
    CostOfOne(CloseRow(user, contract, c, pnl), user, contract);
  }

  /** n rounded closes are within n half-cents of their exact total. */
  lemma {:induction false} BookedNearExact(rows: seq<Execution>, user: UserId, contract: string, closes: seq<Close>)
    requires OpenQuantity(rows, user, contract) > 0 && contract != ""
    ensures forall p :: p in Book(rows, user, contract, closes) ==> p.Some?
    ensures var total := ExactTotal(AverageOpen(rows, user, contract), closes) * 100.0;
            var slack := |closes| as real * 0.5;
            total - slack <= Booked(Book(rows, user, contract, closes)) as real <= total + slack
    decreases |closes|
  {
    if closes != [] {
      var c := closes[0];
      var pnl := ClosePnl(rows, user, contract, c.quantity, Some(c.price));
      CloseKeepsCost(rows, user, contract, c, pnl);
      BookedNearExact(rows + [CloseRow(user, contract, c, pnl)], user, contract, closes[1..]);
    }
  }

  /**
   * The books of a contract that is opened, then closed completely: whatever the prices,
   * the booked profit in cents is proceeds minus cost to within half a cent per close.
   */
  lemma BooksBalance(rows: seq<Execution>, user: UserId, contract: string, closes: seq<Close>)
    requires OpenQuantity(rows, user, contract) > 0 && contract != ""
    requires ClosedQuantity(closes) == OpenQuantity(rows, user, contract)
    ensures var margin := (Proceeds(closes) - OpenCost(rows, user, contract)) * 100.0;
            var slack := |closes| as real * 0.5;
            margin - slack <= Booked(Book(rows, user, contract, closes)) as real <= margin + slack
  {
    ClosesConserve(rows, user, contract, closes);
    BookedNearExact(rows, user, contract, closes);
  }

  // ----- reopening a contract -----

  /** The pooled average is the newer lots' own average exactly when the older ones cost the same. */
  lemma PooledAverage(a: real, n: int, b: real, m: int)
    requires n > 0 && m > 0
    ensures (Outlay(a, n) + Outlay(b, m)) / ((n + m) as real * 100.0) == b <==> a == b
  {
    var x, y := n as real * 100.0, m as real * 100.0;
    var pooled := (a * x + b * y) / (x + y);
    assert (n + m) as real * 100.0 == x + y;
    assert pooled * (x + y) == a * x + b * y;
    if pooled == b {
      assert b * (x + y) == b * x + b * y;
      assert (a - b) * x == 0.0;
      if a != b { ProductNonzero(a - b, x); }
    }
    if a == b {
      assert b * x + b * y == b * (x + y);
      assert b * (x + y) / (x + y) == b;
    }
  }

  /**
   * Closed lots are never taken out of the average. A contract that is opened again after
   * `rows` and closed completely is booked at proceeds minus the new lots' cost if and only
   * if the old lots had the same average price as the new ones.
   */
  lemma ReopeningConservesIff(rows: seq<Execution>, lots: seq<Execution>, user: UserId, contract: string, closes: seq<Close>)
    requires OpenQuantity(rows, user, contract) > 0 && OpenQuantity(lots, user, contract) > 0
    requires ClosedQuantity(closes) == OpenQuantity(lots, user, contract)
    ensures OpenQuantity(rows + lots, user, contract) > 0
    ensures ExactTotal(AverageOpen(rows + lots, user, contract), closes) == Proceeds(closes) - OpenCost(lots, user, contract)
       <==> AverageOpen(rows, user, contract) == AverageOpen(lots, user, contract)
  {
    CostOfConcat(rows, lots, user, contract);
    var n, m := OpenQuantity(rows, user, contract), OpenQuantity(lots, user, contract);
    var a, b := AverageOpen(rows, user, contract), AverageOpen(lots, user, contract);
    var pooled := AverageOpen(rows + lots, user, contract);
    AverageTimesQuantity(rows, user, contract);
    AverageTimesQuantity(lots, user, contract);
    PooledAverage(a, n, b, m);
    ExactTotalIsMargin(pooled, closes);
    OutlayInjective(pooled, b, m);
  }

  lemma OutlayInjective(a: real, b: real, n: int)
    requires n > 0
    ensures Outlay(a, n) == Outlay(b, n) <==> a == b
  {
    var x := n as real * 100.0;
    assert a * x - b * x == (a - b) * x;
    if a != b { ProductNonzero(a - b, x); }
  }

  function BuyRow(user: UserId, contract: string, price: real, quantity: int, text: string): Execution {
    Execution(user, None, contract, Filled, quantity, Some(price), None, "", Some(IntentJson(BuyToOpen, text)), false, 0.0)
  }

  /** One contract bought at 1 and sold at 1, bought again at 3 and sold at 3: booked as +$100. */
  lemma ReopeningBooksAProfitFromNothing()
    ensures var rows := [BuyRow("u", "C", 1.0, 1, ""), CloseRow("u", "C", Close(1.0, 1), Some(0)), BuyRow("u", "C", 3.0, 1, "")];
            Book(rows, "u", "C", [Close(3.0, 1)]) == [Some(10000)]
  {
    var first, closed, second :=
      BuyRow("u", "C", 1.0, 1, ""), CloseRow("u", "C", Close(1.0, 1), Some(0)), BuyRow("u", "C", 3.0, 1, "");
    NoMarkInNothing();
    CostOfOne(first, "u", "C");
    CostOfOne(closed, "u", "C");
    CostOfOne(second, "u", "C");
    CostOfConcat([first], [closed], "u", "C");
    CostOfConcat([first, closed], [second], "u", "C");
    assert [first] + [closed] == [first, closed] && [first, closed] + [second] == [first, closed, second];
    var rows := [first, closed, second];
    assert OpenQuantity(rows, "u", "C") == 2 && OpenCost(rows, "u", "C") == 400.0;
    assert AverageOpen(rows, "u", "C") == 2.0;
    assert ExactPnl(2.0, 3.0, 1) == 100.0;
    assert Book(rows + [CloseRow("u", "C", Close(3.0, 1), Some(10000))], "u", "C", []) == [];
  }

  lemma NoMarkInNothing()
    ensures !Contains("", CLOSE_MARK)
  {
    forall i | 0 <= i <= 0 ensures !(CLOSE_MARK <= ""[i..]) {
      assert |""[i..]| == 0;
    }
  }

  /**
   * The close test is a substring test on the whole stored intent. A filled buy with a
   * price is part of the open cost if and only if its free text does not contain the mark.
   */
  lemma BuyCountsIff(user: UserId, contract: string, price: real, quantity: int, text: string)
    requires price != 0.0
    ensures IsOpenFill(BuyRow(user, contract, price, quantity, text), user, contract) <==> !Contains(text, CLOSE_MARK)
    ensures OpenQuantity([BuyRow(user, contract, price, quantity, text)], user, contract) ==
              if Contains(text, CLOSE_MARK) then 0 else quantity
  {
    CostOfOne(BuyRow(user, contract, price, quantity, text), user, contract);
  }

  /** A filled buy of one contract whose rationale names the mark: the contract counts as not held. */
  lemma BuyThatMentionsACloseIsNotCounted()
    ensures var row := BuyRow("u", "C", 1.0, 1, "after yesterday's sell_to_close");
            row.status == Filled && row.intent.value.action == BuyToOpen && OpenQuantity([row], "u", "C") == 0
  {
    var text := "after yesterday's sell_to_close";
    assert text[18..] == CLOSE_MARK;
    BuyCountsIff("u", "C", 1.0, 1, text);
  }
}
