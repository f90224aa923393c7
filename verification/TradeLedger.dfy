/**
 * The table of trade executions: realised profit of a close by average cost, what the
 * broker's order status says about a fill, and the pass that settles resting closes.
 */
module TradeLedger {
  import opened Prelude
  import opened Money
  import opened Trade

  datatype Status = Submitted | Filled | Failed | Skipped | ValidationFailed

  /** The stored intent: its action, and all free text that is serialised with it. */
  datatype IntentJson = IntentJson(action: Action, text: string)

  const CLOSE_MARK: string := "sell_to_close"

  /** `"sell_to_close" in intent_json`: the serialised action, or the text by accident. */
  predicate Mentions(j: IntentJson) {
    j.action.SellToClose? || Contains(j.text, CLOSE_MARK)
  }

  datatype Execution = Execution(
    user: UserId, alert: Option<string>, contract: string, status: Status, quantity: int,
    fillPrice: Option<real>, pnl: Option<int>, orderId: OrderId, intent: Option<IntentJson>, isLeg: bool,
    created: Time)

  predicate IsClose(row: Execution) {
    row.intent.Some? && Mentions(row.intent.value)
  }

  // ----- average cost -----

  /** A row that enters the open cost of a contract. */
  predicate IsOpenFill(row: Execution, user: UserId, contract: string) {
    && row.user == user && row.contract == contract && row.status == Filled
    && !IsClose(row) && row.fillPrice.Some? && row.fillPrice.value != 0.0
  }

  /** Dollars for so many contracts of a hundred shares. */
  function Outlay(price: real, quantity: int): real {
    price * (quantity as real * 100.0)
  }

  function OpenQuantity(rows: seq<Execution>, user: UserId, contract: string): int {
    if rows == [] then 0
    else OpenQuantity(rows[..|rows| - 1], user, contract) +
         var row := rows[|rows| - 1];
         if IsOpenFill(row, user, contract) then row.quantity else 0
  }

  function OpenCost(rows: seq<Execution>, user: UserId, contract: string): real {
    if rows == [] then 0.0
    else OpenCost(rows[..|rows| - 1], user, contract) +
         var row := rows[|rows| - 1];
         if IsOpenFill(row, user, contract) then Outlay(row.fillPrice.value, row.quantity) else 0.0
  }

  function AverageOpen(rows: seq<Execution>, user: UserId, contract: string): real
    requires OpenQuantity(rows, user, contract) > 0
  {
    OpenCost(rows, user, contract) / (OpenQuantity(rows, user, contract) as real * 100.0)
  }

  /** The profit of a close before rounding, in dollars. */
  function ExactPnl(average: real, price: real, quantity: int): real {
    Outlay(price - average, quantity)
  }

  function ClosePnl(rows: seq<Execution>, user: UserId, contract: string, quantity: int, price: Option<real>): Option<int> {
    if price.None? || contract == "" || OpenQuantity(rows, user, contract) <= 0 then None
    else Some(ToCents(ExactPnl(AverageOpen(rows, user, contract), price.value, quantity)))
  }

  method ComputeClosePnl(rows: seq<Execution>, user: UserId, contract: string, quantity: int, price: Option<real>)
    returns (pnl: Option<int>)
    ensures pnl == ClosePnl(rows, user, contract, quantity, price)
  {
    if price.None? || contract == "" {
      return None;
    }
    var cost, held := 0.0, 0;
    for i := 0 to |rows|
      invariant cost == OpenCost(rows[..i], user, contract)
      invariant held == OpenQuantity(rows[..i], user, contract)
    {
      assert rows[..i + 1][..i] == rows[..i];
      var row := rows[i];
      if row.user == user && row.contract == contract && row.status == Filled {
        if !IsClose(row) && row.fillPrice.Some? && row.fillPrice.value != 0.0 {
          cost := cost + Outlay(row.fillPrice.value, row.quantity);
          held := held + row.quantity;
        }
      }
    }
    assert rows[..|rows|] == rows;
    if held <= 0 {
      return None;
    }
    var average := cost / (held as real * 100.0);
    pnl := Some(ToCents(ExactPnl(average, price.value, quantity)));
  }

  // ----- what the average depends on -----

  /** Rows that differ only where neither version enters the open cost. */
  ghost predicate SameOpens(rows: seq<Execution>, rows': seq<Execution>, user: UserId, contract: string) {
    && |rows| == |rows'|
    && forall i :: 0 <= i < |rows| ==>
         rows'[i] == rows[i] || (!IsOpenFill(rows[i], user, contract) && !IsOpenFill(rows'[i], user, contract))
  }

  lemma {:induction false} SameOpensSameCost(rows: seq<Execution>, rows': seq<Execution>, user: UserId, contract: string)
    requires SameOpens(rows, rows', user, contract)
    ensures OpenQuantity(rows', user, contract) == OpenQuantity(rows, user, contract)
    ensures OpenCost(rows', user, contract) == OpenCost(rows, user, contract)
  {
    if rows != [] {
      SameOpensSameCost(rows[..|rows| - 1], rows'[..|rows| - 1], user, contract);
    }
  }

  lemma {:induction false} CostOfConcat(a: seq<Execution>, b: seq<Execution>, user: UserId, contract: string)
    ensures OpenQuantity(a + b, user, contract) == OpenQuantity(a, user, contract) + OpenQuantity(b, user, contract)
    ensures OpenCost(a + b, user, contract) == OpenCost(a, user, contract) + OpenCost(b, user, contract)
  {
    if b == [] {
      assert a + b == a;
    } else {
      CostOfConcat(a, b[..|b| - 1], user, contract);
      assert (a + b)[..|a + b| - 1] == a + b[..|b| - 1];
    }
  }

  lemma CostOfOne(row: Execution, user: UserId, contract: string)
    ensures OpenQuantity([row], user, contract) == if IsOpenFill(row, user, contract) then row.quantity else 0
    ensures OpenCost([row], user, contract) ==
              if IsOpenFill(row, user, contract) then Outlay(row.fillPrice.value, row.quantity) else 0.0
  {
    assert [row][..0] == [];
  }

  lemma CostWithoutOne(rows: seq<Execution>, k: nat, user: UserId, contract: string)
    requires k < |rows|
    ensures OpenQuantity(rows, user, contract) ==
              OpenQuantity(RemoveAt(rows, k), user, contract) + OpenQuantity([rows[k]], user, contract)
    ensures OpenCost(rows, user, contract) ==
              OpenCost(RemoveAt(rows, k), user, contract) + OpenCost([rows[k]], user, contract)
  {
    var a, b := rows[..k], rows[k + 1..];
    assert rows == a + ([rows[k]] + b);
    CostOfConcat(a, b, user, contract);
    CostOfConcat([rows[k]], b, user, contract);
    CostOfConcat(a, [rows[k]] + b, user, contract);
  }

  /** The order the rows are read in does not matter. */
  lemma {:induction false} CostIgnoresOrder(rows: seq<Execution>, rows': seq<Execution>, user: UserId, contract: string)
    requires multiset(rows) == multiset(rows')
    ensures OpenQuantity(rows', user, contract) == OpenQuantity(rows, user, contract)
    ensures OpenCost(rows', user, contract) == OpenCost(rows, user, contract)
    decreases |rows|
  {
    PermutationsHaveSameLength(rows, rows');
    if rows != [] {
      var k := FindsIn(rows, rows', 0);
      CostWithoutOne(rows, 0, user, contract);
      CostWithoutOne(rows', k, user, contract);
      RemovalsArePermutations(rows, rows', 0, k);
      CostIgnoresOrder(RemoveAt(rows, 0), RemoveAt(rows', k), user, contract);
    }
  }

  lemma OutlayAdds(price: real, n: int, m: int)
    ensures Outlay(price, n + m) == Outlay(price, n) + Outlay(price, m)
  {
    var x, y := n as real * 100.0, m as real * 100.0;
    assert (n + m) as real * 100.0 == x + y;
    assert price * (x + y) == price * x + price * y;
  }

  lemma OutlayOrder(low: real, high: real, n: int)
    requires low <= high && n >= 0
    ensures Outlay(low, n) <= Outlay(high, n)
  {
    assert (high - low) * (n as real * 100.0) >= 0.0;
  }

  /** The cost lies between the quantity at any two bounds on the opening fills. */
  lemma {:induction false} CostWithinBounds(rows: seq<Execution>, user: UserId, contract: string, low: real, high: real)
    requires forall i :: 0 <= i < |rows| && IsOpenFill(rows[i], user, contract) ==>
               rows[i].quantity >= 0 && low <= rows[i].fillPrice.value <= high
    ensures var n := OpenQuantity(rows, user, contract);
            Outlay(low, n) <= OpenCost(rows, user, contract) <= Outlay(high, n)
  {
    if rows != [] {
      var init, row := rows[..|rows| - 1], rows[|rows| - 1];
      CostWithinBounds(init, user, contract, low, high);
      if IsOpenFill(row, user, contract) {
        BoundsStep(low, high, row.fillPrice.value, OpenQuantity(init, user, contract), row.quantity,
                   OpenCost(init, user, contract));
      }
    }
  }

  lemma BoundsStep(low: real, high: real, price: real, n: int, m: int, cost: real)
    requires Outlay(low, n) <= cost <= Outlay(high, n) && low <= price <= high && m >= 0
    ensures Outlay(low, n + m) <= cost + Outlay(price, m) <= Outlay(high, n + m)
  {
    OutlayAdds(low, n, m);
    OutlayAdds(high, n, m);
    OutlayOrder(low, price, m);
    OutlayOrder(price, high, m);
  }

  /** The average open price lies between the smallest and the largest opening fill. */
  lemma AverageWithinFills(rows: seq<Execution>, user: UserId, contract: string, low: real, high: real)
    requires forall i :: 0 <= i < |rows| && IsOpenFill(rows[i], user, contract) ==>
               rows[i].quantity >= 0 && low <= rows[i].fillPrice.value <= high
    requires OpenQuantity(rows, user, contract) > 0
    ensures low <= AverageOpen(rows, user, contract) <= high
  {
    CostWithinBounds(rows, user, contract, low, high);
    QuotientWithin(OpenCost(rows, user, contract), OpenQuantity(rows, user, contract), low, high);
  }

  lemma QuotientWithin(cost: real, n: int, low: real, high: real)
    requires n > 0 && Outlay(low, n) <= cost <= Outlay(high, n)
    ensures low <= cost / (n as real * 100.0) <= high
  {
    var q := n as real * 100.0;
    var a := cost / q;
    assert a * q == cost;
    assert (a - low) * q >= 0.0 && (high - a) * q >= 0.0;
  }
}
