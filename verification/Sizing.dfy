/** How many contracts an order asks for. */
module Sizing {
  import opened Prelude
  import opened Money
  import opened Trade

  const MISSING_NOTIONAL_PRICE: string := "missing option price for notional sizing"
  const NO_EQUITY: string := "unable to fetch account equity for risk-based sizing"
  const MISSING_RISK_PRICE: string := "missing option price for risk-based sizing"
  const INVALID_COST: string := "invalid contract cost for risk-based sizing"
  const MISSING_DOLLAR_PRICE: string := "missing option price for dollar notional sizing"

  function CapQuantity(quantity: int, maxContracts: int): int {
    Max(1, Min(quantity, maxContracts))
  }

  function FloorCount(budget: real, cost: real, maxContracts: int): int
    requires cost > 0.0
  {
    CapQuantity(Max(1, (budget / cost).Floor), maxContracts)
  }

  function QuantityForNotional(ask: real, notional: real, maxContracts: int): int {
    var cost := ask * 100.0;
    if cost <= 0.0 then 1 else FloorCount(notional, cost, maxContracts)
  }

  function RiskDollars(user: User, equity: real): real {
    equity * user.riskPercent / 100.0
  }

  function PriceOf(v: ValidatedTrade): Option<real> {
    OrElse(v.ask, v.limitPrice)
  }

  predicate Priced(v: ValidatedTrade) {
    PriceOf(v).Some? && PriceOf(v).value > 0.0
  }

  function ModeOf(user: User): string {
    if user.sizingMode == "" then "alert_inferred" else user.sizingMode
  }

  predicate OwnNotional(v: ValidatedTrade) {
    v.notionalUsd.Some? && v.notionalUsd.value > 0.0
  }

  function RiskQuantity(user: User, v: ValidatedTrade, equity: Option<real>): (int, Option<string>) {
    if equity.None? || equity.value <= 0.0 then (0, Some(NO_EQUITY))
    else if !Priced(v) then (0, Some(MISSING_RISK_PRICE))
    else
      var cost := PriceOf(v).value * 100.0;
      if cost <= 0.0 then (0, Some(INVALID_COST))
      else (FloorCount(RiskDollars(user, equity.value), cost, user.maxContracts), None)
  }

  /** Only risk-based sizing asks the broker. */
  predicate AsksEquity(user: User, v: ValidatedTrade) {
    !OwnNotional(v) && ModeOf(user) == "risk_percent"
  }

  /** `equity` is what the broker answers when asked. */
  function ComputeQuantity(user: User, v: ValidatedTrade, equity: Option<real>): (int, Option<string>) {
    if OwnNotional(v) then
      if !Priced(v) then (0, Some(MISSING_NOTIONAL_PRICE))
      else (QuantityForNotional(PriceOf(v).value, v.notionalUsd.value, user.maxContracts), None)
    else if ModeOf(user) == "fixed" then (CapQuantity(user.fixedContracts, user.maxContracts), None)
    else if ModeOf(user) == "alert_inferred" then (CapQuantity(Max(1, v.quantity), user.maxContracts), None)
    else if ModeOf(user) == "risk_percent" then RiskQuantity(user, v, equity)
    else if ModeOf(user) == "dollar_notional" then
      if !Priced(v) then (0, Some(MISSING_DOLLAR_PRICE))
      else (QuantityForNotional(PriceOf(v).value, 1000.0, user.maxContracts), None)
    else (CapQuantity(Max(1, v.quantity), user.maxContracts), None)
  }

  // ----- what it means -----

  function Cap(user: User): int {
    Max(1, user.maxContracts)
  }

  /** In every mode: no contracts exactly with a reason, and otherwise between one and the cap. */
  lemma ZeroIffSkipped(user: User, v: ValidatedTrade, equity: Option<real>)
    ensures var (n, reason) := ComputeQuantity(user, v, equity);
            (n == 0 <==> reason.Some?) && (reason.None? ==> 1 <= n <= Cap(user))
  {
  }

  /** The dollars a budgeted mode may spend; None where the mode counts contracts. */
  function Budget(user: User, v: ValidatedTrade, equity: Option<real>): Option<real> {
    if OwnNotional(v) then v.notionalUsd
    else if ModeOf(user) == "risk_percent" then
      if equity.Some? && equity.value > 0.0 then Some(RiskDollars(user, equity.value)) else None
    else if ModeOf(user) == "dollar_notional" then Some(1000.0)
    else None
  }

  predicate Affordable(n: int, price: real, budget: real) {
    n as real * (price * 100.0) <= budget
  }

  /** The largest affordable count within the cap, or one when not even one is affordable. */
  ghost predicate BestCount(n: int, price: real, budget: real, cap: int) {
    && 1 <= n <= cap
    && (n == 1 || Affordable(n, price, budget))
    && forall m: int :: n < m <= cap ==> !Affordable(m, price, budget)
  }

  lemma AffordableIff(n: int, price: real, budget: real)
    requires price > 0.0
    ensures Affordable(n, price, budget) <==> n <= (budget / (price * 100.0)).Floor
  {
    var cost := price * 100.0;
    var share := budget / cost;
    assert share * cost == budget;
    ScaleKeepsOrder(n as real, share, cost);
  }

  lemma CappedFloorIsBest(price: real, budget: real, maxContracts: int)
    requires price > 0.0
    ensures BestCount(FloorCount(budget, price * 100.0, maxContracts), price, budget, Max(1, maxContracts))
  {
    var n := FloorCount(budget, price * 100.0, maxContracts);
    AffordableIff(n, price, budget);
    forall m: int | n < m <= Max(1, maxContracts) ensures !Affordable(m, price, budget) {
      AffordableIff(m, price, budget);
    }
  }

  /** At most one count is best, so `BestCount` says which one is taken. */
  lemma BestCountIsUnique(n: int, m: int, price: real, budget: real, cap: int)
    requires BestCount(n, price, budget, cap) && BestCount(m, price, budget, cap)
    ensures n == m
  {
  }

  lemma BudgetedByFloor(user: User, v: ValidatedTrade, equity: Option<real>)
    requires Budget(user, v, equity).Some?
    ensures ComputeQuantity(user, v, equity).1.None? <==> Priced(v)
    ensures Priced(v) ==>
              ComputeQuantity(user, v, equity).0 ==
              FloorCount(Budget(user, v, equity).value, PriceOf(v).value * 100.0, user.maxContracts)
  {
  }

  /** Every budgeted mode buys the best affordable count at the ask, or the limit price without an ask. */
  lemma BudgetIsSpentBest(user: User, v: ValidatedTrade, equity: Option<real>)
    requires Budget(user, v, equity).Some?
    ensures var (n, reason) := ComputeQuantity(user, v, equity);
            if Priced(v)
            then reason.None? && BestCount(n, PriceOf(v).value, Budget(user, v, equity).value, Cap(user))
            else reason.Some?
  {
    BudgetedByFloor(user, v, equity);
    if Priced(v) {
      CappedFloorIsBest(PriceOf(v).value, Budget(user, v, equity).value, user.maxContracts);
    }
  }

  lemma StillAffordable(n: int, price: real, budget: real, price': real, budget': real)
    requires n >= 0 && price' <= price && budget <= budget' && Affordable(n, price, budget)
    ensures Affordable(n, price', budget')
  {
    assert n as real * (price * 100.0 - price' * 100.0) >= 0.0;
  }

  /** More money never buys fewer, and a higher price never buys more. */
  lemma BestCountIsMonotone(price: real, budget: real, price': real, budget': real, cap: int, n: int, n': int)
    requires price' <= price && budget <= budget'
    requires BestCount(n, price, budget, cap) && BestCount(n', price', budget', cap)
    ensures n <= n'
  {
    if n > 1 {
      StillAffordable(n, price, budget, price', budget');
    }
  }

  /** Sizing two trades of one user: the one with the larger budget and the lower price is not smaller. */
  lemma SizingIsMonotone(user: User, v: ValidatedTrade, v': ValidatedTrade, equity: Option<real>, equity': Option<real>)
    requires Budget(user, v, equity).Some? && Budget(user, v', equity').Some?
    requires Priced(v) && Priced(v')
    requires PriceOf(v').value <= PriceOf(v).value
    requires Budget(user, v, equity).value <= Budget(user, v', equity').value
    ensures ComputeQuantity(user, v, equity).0 <= ComputeQuantity(user, v', equity').0
  {
    BudgetIsSpentBest(user, v, equity);
    BudgetIsSpentBest(user, v', equity');
    BestCountIsMonotone(PriceOf(v).value, Budget(user, v, equity).value, PriceOf(v').value, Budget(user, v', equity').value,
                        Cap(user), ComputeQuantity(user, v, equity).0, ComputeQuantity(user, v', equity').0);
  }

  /**
   * The floor of one contract is not a budget check: the order is within budget exactly
   * when a single contract is.
   */
  lemma WithinBudgetIff(user: User, v: ValidatedTrade, equity: Option<real>)
    requires Budget(user, v, equity).Some? && Priced(v)
    ensures Affordable(ComputeQuantity(user, v, equity).0, PriceOf(v).value, Budget(user, v, equity).value)
       <==> Affordable(1, PriceOf(v).value, Budget(user, v, equity).value)
  {
    BudgetIsSpentBest(user, v, equity);
    var n, price, budget := ComputeQuantity(user, v, equity).0, PriceOf(v).value, Budget(user, v, equity).value;
    if n > 1 {
      AffordableIff(n, price, budget);
      AffordableIff(1, price, budget);
    }
  }

  // ----- which number is meant -----

  /** `n` contracts wanted, held between one and the cap. */
  ghost predicate Clamped(wanted: int, cap: int, n: int) {
    && (wanted < 1 ==> n == 1)
    && (1 <= wanted && (wanted <= cap || cap < 1) ==> n == if cap < 1 then 1 else wanted)
    && (1 <= wanted && cap >= 1 && wanted > cap ==> n == cap)
  }

  /** Without a budget, fixed sizing wants the user's own number and every other mode the alert's. */
  lemma CountedModesClamp(user: User, v: ValidatedTrade, equity: Option<real>)
    requires v.notionalUsd.None? || v.notionalUsd.value <= 0.0
    requires user.sizingMode != "risk_percent" && user.sizingMode != "dollar_notional"
    ensures var (n, reason) := ComputeQuantity(user, v, equity);
            reason == None && Clamped(if user.sizingMode == "fixed" then user.fixedContracts else v.quantity, user.maxContracts, n)
  {
  }

  /**
   * What may be spent: the alert's own amount first, then the share of the equity at risk, or
   * $1000. The price is the ask, or without one the limit, and must be positive.
   */
  lemma BudgetAndPriceAre(user: User, v: ValidatedTrade, equity: Option<real>)
    ensures v.notionalUsd.Some? && v.notionalUsd.value > 0.0 ==> Budget(user, v, equity) == v.notionalUsd
    ensures var budget := Budget(user, v, equity);
            (v.notionalUsd.Some? && v.notionalUsd.value > 0.0)
            || if user.sizingMode == "dollar_notional" then budget == Some(1000.0)
               else if user.sizingMode != "risk_percent" then budget == None
               else if equity.None? || equity.value <= 0.0 then budget == None
               else budget.Some? && budget.value * 100.0 == equity.value * user.riskPercent
    ensures v.ask.Some? && v.ask.value != 0.0 ==> (Priced(v) <==> v.ask.value > 0.0) && PriceOf(v) == v.ask
    ensures v.ask.None? || v.ask.value == 0.0 ==>
              (Priced(v) <==> v.limitPrice.Some? && v.limitPrice.value > 0.0) && PriceOf(v) == v.limitPrice
  {
  }

  /** The equity is asked for exactly where the outcome depends on it. */
  lemma EquityMattersIff(user: User, v: ValidatedTrade)
    ensures AsksEquity(user, v) <==> exists e, f :: ComputeQuantity(user, v, e) != ComputeQuantity(user, v, f)
  {
    if AsksEquity(user, v) {
      if Priced(v) {
        var poor, rich := ComputeQuantity(user, v, None), ComputeQuantity(user, v, Some(1.0));
        assert poor.1.Some? && rich.1.None?;
        assert poor != rich;
      } else {
        var poor, rich := ComputeQuantity(user, v, None), ComputeQuantity(user, v, Some(1.0));
        assert poor.1 == Some(NO_EQUITY) && rich.1 == Some(MISSING_RISK_PRICE);
        assert |NO_EQUITY| == 52 && |MISSING_RISK_PRICE| == 42;
        assert poor != rich;
      }
    }
  }
}
