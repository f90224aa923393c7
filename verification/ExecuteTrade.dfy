/** Whether a close is covered by the position the broker reports. */
module PositionCheck {
  import opened Prelude
  import opened Trade

  datatype Position = Position(symbol: string, quantity: Option<real>)

  /** The quantity of the first position with the symbol, and 0 without one. */
  function Held(positions: seq<Position>, symbol: string): real {
    if positions == [] then 0.0
    else if positions[0].symbol == symbol then positions[0].quantity.GetOr(0.0)
    else Held(positions[1..], symbol)
  }

  lemma {:induction false} HeldSkipsOthers(positions: seq<Position>, symbol: string, k: nat)
    requires k <= |positions| && forall i :: 0 <= i < k ==> positions[i].symbol != symbol
    ensures Held(positions, symbol) == Held(positions[k..], symbol)
  {
    if k > 0 {
      HeldSkipsOthers(positions[1..], symbol, k - 1);
      assert positions[1..][k - 1..] == positions[k..];
    }
  }

  predicate Covers(held: real, quantity: int) {
    held > 0.0 && quantity <= held.Floor
  }

  function Refusal(held: real, symbol: string, quantity: int): string {
    if held <= 0.0 then "no open position for " + symbol
    else "close quantity " + IntText(quantity) + " exceeds position " + IntText(held.Floor)
  }

  /** No error exactly when that many whole contracts are held; quantities are not negative. */
  method ValidateClosePosition(positions: seq<Position>, symbol: string, quantity: int) returns (error: Option<string>)
    ensures error.None? <==> Covers(Held(positions, symbol), quantity)
    ensures error.Some? ==> error.value == Refusal(Held(positions, symbol), symbol, quantity)
  {
    var held := 0.0;
    var i := 0;
    while i < |positions|
      invariant 0 <= i <= |positions| && held == 0.0
      invariant forall j :: 0 <= j < i ==> positions[j].symbol != symbol
    {
      if positions[i].symbol == symbol {
        held := positions[i].quantity.GetOr(0.0);
        break;
      }
      i := i + 1;
    }
    HeldSkipsOthers(positions, symbol, i);
    if held <= 0.0 {
      return Some("no open position for " + symbol);
    }
    if quantity > held.Floor {
      return Some("close quantity " + IntText(quantity) + " exceeds position " + IntText(held.Floor));
    }
    error := None;
  }
}

/** Placing a validated option trade: the entry row, its take-profit leg and the alert's flags. */
module ExecuteTrade {
  import opened Prelude
  import opened Money
  import opened Trade
  import opened TradeLedger
  import opened OrderLifecycle
  import opened PositionCheck

  // ----- take profit -----

  function EntryPrice(v: ValidatedTrade): Option<real> {
    OrElse(v.ask, OrElse(v.limitPrice, v.bid))
  }

  function TargetCents(entry: real, pct: real): real {
    entry * (1.0 + pct) * 100.0
  }

  /** In cents. */
  function TakeProfitPrice(v: ValidatedTrade): Option<int> {
    if v.takeProfitPct.None? || v.takeProfitPct.value <= 0.0 then None
    else
      var entry := EntryPrice(v);
      if entry.None? || entry.value <= 0.0 then None
      else Some(RoundHalfUp(TargetCents(entry.value, v.takeProfitPct.value)))
  }

  /** The exit is priced within half a cent of its target, ties up, and never under the entry in whole cents. */
  lemma TakeProfitIsNearTarget(v: ValidatedTrade)
    ensures TakeProfitPrice(v).Some? <==>
              v.takeProfitPct.Some? && v.takeProfitPct.value > 0.0 && EntryPrice(v).Some? && EntryPrice(v).value > 0.0
    ensures TakeProfitPrice(v).Some? ==>
              var cents, entry := TakeProfitPrice(v).value as real, EntryPrice(v).value * 100.0;
              var target := entry + entry * v.takeProfitPct.value;
              && cents - 0.5 <= target < cents + 0.5
              && entry.Floor as real <= cents
  {
    if TakeProfitPrice(v).Some? {
      var entry, pct := EntryPrice(v).value, v.takeProfitPct.value;
      MarkUp(entry, pct);
      HalfUpIsNearest(entry * 100.0, TargetCents(entry, pct));
    }
  }

  lemma MarkUp(entry: real, pct: real)
    requires entry > 0.0 && pct > 0.0
    ensures TargetCents(entry, pct) > entry * 100.0 > 0.0
    ensures TargetCents(entry, pct) == entry * 100.0 + entry * 100.0 * pct
  {
    assert entry * pct > 0.0;
    assert entry * (1.0 + pct) == entry + entry * pct;
  }

  /** The entry is taken at the ask, or without one at the limit, or without either at the bid. */
  lemma EntryPriceIs(v: ValidatedTrade)
    ensures NonZero(v.ask) ==> EntryPrice(v) == v.ask
    ensures !NonZero(v.ask) && NonZero(v.limitPrice) ==> EntryPrice(v) == v.limitPrice
    ensures !NonZero(v.ask) && !NonZero(v.limitPrice) ==> EntryPrice(v) == v.bid
  {
  }

  /** The broker's id for the resting exit, or one made from the entry's; "" when there is neither. */
  function LegOrderId(reported: OrderId, entry: OrderId): OrderId {
    if reported != "" then reported else if entry != "" then "tp-" + entry else ""
  }

  function Leg(v: ValidatedTrade, entry: Execution, id: OrderId, cents: int, accepted: bool, at: Time): Execution {
    Execution(entry.user, entry.alert, v.contractSymbol, if accepted then Submitted else Failed, v.quantity,
              Some(cents as real / 100.0), None, id, Some(IntentJson(SellToClose, "take-profit exit " + v.rationale)), true, at)
  }

  predicate HasOrder(rows: seq<Execution>, user: UserId, id: OrderId) {
    exists i :: 0 <= i < |rows| && rows[i].user == user && rows[i].orderId == id
  }

  function WithLeg(rows: seq<Execution>, v: ValidatedTrade, entry: Execution, reported: OrderId, cents: int,
                   accepted: bool, at: Time): seq<Execution>
  {
    var id := LegOrderId(reported, entry.orderId);
    if id == "" || HasOrder(rows, entry.user, id) then rows else rows + [Leg(v, entry, id, cents, accepted, at)]
  }

  /** A new leg, or the row that already has its order id, or nothing. */
  method PersistTakeProfitLeg(ledger: Ledger, v: ValidatedTrade, entry: Execution, reported: OrderId, cents: int,
                              accepted: bool, at: Time) returns (leg: Option<Execution>)
    modifies ledger
    ensures ledger.rows == WithLeg(old(ledger.rows), v, entry, reported, cents, accepted, at)
    ensures leg.Some? <==> LegOrderId(reported, entry.orderId) != ""
    ensures leg.Some? ==> leg.value in ledger.rows && leg.value.orderId == LegOrderId(reported, entry.orderId)
  {
    var id := LegOrderId(reported, entry.orderId);
    if id == "" {
      return None;
    }
    if HasOrder(ledger.rows, entry.user, id) {
      var i :| 0 <= i < |ledger.rows| && ledger.rows[i].user == entry.user && ledger.rows[i].orderId == id;
      return Some(ledger.rows[i]);
    }
    var row := Leg(v, entry, id, cents, accepted, at);
    ledger.rows := ledger.rows + [row];
    leg := Some(row);
  }

  // ----- placing -----

  /** A call of one of the broker's placement methods. */
  datatype Placement = Placement(contract: OptionContract, quantity: int, side: Action, mode: Mode, takeProfit: Option<int>)

  /** What the placement returned; `legId` is "" when it named no exit order. */
  datatype PlaceResult = PlaceResult(success: bool, orderId: OrderId, legId: OrderId, legAccepted: bool)

  /** What the adapter's calls come to during one execution; `status` only if it is asked. */
  datatype BrokerReplies = BrokerReplies(
    positions: Call<seq<Position>>, placed: Call<PlaceResult>, hasStatus: bool, status: Call<Option<StatusData>>)

  class Alert {
    const id: string
    var processed: bool
    var skipReason: Option<string>

    constructor (id: string)
      ensures this.id == id && !processed && skipReason == None
    {
      this.id := id;
      processed := false;
      skipReason := None;
    }
  }

  function ContractOf(v: ValidatedTrade): OptionContract {
    OptionContract(v.contractSymbol, v.underlying, v.optionType, v.strike, v.expiration, v.bid, v.ask, v.openInterest)
  }

  function EntryRow(user: User, alert: string, v: ValidatedTrade, status: Status, price: Option<real>, pnl: Option<int>,
                    order: OrderId, at: Time): Execution
  {
    Execution(user.id, Some(alert), v.contractSymbol, status, v.quantity, price, pnl, order,
              Some(IntentJson(v.action, v.rationale)), false, at)
  }

  function ExitOf(v: ValidatedTrade): Option<int> {
    if v.action.BuyToOpen? then TakeProfitPrice(v) else None
  }

  /** The positions of a close could not be read. */
  predicate PositionsThrew(v: ValidatedTrade, b: BrokerReplies) {
    v.action.SellToClose? && b.positions.Threw?
  }

  predicate Uncovered(v: ValidatedTrade, b: BrokerReplies) {
    && v.action.SellToClose? && b.positions.Returned?
    && !Covers(Held(b.positions.value, v.contractSymbol), v.quantity)
  }

  predicate AsksStatus(b: BrokerReplies) {
    b.placed.Returned? && b.placed.value.orderId != "" && b.hasStatus
  }

  /** The placement was called, but it or the status call after it raised. */
  predicate PlacingThrew(b: BrokerReplies) {
    b.placed.Threw? || (AsksStatus(b) && b.status.Threw?)
  }

  function StatusReply(b: BrokerReplies): Option<StatusData> {
    if b.status.Returned? then b.status.value else None
  }

  function PlacedStatus(v: ValidatedTrade, b: BrokerReplies): (Status, Option<real>)
    requires !PlacingThrew(b)
  {
    var (status, price) := ResolveFill(b.placed.value.orderId, b.hasStatus, StatusReply(b), v.ask);
    (if b.placed.value.success then status else Failed, price)
  }

  /** The entry row of a trade that was placed. */
  function PlacedRow(rows: seq<Execution>, user: User, alert: string, v: ValidatedTrade, b: BrokerReplies, at: Time): Execution
    requires !PlacingThrew(b)
  {
    var (status, price) := PlacedStatus(v, b);
    var pnl := if status == Filled && v.action.SellToClose? then ClosePnl(rows, user.id, v.contractSymbol, v.quantity, price) else None;
    EntryRow(user, alert, v, status, price, pnl, b.placed.value.orderId, at)
  }

  /** No row is stored: a call raised before the rows were written. */
  predicate Aborts(v: ValidatedTrade, b: BrokerReplies) {
    v.errors == [] && (PositionsThrew(v, b) || (!Uncovered(v, b) && PlacingThrew(b)))
  }

  /** The rows that one execution adds. */
  function Executed(rows: seq<Execution>, user: User, alert: string, v: ValidatedTrade, b: BrokerReplies, at: Time)
    : seq<Execution>
  {
    if v.errors != [] then rows + [EntryRow(user, alert, v, ValidationFailed, None, None, "", at)]
    else if Aborts(v, b) then rows
    else if Uncovered(v, b) then rows + [EntryRow(user, alert, v, Skipped, None, None, "", at)]
    else
      var entry := PlacedRow(rows, user, alert, v, b, at);
      if ExitOf(v).Some? && entry.status != Failed
      then WithLeg(rows + [entry], v, entry, b.placed.value.legId, ExitOf(v).value, b.placed.value.legAccepted, at)
      else rows + [entry]
  }

  /** The one call of a placement method, if there is one. */
  function PlacementOf(user: User, v: ValidatedTrade, b: BrokerReplies): Option<Placement> {
    if v.errors == [] && !PositionsThrew(v, b) && !Uncovered(v, b)
    then Some(Placement(ContractOf(v), v.quantity, if v.action.BuyToOpen? then BuyToOpen else SellToClose,
                        EffectiveMode(user), ExitOf(v)))
    else None
  }

  /**
   * Nothing is sent to the broker for a trade with validation errors or an uncovered close,
   * and whatever is sent goes out at most once, live only with the live flag. An alert is
   * left unprocessed exactly on validation errors and when a call raised (`row` is None
   * then), even if that was after the placement.
   */
  method Execute(ledger: Ledger, user: User, alert: Alert, v: ValidatedTrade, b: BrokerReplies, at: Time)
    returns (row: Option<Execution>, placement: Option<Placement>)
    modifies ledger, alert`processed, alert`skipReason
    ensures ledger.rows == Executed(old(ledger.rows), user, alert.id, v, b, at)
    ensures row.None? <==> Aborts(v, b)
    ensures row.Some? ==> |ledger.rows| > |old(ledger.rows)| && row.value == ledger.rows[|old(ledger.rows)|]
    ensures placement == PlacementOf(user, v, b)
    ensures alert.processed == (old(alert.processed) || (v.errors == [] && !Aborts(v, b)))
    ensures alert.skipReason == if v.errors == [] && Uncovered(v, b)
                                then Some(Refusal(Held(b.positions.value, v.contractSymbol), v.contractSymbol, v.quantity))
                                else old(alert.skipReason)
  {
    var mode := user.defaultMode;
    if mode == Live && !user.liveTradingEnabled {
      mode := Paper;
    }
    placement := None;
    if v.errors != [] {
      row := Some(EntryRow(user, alert.id, v, ValidationFailed, None, None, "", at));
      ledger.rows := ledger.rows + [row.value];
      return;
    }
    if v.action == SellToClose {
      if b.positions.Threw? {
        return None, None;
      }
      var error := ValidateClosePosition(b.positions.value, v.contractSymbol, v.quantity);
      if error.Some? {
        row := Some(EntryRow(user, alert.id, v, Skipped, None, None, "", at));
        ledger.rows := ledger.rows + [row.value];
        alert.processed, alert.skipReason := true, error;
        return;
      }
    }
    var exitPrice := if v.action == BuyToOpen then TakeProfitPrice(v) else None;
    placement := Some(Placement(ContractOf(v), v.quantity, if v.action == BuyToOpen then BuyToOpen else SellToClose, mode, exitPrice));
    if b.placed.Threw? || (AsksStatus(b) && b.status.Threw?) {
      return None, placement;
    }
    var entry := RecordPlaced(ledger, user, alert, v, b, exitPrice, at);
    row := Some(entry);
    alert.processed := true;
  }

  /** The entry of a placed trade and the leg of its exit, once the broker has answered. */
  method RecordPlaced(ledger: Ledger, user: User, alert: Alert, v: ValidatedTrade, b: BrokerReplies, exitPrice: Option<int>, at: Time)
    returns (row: Execution)
    requires v.errors == [] && !PositionsThrew(v, b) && !Uncovered(v, b) && !PlacingThrew(b) && exitPrice == ExitOf(v)
    modifies ledger
    ensures row == PlacedRow(old(ledger.rows), user, alert.id, v, b, at)
    ensures ledger.rows == Executed(old(ledger.rows), user, alert.id, v, b, at)
    ensures |ledger.rows| > |old(ledger.rows)| && row == ledger.rows[|old(ledger.rows)|]
  {
    var placed := b.placed.value;
    var (status, price) := ResolveFill(placed.orderId, b.hasStatus, StatusReply(b), v.ask);
    if !placed.success {
      status := Failed;
    }
    var pnl := None;
    if status == Filled && v.action == SellToClose {
      pnl := ComputeClosePnl(ledger.rows, user.id, v.contractSymbol, v.quantity, price);
    }
    row := EntryRow(user, alert.id, v, status, price, pnl, placed.orderId, at);
    ledger.rows := ledger.rows + [row];
    if exitPrice.Some? && (status == Filled || status == Submitted) && placed.success {
      var _ := PersistTakeProfitLeg(ledger, v, row, placed.legId, exitPrice.value, placed.legAccepted, at);
    }
  }

  /** An order is out without a row exactly when the placement, or asking for its status, raised. */
  lemma PlacedWithoutRowIff(rows: seq<Execution>, user: User, alert: string, v: ValidatedTrade, b: BrokerReplies, at: Time)
    ensures PlacementOf(user, v, b).Some? && Executed(rows, user, alert, v, b, at) == rows
       <==> && v.errors == []
            && (v.action == SellToClose ==>
                  b.positions.Returned? && Held(b.positions.value, v.contractSymbol) > 0.0
                  && v.quantity <= Held(b.positions.value, v.contractSymbol).Floor)
            && (b.placed.Threw? || (b.placed.value.orderId != "" && b.hasStatus && b.status.Threw?))
  {
    if !PlacingThrew(b) {
      var entry := PlacedRow(rows, user, alert, v, b, at);
      assert |rows + [entry]| == |rows| + 1;
      assert |Executed(rows, user, alert, v, b, at)| > |rows| || v.errors != [] || Aborts(v, b) || Uncovered(v, b);
    }
  }

  /** An accepted order whose status call then raises: the order is out, and no row tells of it. */
  lemma StatusErrorLosesTheRow(rows: seq<Execution>, user: User, alert: string, v: ValidatedTrade, order: OrderId, at: Time)
    requires v.errors == [] && v.action.BuyToOpen? && order != ""
    ensures var b := BrokerReplies(Returned([]), Returned(PlaceResult(true, order, "", true)), true, Threw);
            PlacementOf(user, v, b).Some? && Executed(rows, user, alert, v, b, at) == rows
  {
    PlacedWithoutRowIff(rows, user, alert, v, BrokerReplies(Returned([]), Returned(PlaceResult(true, order, "", true)), true, Threw), at);
  }

  /** A leg is added exactly when there is an id for it that no row of the user has; whose rows others are does not matter. */
  lemma LegIsAddedIff(rows: seq<Execution>, v: ValidatedTrade, entry: Execution, reported: OrderId, cents: int, accepted: bool, at: Time)
    ensures var rows' := WithLeg(rows, v, entry, reported, cents, accepted, at);
            var id := if reported != "" then reported else if entry.orderId != "" then "tp-" + entry.orderId else "";
            if id == "" || exists i :: 0 <= i < |rows| && rows[i].user == entry.user && rows[i].orderId == id then rows' == rows
            else && |rows'| == |rows| + 1 && rows'[..|rows|] == rows
                 && var leg := rows'[|rows|];
                 && leg.user == entry.user && leg.alert == entry.alert && leg.contract == v.contractSymbol && leg.quantity == v.quantity
                 && leg.orderId == id && leg.isLeg && leg.intent.Some? && leg.intent.value.action == SellToClose
                 && leg.status == (if accepted then Submitted else Failed)
                 && leg.fillPrice == Some(cents as real / 100.0) && leg.pnl == None && leg.created == at
  {
  }

  /** The entry's row says whose it is, for which alert, what was traded, and under which id it is known. */
  lemma PlacedRowIs(rows: seq<Execution>, user: User, alert: string, v: ValidatedTrade, b: BrokerReplies, at: Time)
    requires !PlacingThrew(b)
    ensures var row := PlacedRow(rows, user, alert, v, b, at);
            && row.user == user.id && row.alert == Some(alert) && row.contract == v.contractSymbol && row.quantity == v.quantity
            && row.orderId == b.placed.value.orderId && !row.isLeg && row.created == at
            && row.intent.Some? && row.intent.value.action == v.action
            && (!b.placed.value.success ==> row.status == Failed && row.pnl == None)
            && (row.pnl.Some? ==> row.status == Filled && v.action == SellToClose)
  {
  }

  /**
   * An order that the broker says is filled, at a price it tells: that is the row's price,
   * not the ask, and a close takes its profit there.
   */
  lemma PlacedAtTheToldPrice(rows: seq<Execution>, user: User, alert: string, v: ValidatedTrade, b: BrokerReplies, at: Time,
                             reply: StatusData, price: real)
    requires b.placed.Returned? && b.placed.value.success && b.placed.value.orderId != "" && b.hasStatus
    requires b.status == Returned(Some(reply)) && (PayloadOf(reply).status == "FILLED" || PayloadOf(reply).status == "EXECUTED")
    requires Tells(PayloadOf(reply), price)
    ensures var row := PlacedRow(rows, user, alert, v, b, at);
            && row.status == Filled && row.fillPrice == Some(price)
            && row.pnl == if v.action == SellToClose then ClosePnl(rows, user.id, v.contractSymbol, v.quantity, Some(price)) else None
  {
    FillPriceIsTold(PayloadOf(reply), v.ask);
  }
}
