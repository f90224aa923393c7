/**
 * What happens to one alert after it has been accepted: the chain of gates, sizing and
 * validation, and at its end at most one order.
 */
module IngestPipeline {
  import opened Prelude
  import opened Trade
  import opened TradeLedger
  import opened OrderLifecycle
  import opened PositionCheck
  import opened ExecuteTrade
  import opened Sizing
  import opened ContractChoice
  import opened Gates
  import opened BridgeProtocol
  import opened NinjaTrader
  import opened IdempotencyKey

  // ----- broker connections -----

  datatype Connection = Connection(user: UserId, broker: Broker, connected: bool, endpoint: Endpoint)

  function FirstConnected(rows: seq<Connection>, user: UserId, broker: Option<Broker>): (c: Option<Connection>)
    ensures c.Some? ==> c.value in rows && c.value.user == user && c.value.connected && (broker.Some? ==> c.value.broker == broker.value)
    ensures rows != [] && rows[0].user == user && rows[0].connected && (broker.Some? ==> rows[0].broker == broker.value) ==> c == Some(rows[0])
    ensures c.None? ==> forall x :: x in rows ==> !(x.user == user && x.connected && (broker.Some? ==> x.broker == broker.value))
  {
    if rows == [] then None
    else if rows[0].user == user && rows[0].connected && (broker.Some? ==> rows[0].broker == broker.value) then Some(rows[0])
    else FirstConnected(rows[1..], user, broker)
  }

  function ResolveBrokerConnection(rows: seq<Connection>, user: User): Option<Connection> {
    var preferred := if user.defaultBroker.Some? then FirstConnected(rows, user.id, user.defaultBroker) else None;
    if preferred.Some? then preferred else FirstConnected(rows, user.id, None)
  }

  /** The user's own connected connection, of the default broker whenever there is one; none only without any. */
  lemma ConnectionIsOwn(rows: seq<Connection>, user: User)
    ensures match ResolveBrokerConnection(rows, user)
            case None => forall x :: x in rows ==> !(x.user == user.id && x.connected)
            case Some(c) =>
              && c in rows && c.user == user.id && c.connected
              && forall x :: x in rows && x.user == user.id && x.connected && user.defaultBroker == Some(x.broker)
                   ==> user.defaultBroker == Some(c.broker)
  {
  }

  // ----- futures -----

  datatype ValidatedFutures = ValidatedFutures(
    buy: bool, symbol: string, quantity: int, rationale: string, id: OrderId, errors: seq<string>)

  /** `id`: the intent's external id, or a fresh one; never empty. */
  function FuturesOf(intent: Intent, id: OrderId): ValidatedFutures {
    ValidatedFutures(intent.action.BuyToOpen?, FuturesSymbol(intent.underlying), intent.quantity, intent.rationale, id,
      (if intent.underlying == "" then ["missing futures symbol"] else [])
      + (if intent.quantity < 1 then ["invalid quantity"] else [])
      + if intent.action.Skip? then ["invalid futures action"] else [])
  }

  /** What the transport meets: see `NinjaTrader.Delivered`. */
  datatype Network = Network(online: bool, push: PushResult, onlineAfter: bool, http: Http)

  function OrderBodyOf(user: User, f: ValidatedFutures): OrderBody {
    OrderBody(f.id, f.symbol, f.buy, f.quantity, EffectiveMode(user).Paper?)
  }

  /** Neither BUY nor SELL is the mark of a close, so only the free text can carry it. */
  function FuturesRow(user: User, alert: string, f: ValidatedFutures, status: Status, order: OrderId, at: Time): Execution {
    Execution(user.id, Some(alert), f.symbol, status, f.quantity, None, None, order,
              Some(IntentJson(BuyToOpen, f.rationale)), false, at)
  }

  function FuturesDelivery(user: User, f: ValidatedFutures, to: Endpoint, net: Network): Delivery {
    Delivered(to, user.id, OrderBodyOf(user, f), net.online, net.push, net.onlineAfter, net.http)
  }

  /** The row of a futures trade; None when the adapter raised and nothing was stored. */
  function FuturesExecuted(user: User, alert: string, f: ValidatedFutures, to: Endpoint, net: Network, at: Time): Option<Execution> {
    if f.errors != [] then Some(FuturesRow(user, alert, f, ValidationFailed, "", at))
    else
      var d := FuturesDelivery(user, f, to, net);
      if d.result.None? then None
      else Some(FuturesRow(user, alert, f, if d.result.value.success then Submitted else Failed, d.result.value.orderId, at))
  }

  method ExecuteFuturesTrade(ledger: Ledger, user: User, alert: Alert, f: ValidatedFutures, to: Endpoint, net: Network, at: Time)
    returns (row: Option<Execution>, sent: bool)
    modifies ledger, alert`processed
    ensures row == FuturesExecuted(user, alert.id, f, to, net, at)
    ensures ledger.rows == old(ledger.rows) + if row.Some? then [row.value] else []
    ensures sent <==> f.errors == []
    ensures alert.processed == (old(alert.processed) || (f.errors == [] && row.Some?))
  {
    var mode := user.defaultMode;
    if mode == Live && !user.liveTradingEnabled {
      mode := Paper;
    }
    if f.errors != [] {
      row := Some(FuturesRow(user, alert.id, f, ValidationFailed, "", at));
      ledger.rows := ledger.rows + [row.value];
      return row, false;
    }
    var dryRun := mode == Paper;
    sent := true;
    var d := ExecuteFuturesOrder(to, user.id, OrderBody(f.id, f.symbol, f.buy, f.quantity, dryRun),
                                 net.online, net.push, net.onlineAfter, net.http);
    if d.result.None? {
      return None, true;
    }
    var status := if d.result.value.success then Submitted else Failed;
    row := Some(FuturesRow(user, alert.id, f, status, d.result.value.orderId, at));
    ledger.rows := ledger.rows + [row.value];
    alert.processed := true;
  }

  // ----- the chain -----

  /** An eterminal envelope with what it maps to, or any other alert with what it was parsed as, if parsing did not raise. */
  datatype Request = Envelope(mapped: Option<Intent>) | Text(parsed: Intent) | Unreadable

  /**
   * Settings, and everything from outside while one alert is processed. `adapterReady`: the
   * credentials of the connection could be read and refreshed. Any call may have raised.
   */
  datatype World = World(
    threshold: real, configured: bool, decision: Option<FilterDecision>, marketOpen: bool, connections: seq<Connection>,
    adapterReady: bool, today: Date, chain: Call<seq<OptionContract>>, equity: Call<Option<real>>, broker: BrokerReplies,
    futuresId: OrderId, net: Network)

  datatype Verdict =
    | Inactive
    | SkipFor(reason: string)
    | Breaks
    | TradeFutures(f: ValidatedFutures, to: Endpoint)
    | TradeOptions(v: ValidatedTrade)

  const NOT_ACTIVE: string := "Active subscription required"
  const NOT_TRADABLE: string := "eterminal event not a tradable signal"
  const MARKET_CLOSED: string := "outside regular trading hours (9:30 AM – 4:00 PM ET, Mon–Fri)"
  const NO_BROKER: string := "no broker connected"
  const FUTURES_NEED_NINJATRADER: string := "futures trading requires NinjaTrader connection"
  const ONLY_FUTURES: string := "NinjaTrader only supports futures orders"

  function ReasonOf(intent: Intent): string {
    if intent.rationale == "" then "skipped" else intent.rationale
  }

  /** The intent after the gates, which envelopes do not pass through. */
  function Source(user: User, request: Request, w: World): Option<Intent> {
    match request
    case Envelope(mapped) => mapped
    case Text(parsed) => Some(Gated(parsed, user, w.threshold, w.configured, w.decision))
    case Unreadable => None
  }

  function EquityOf(w: World): Option<real> {
    if w.equity.Returned? then w.equity.value else None
  }

  function JudgeOptions(user: User, intent: Intent, w: World): Verdict {
    if !w.adapterReady || w.chain.Threw? then Breaks
    else
      var v := Validated(intent, w.chain.value, w.today);
      if AsksEquity(user, v) && w.equity.Threw? then Breaks
      else
        var (quantity, skip) := ComputeQuantity(user, v, EquityOf(w));
        if skip.Some? then SkipFor(skip.value) else TradeOptions(v.(quantity := quantity))
  }

  function JudgeFutures(user: User, intent: Intent, to: Endpoint, w: World): Verdict {
    if !w.adapterReady then Breaks
    else
      var f := FuturesOf(intent, w.futuresId);
      TradeFutures(f.(quantity := CapQuantity(f.quantity, user.maxContracts)), to)
  }

  function JudgeTrade(user: User, intent: Intent, w: World): Verdict {
    match ResolveBrokerConnection(w.connections, user)
    case None => SkipFor(NO_BROKER)
    case Some(c) =>
      if intent.assetClass.Futures? then
        if !c.broker.NinjaTrader? then SkipFor(FUTURES_NEED_NINJATRADER) else JudgeFutures(user, intent, c.endpoint, w)
      else if c.broker.NinjaTrader? then SkipFor(ONLY_FUTURES)
      else JudgeOptions(user, intent, w)
  }

  function Judge(user: User, active: bool, request: Request, w: World): Verdict {
    if !active then Inactive
    else if request.Unreadable? then Breaks
    else
      match Source(user, request, w)
      case None => SkipFor(NOT_TRADABLE)
      case Some(intent) =>
        if intent.action.Skip? then SkipFor(ReasonOf(intent))
        else if !w.marketOpen then SkipFor(MARKET_CLOSED)
        else JudgeTrade(user, intent, w)
  }

  /** An order as it reaches a broker placement method. */
  datatype Order = OptionOrder(p: Placement) | FuturesOrder(body: OrderBody, to: Endpoint)

  function OrderOf(user: User, verdict: Verdict, w: World): Option<Order> {
    match verdict
    case TradeFutures(f, to) => if f.errors == [] then Some(FuturesOrder(OrderBodyOf(user, f), to)) else None
    case TradeOptions(v) =>
      var p := PlacementOf(user, v, w.broker);
      if p.Some? then Some(OptionOrder(p.value)) else None
    case _ => None
  }

  datatype Response = Duplicate(alert: string) | PaymentRequired | WasSkipped(reason: string) | WasTraded(status: Status) | Raised

  /** The alert's row in the table, with the flags that change. */
  class AlertStore {
    var index: map<(UserId, Key), Alert>

    constructor ()
      ensures index == map[]
    {
      index := map[];
    }
  }

  // ----- the method -----

  method Skip(alert: Alert, reason: string) returns (response: Response)
    modifies alert`processed, alert`skipReason
    ensures alert.processed && alert.skipReason == Some(reason) && response == WasSkipped(reason)
  {
    alert.skipReason := Some(reason);
    alert.processed := true;
    response := WasSkipped(reason);
  }

  /** What the verdict leaves behind: the alert's flags, the rows and the response. */
  ghost predicate CarriedOut(rows: seq<Execution>, rows': seq<Execution>, user: User, alert: string, verdict: Verdict, w: World, at: Time,
                             processed: bool, skipReason: Option<string>, response: Response)
  {
    match verdict
    case Inactive => processed && skipReason == Some(NOT_ACTIVE) && response == PaymentRequired && rows' == rows
    case SkipFor(reason) => processed && skipReason == Some(reason) && response == WasSkipped(reason) && rows' == rows
    case TradeFutures(f, to) =>
      var row := FuturesExecuted(user, alert, f, to, w.net, at);
      && processed == (f.errors == [] && row.Some?) && skipReason == None
      && rows' == rows + (if row.Some? then [row.value] else [])
      && response == if row.Some? then WasTraded(row.value.status) else Raised
    case TradeOptions(v) =>
      && processed == (v.errors == [] && !Aborts(v, w.broker))
      && skipReason == (if v.errors == [] && Uncovered(v, w.broker)
                        then Some(Refusal(Held(w.broker.positions.value, v.contractSymbol), v.contractSymbol, v.quantity)) else None)
      && rows' == Executed(rows, user, alert, v, w.broker, at)
      && (if Aborts(v, w.broker) then response == Raised
          else |rows'| > |rows| && response == WasTraded(rows'[|rows|].status))
    case Breaks => !processed && skipReason == None && response == Raised && rows' == rows
  }

  method TradeOption(ledger: Ledger, user: User, alert: Alert, intent: Intent, w: World, at: Time)
    returns (response: Response, order: Option<Order>)
    requires !alert.processed && alert.skipReason == None
    modifies ledger, alert`processed, alert`skipReason
    ensures order == OrderOf(user, JudgeOptions(user, intent, w), w)
    ensures CarriedOut(old(ledger.rows), ledger.rows, user, alert.id, JudgeOptions(user, intent, w), w, at,
                       alert.processed, alert.skipReason, response)
  {
    if !w.adapterReady || w.chain.Threw? {
      return Raised, None;
    }
    var v := ValidateTrade(intent, w.chain.value, w.today);
    if AsksEquity(user, v) && w.equity.Threw? {
      return Raised, None;
    }
    order := None;
    var (quantity, sizingSkip) := ComputeQuantity(user, v, EquityOf(w));
    if sizingSkip.Some? {
      response := Skip(alert, sizingSkip.value);
      return;
    }
    var row, placement := Execute(ledger, user, alert, v.(quantity := quantity), w.broker, at);
    if placement.Some? {
      order := Some(OptionOrder(placement.value));
    }
    response := if row.Some? then WasTraded(row.value.status) else Raised;
  }

  method TradeFuture(ledger: Ledger, user: User, alert: Alert, intent: Intent, to: Endpoint, w: World, at: Time)
    returns (response: Response, order: Option<Order>)
    requires !alert.processed && alert.skipReason == None
    modifies ledger, alert`processed
    ensures order == OrderOf(user, JudgeFutures(user, intent, to, w), w)
    ensures CarriedOut(old(ledger.rows), ledger.rows, user, alert.id, JudgeFutures(user, intent, to, w), w, at,
                       alert.processed, alert.skipReason, response)
  {
    if !w.adapterReady {
      return Raised, None;
    }
    var f := FuturesOf(intent, w.futuresId);
    f := f.(quantity := CapQuantity(f.quantity, user.maxContracts));
    var row, sent := ExecuteFuturesTrade(ledger, user, alert, f, to, w.net, at);
    order := if sent then Some(FuturesOrder(OrderBodyOf(user, f), to)) else None;
    response := if row.Some? then WasTraded(row.value.status) else Raised;
  }

  /** From the connection on: the part of the pipeline after the gates. */
  method TradeAlert(ledger: Ledger, user: User, alert: Alert, intent: Intent, w: World, at: Time)
    returns (response: Response, order: Option<Order>)
    requires !alert.processed && alert.skipReason == None
    modifies ledger, alert`processed, alert`skipReason
    ensures order == OrderOf(user, JudgeTrade(user, intent, w), w)
    ensures CarriedOut(old(ledger.rows), ledger.rows, user, alert.id, JudgeTrade(user, intent, w), w, at,
                       alert.processed, alert.skipReason, response)
  {
    order := None;
    var connection := ResolveBrokerConnection(w.connections, user);
    if connection.None? {
      response := Skip(alert, NO_BROKER);
      return;
    }
    if intent.assetClass == Futures {
      if connection.value.broker != Broker.NinjaTrader {
        response := Skip(alert, FUTURES_NEED_NINJATRADER);
        return;
      }
      response, order := TradeFuture(ledger, user, alert, intent, connection.value.endpoint, w, at);
      return;
    }
    if connection.value.broker == Broker.NinjaTrader {
      response := Skip(alert, ONLY_FUTURES);
      return;
    }
    response, order := TradeOption(ledger, user, alert, intent, w, at);
  }

  /**
   * One request, undisturbed. A known key is a duplicate and changes nothing; an unknown one
   * gets its row before anything else, and what follows is the verdict, carried out.
   */
  method ProcessInboundAlert(store: AlertStore, ledger: Ledger, user: User, active: bool, body: Body, via: Option<WebhookId>, id: string,
                             request: Request, w: World, at: Time)
    returns (response: Response, order: Option<Order>)
    modifies store, ledger
    ensures var resolved := ResolveKey(user.id, body, via);
            if resolved.None? then
              response == Raised && order == None && store.index == old(store.index) && ledger.rows == old(ledger.rows)
            else if (user.id, resolved.value) in old(store.index) then
              && response == Duplicate(old(store.index)[(user.id, resolved.value)].id) && order == None
              && store.index == old(store.index) && ledger.rows == old(ledger.rows)
            else
              var key := (user.id, resolved.value);
              && key in store.index && fresh(store.index[key]) && store.index[key].id == id
              && store.index == old(store.index)[key := store.index[key]]
              && order == OrderOf(user, Judge(user, active, request, w), w)
              && CarriedOut(old(ledger.rows), ledger.rows, user, id, Judge(user, active, request, w), w, at,
                            store.index[key].processed, store.index[key].skipReason, response)
  {
    order := None;
    var resolved := ResolveKey(user.id, body, via);
    if resolved.None? {
      return Raised, None;
    }
    var key := resolved.value;
    if (user.id, key) in store.index {
      return Duplicate(store.index[(user.id, key)].id), None;
    }
    var alert := new Alert(id);
    store.index := store.index[(user.id, key) := alert];
    if !active {
      alert.skipReason, alert.processed := Some(NOT_ACTIVE), true;
      return PaymentRequired, None;
    }
    if request.Unreadable? {
      return Raised, None;
    }
    var intent;
    match request {
      case Envelope(mapped) =>
        if mapped.None? {
          response := Skip(alert, NOT_TRADABLE);
          return;
        }
        intent := mapped.value;
      case Text(parsed) =>
        intent := DecideAction(parsed, user, w.threshold);
        if intent.action != Action.Skip {
          intent := ApplyTradeFilter(intent, user, w.configured, w.decision);
        }
    }
    if intent.action == Action.Skip {
      response := Skip(alert, ReasonOf(intent));
      return;
    }
    if !w.marketOpen {
      response := Skip(alert, MARKET_CLOSED);
      return;
    }
    response, order := TradeAlert(ledger, user, alert, intent, w, at);
  }

  // ----- gate soundness -----

  /** The intent as it arrived, before any gate. */
  function Raw(request: Request): Option<Intent> {
    match request
    case Envelope(mapped) => mapped
    case Text(parsed) => Some(parsed)
    case Unreadable => None
  }

  predicate PassesGates(user: User, request: Request, w: World) {
    request.Text? ==>
      && request.parsed.confidence >= w.threshold
      && TickerAllowed(user, request.parsed.underlying)
      && FilterTakes(user, w.configured, w.decision)
  }

  /** The calls before the placement return, and nothing speaks against the trade. */
  predicate OptionsClear(user: User, intent: Intent, w: World) {
    && w.adapterReady && w.chain.Returned?
    && var v := Validated(intent, w.chain.value, w.today);
    && (AsksEquity(user, v) ==> w.equity.Returned?)
    && var (quantity, skip) := ComputeQuantity(user, v, if w.equity.Returned? then w.equity.value else None);
    && v.errors == [] && skip.None?
    && (intent.action.SellToClose? ==>
          w.broker.positions.Returned? && Covers(Held(w.broker.positions.value, v.contractSymbol), quantity))
  }

  predicate FuturesClear(intent: Intent, w: World) {
    w.adapterReady && intent.underlying != "" && intent.quantity >= 1
  }

  /** Every gate at once, each stated on the raw request. */
  predicate AllGates(user: User, active: bool, request: Request, w: World) {
    && active && w.marketOpen
    && Raw(request).Some? && !Raw(request).value.action.Skip?
    && PassesGates(user, request, w)
    && TradeClear(user, Raw(request).value, w)
  }

  predicate TradeClear(user: User, intent: Intent, w: World) {
    var c := ResolveBrokerConnection(w.connections, user);
    && c.Some? && (intent.assetClass.Futures? <==> c.value.broker.NinjaTrader?)
    && (if c.value.broker.NinjaTrader? then FuturesClear(intent, w) else OptionsClear(user, intent, w))
  }

  /** With a tradable source, the intent that is traded is the raw one, unchanged. */
  lemma SourceIsRaw(user: User, request: Request, w: World)
    ensures var s, raw := Source(user, request, w), Raw(request);
            && (s.Some? && !s.value.action.Skip? <==> raw.Some? && !raw.value.action.Skip? && PassesGates(user, request, w))
            && (s.Some? && !s.value.action.Skip? ==> s == raw)
  {
    if request.Text? && !request.parsed.action.Skip? {
      GatesPassOrSkip(request.parsed, user, w.threshold, w.configured, w.decision);
    }
  }

  lemma FuturesOrderIff(user: User, intent: Intent, to: Endpoint, w: World)
    requires !intent.action.Skip?
    ensures OrderOf(user, JudgeFutures(user, intent, to, w), w).Some? <==> FuturesClear(intent, w)
  {
    var f := FuturesOf(intent, w.futuresId);
    assert f.errors == [] <==> intent.underlying != "" && intent.quantity >= 1;
  }

  lemma PlacementIff(user: User, v: ValidatedTrade, b: BrokerReplies)
    ensures PlacementOf(user, v, b).Some? <==>
              v.errors == [] && (v.action.SellToClose? ==>
                                   b.positions.Returned? && Covers(Held(b.positions.value, v.contractSymbol), v.quantity))
  {
  }

  lemma SizedOrderIff(user: User, v: ValidatedTrade, quantity: int, w: World)
    ensures OrderOf(user, TradeOptions(v.(quantity := quantity)), w).Some? <==>
              v.errors == [] && (v.action.SellToClose? ==>
                                   w.broker.positions.Returned? && Covers(Held(w.broker.positions.value, v.contractSymbol), quantity))
  {
    PlacementIff(user, v.(quantity := quantity), w.broker);
  }

  lemma OptionsOrderIff(user: User, intent: Intent, w: World)
    ensures OrderOf(user, JudgeOptions(user, intent, w), w).Some? <==> OptionsClear(user, intent, w)
  {
    if w.adapterReady && w.chain.Returned? {
      CleanIff(intent, w.chain.value, w.today);
      var v := Validated(intent, w.chain.value, w.today);
      SizedOrderIff(user, v, ComputeQuantity(user, v, EquityOf(w)).0, w);
    }
  }

  lemma WrongBrokerNoOrder(user: User, intent: Intent, w: World)
    requires var c := ResolveBrokerConnection(w.connections, user);
             c.None? || intent.assetClass.Futures? != c.value.broker.NinjaTrader?
    ensures JudgeTrade(user, intent, w).SkipFor? && OrderOf(user, JudgeTrade(user, intent, w), w).None?
  {
  }

  lemma TradeOrderIff(user: User, intent: Intent, w: World)
    requires !intent.action.Skip?
    ensures OrderOf(user, JudgeTrade(user, intent, w), w).Some? <==> TradeClear(user, intent, w)
  {
    var c := ResolveBrokerConnection(w.connections, user);
    if c.None? || intent.assetClass.Futures? != c.value.broker.NinjaTrader? {
      WrongBrokerNoOrder(user, intent, w);
    } else if c.value.broker.NinjaTrader? {
      FuturesOrderIff(user, intent, c.value.endpoint, w);
      assert JudgeTrade(user, intent, w) == JudgeFutures(user, intent, c.value.endpoint, w);
    } else {
      OptionsOrderIff(user, intent, w);
      assert JudgeTrade(user, intent, w) == JudgeOptions(user, intent, w);
    }
  }

  /** An order goes out if and only if every gate is open. */
  lemma OrderIffAllGates(user: User, active: bool, request: Request, w: World)
    ensures OrderOf(user, Judge(user, active, request, w), w).Some? <==> AllGates(user, active, request, w)
  {
    SourceIsRaw(user, request, w);
    if active && w.marketOpen && Raw(request).Some? && !Raw(request).value.action.Skip? && PassesGates(user, request, w) {
      TradeOrderIff(user, Raw(request).value, w);
      assert Judge(user, active, request, w) == JudgeTrade(user, Raw(request).value, w);
    }
  }

  // ----- what an order says -----

  /** The user's own connected connection with some property of its broker. */
  ghost predicate OwnConnection(user: User, w: World, c: Connection) {
    c in w.connections && c.user == user.id && c.connected
  }

  /** A liquid listed contract of the intent's kind, with the terms that are ordered. */
  ghost predicate ListedAs(c: OptionContract, intent: Intent, w: World, ordered: OptionContract) {
    && w.chain.Returned? && c in w.chain.value && OfKind(c, intent) && Liquid(c)
    && c.symbol == ordered.symbol && c.strike == ordered.strike && c.expiration == ordered.expiration
    && c.bid == ordered.bid && c.ask == ordered.ask && c.openInterest == ordered.openInterest && c.optionType == ordered.optionType
  }

  ghost predicate FuturesFits(user: User, intent: Intent, w: World, body: OrderBody, to: Endpoint) {
    && 1 <= body.quantity <= Cap(user) && Clamped(intent.quantity, user.maxContracts, body.quantity)
    && (!body.dryRun <==> user.liveTradingEnabled && user.defaultMode.Live?)
    && (body.buy <==> intent.action.BuyToOpen?) && body.symbol == FuturesSymbol(intent.underlying) && body.id == w.futuresId
    && exists c :: OwnConnection(user, w, c) && c.broker.NinjaTrader? && c.endpoint == to
  }

  /** As many contracts as sizing says on the equity the broker reports, and for a buy the exit the trade asks for. */
  ghost predicate SizedAndPriced(user: User, v: ValidatedTrade, w: World, p: Placement) {
    && (w.equity.Returned? ==> p.quantity == ComputeQuantity(user, v, w.equity.value).0)
    && (w.equity.Threw? ==> forall equity :: p.quantity == ComputeQuantity(user, v, equity).0)
    && (p.side.BuyToOpen? ==> p.takeProfit == TakeProfitPrice(v))
  }

  ghost predicate OptionsFits(user: User, intent: Intent, w: World, p: Placement) {
    && 1 <= p.quantity <= Cap(user)
    && (p.mode.Live? <==> user.liveTradingEnabled && user.defaultMode.Live?)
    && p.side == intent.action && p.contract.underlying == Upper(intent.underlying)
    && (p.side.SellToClose? ==>
          && p.takeProfit.None? && w.broker.positions.Returned?
          && Covers(Held(w.broker.positions.value, p.contract.symbol), p.quantity))
    && (exists c :: ListedAs(c, intent, w, p.contract))
    && SizedAndPriced(user, Validated(intent, if w.chain.Returned? then w.chain.value else [], w.today), w, p)
    && exists c :: OwnConnection(user, w, c) && !c.broker.NinjaTrader?
  }

  /** Size, mode, side and contract of an order, in terms of the raw intent. */
  ghost predicate OrderFits(user: User, intent: Intent, w: World, order: Order) {
    match order
    case FuturesOrder(body, to) => FuturesFits(user, intent, w, body, to)
    case OptionOrder(p) => OptionsFits(user, intent, w, p)
  }

  lemma FuturesOrderFits(user: User, intent: Intent, w: World, c: Connection)
    requires FuturesClear(intent, w) && !intent.action.Skip?
    requires OwnConnection(user, w, c) && c.broker.NinjaTrader?
    ensures OrderOf(user, JudgeFutures(user, intent, c.endpoint, w), w).Some?
    ensures OrderFits(user, intent, w, OrderOf(user, JudgeFutures(user, intent, c.endpoint, w), w).value)
  {
    FuturesOrderIff(user, intent, c.endpoint, w);
  }

  lemma OptionOrderFits(user: User, intent: Intent, w: World, c: Connection)
    requires OptionsClear(user, intent, w) && !intent.action.Skip?
    requires OwnConnection(user, w, c) && !c.broker.NinjaTrader?
    ensures OrderOf(user, JudgeOptions(user, intent, w), w).Some?
    ensures OrderFits(user, intent, w, OrderOf(user, JudgeOptions(user, intent, w), w).value)
  {
    CleanIff(intent, w.chain.value, w.today);
    OptionsOrderIff(user, intent, w);
    var v := Validated(intent, w.chain.value, w.today);
    ZeroIffSkipped(user, v, EquityOf(w));
    var p := OrderOf(user, JudgeOptions(user, intent, w), w).value.p;
    var chosen := Chosen(w.chain.value, intent, intent.expiration.GetOr(w.today)).value;
    assert ListedAs(chosen, intent, w, p.contract);
  }

  /** Whatever comes from outside, an order that goes out fits its intent, its user and its limits. */
  lemma OrdersFit(user: User, active: bool, request: Request, w: World)
    requires OrderOf(user, Judge(user, active, request, w), w).Some?
    ensures Raw(request).Some?
    ensures OrderFits(user, Raw(request).value, w, OrderOf(user, Judge(user, active, request, w), w).value)
  {
    OrderIffAllGates(user, active, request, w);
    SourceIsRaw(user, request, w);
    ConnectionIsOwn(w.connections, user);
    var intent := Raw(request).value;
    var c := ResolveBrokerConnection(w.connections, user).value;
    assert OwnConnection(user, w, c);
    if c.broker.NinjaTrader? {
      assert Judge(user, active, request, w) == JudgeFutures(user, intent, c.endpoint, w);
      FuturesOrderFits(user, intent, w, c);
    } else {
      assert Judge(user, active, request, w) == JudgeOptions(user, intent, w);
      OptionOrderFits(user, intent, w, c);
    }
  }

  /**
   * Every finished alert is marked processed, except one whose trade failed validation or
   * whose handler raised; a skip always leaves its reason.
   */
  lemma ProcessedUnlessInvalid(rows: seq<Execution>, rows': seq<Execution>, user: User, alert: string, verdict: Verdict, w: World, at: Time,
                               processed: bool, skipReason: Option<string>, response: Response)
    requires CarriedOut(rows, rows', user, alert, verdict, w, at, processed, skipReason, response)
    ensures processed <==> response != WasTraded(ValidationFailed) && response != Raised
    ensures response.WasSkipped? || response == WasTraded(Skipped) || response.PaymentRequired? <==> skipReason.Some?
  {
  }

  /** A skipped intent gives its own reason, or the stock one when that is blank; each later gate gives its own. */
  lemma SkipReasons(user: User, request: Request, w: World)
    ensures request.Envelope? && request.mapped.None? ==>
              Judge(user, true, request, w) == SkipFor("eterminal event not a tradable signal")
    ensures Source(user, request, w).Some? && Source(user, request, w).value.action.Skip? ==>
              Judge(user, true, request, w) ==
              SkipFor(if Source(user, request, w).value.rationale != "" then Source(user, request, w).value.rationale else "skipped")
    ensures Source(user, request, w).Some? && !Source(user, request, w).value.action.Skip? && !w.marketOpen ==>
              Judge(user, true, request, w) == SkipFor(MARKET_CLOSED)
    ensures Judge(user, false, request, w) == Inactive
  {
  }

  /** Futures need a symbol, at least one contract and a side; there is nothing else to validate. */
  lemma FuturesErrorsIff(intent: Intent, id: OrderId)
    ensures FuturesOf(intent, id).errors == [] <==> intent.underlying != "" && intent.quantity >= 1 && !intent.action.Skip?
  {
  }

  /** The row of a futures trade: whose it is, what was ordered, under which id it is known, and never a fill. */
  lemma FuturesRowIs(user: User, alert: string, f: ValidatedFutures, to: Endpoint, net: Network, at: Time)
    requires FuturesExecuted(user, alert, f, to, net, at).Some?
    ensures var row := FuturesExecuted(user, alert, f, to, net, at).value;
            && row.user == user.id && row.alert == Some(alert) && row.contract == f.symbol && row.quantity == f.quantity
            && row.fillPrice == None && row.pnl == None && !row.isLeg && row.created == at
            && (f.errors != [] ==> row.status == ValidationFailed && row.orderId == "")
            && (f.errors == [] ==>
                  var d := FuturesDelivery(user, f, to, net);
                  && d.result.Some? && row.orderId == d.result.value.orderId
                  && row.status == if d.result.value.success then Submitted else Failed)
  {
  }
}
