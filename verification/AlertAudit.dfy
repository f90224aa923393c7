/** The audit list: what became of each alert, and the newest of two tables in one list. */
module AlertAudit {
  import opened Prelude
  import opened TradeLedger
  import opened StableSort
  import opened Pages

  datatype AlertRow = AlertRow(id: string, user: UserId, created: Time, skipReason: Option<string>)

  datatype WebhookEvent = WebhookEvent(
    id: string, user: UserId, created: Time, status: string, alert: Option<string>, detail: Option<string>)

  datatype AuditOutcome = WasExecuted | WasSkippedOver | IsPending

  datatype Item = Item(
    id: string, created: Time, fromWebhook: bool, outcome: AuditOutcome, skipReason: Option<string>,
    alert: Option<string>, trade: Option<Execution>)

  // ----- which trade stands for an alert -----

  function FirstTrade(trades: seq<Execution>, id: string, leg: bool): (t: Option<Execution>)
    ensures t.Some? ==> t.value in trades && t.value.alert == Some(id) && t.value.isLeg == leg
    ensures t.None? ==> forall x :: x in trades ==> !(x.alert == Some(id) && x.isLeg == leg)
  {
    if trades == [] then None
    else if trades[0].alert == Some(id) && trades[0].isLeg == leg then Some(trades[0])
    else FirstTrade(trades[1..], id, leg)
  }

  /** The first trade of the alert that is no take-profit leg, or else its first leg. */
  function ChosenTrade(trades: seq<Execution>, id: string): Option<Execution> {
    var entry := FirstTrade(trades, id, false);
    if entry.Some? then entry else FirstTrade(trades, id, true)
  }

  lemma {:induction false} FirstTradeOfConcat(a: seq<Execution>, b: seq<Execution>, id: string, leg: bool)
    ensures FirstTrade(a + b, id, leg) == if FirstTrade(a, id, leg).Some? then FirstTrade(a, id, leg) else FirstTrade(b, id, leg)
  {
    if a == [] {
      assert a + b == b;
    } else {
      FirstTradeOfConcat(a[1..], b, id, leg);
      assert (a + b)[1..] == a[1..] + b;
    }
  }

  lemma FirstTradeOfOne(t: Execution, id: string, leg: bool)
    ensures FirstTrade([t], id, leg) == if t.alert == Some(id) && t.isLeg == leg then Some(t) else None
  {
    assert [t][1..] == [];
  }

  /** An alert with an entry shows it, never a leg; if it has just one, for every row order. */
  lemma EntryIsChosen(trades: seq<Execution>, trades': seq<Execution>, id: string)
    requires multiset(trades) == multiset(trades')
    ensures (exists t :: t in trades && t.alert == Some(id)) <==> ChosenTrade(trades, id).Some?
    ensures (exists t :: t in trades && t.alert == Some(id) && !t.isLeg) ==> !ChosenTrade(trades, id).value.isLeg
    ensures (forall t, u :: t in trades && u in trades && t.alert == u.alert == Some(id) && !t.isLeg && !u.isLeg ==> t == u)
            && (exists t :: t in trades && t.alert == Some(id) && !t.isLeg)
            ==> ChosenTrade(trades', id) == ChosenTrade(trades, id)
  {
    forall t ensures t in trades <==> t in trades' {
      assert t in multiset(trades) <==> t in multiset(trades');
    }
  }

  method TradeByAlert(trades: seq<Execution>, ids: set<string>) returns (chosen: map<string, Execution>)
    ensures forall id :: id in chosen <==> id in ids && id != "" && ChosenTrade(trades, id).Some?
    ensures forall id :: id in chosen ==> ChosenTrade(trades, id) == Some(chosen[id])
  {
    chosen := map[];
    for i := 0 to |trades|
      invariant forall id :: id in chosen <==> id in ids && id != "" && ChosenTrade(trades[..i], id).Some?
      invariant forall id :: id in chosen ==> ChosenTrade(trades[..i], id) == Some(chosen[id])
    {
      var trade := trades[i];
      assert trades[..i + 1] == trades[..i] + [trade];
      ChosenAfterOne(trades[..i], trade);
      if trade.alert.Some? && trade.alert.value in ids && trade.alert.value != "" {
        var id := trade.alert.value;
        if id !in chosen {
          chosen := chosen[id := trade];
        } else if chosen[id].isLeg && !trade.isLeg {
          chosen := chosen[id := trade];
        }
      }
    }
    assert trades[..|trades|] == trades;
  }

  lemma ChosenAfterOne(trades: seq<Execution>, t: Execution)
    ensures forall id :: ChosenTrade(trades + [t], id) ==
              var before := ChosenTrade(trades, id);
              if t.alert == Some(id) && (before.None? || (before.value.isLeg && !t.isLeg)) then Some(t) else before
  {
    forall id, leg ensures FirstTrade(trades + [t], id, leg) ==
      if FirstTrade(trades, id, leg).Some? then FirstTrade(trades, id, leg)
      else if t.alert == Some(id) && t.isLeg == leg then Some(t) else None
    {
      FirstTradeOfConcat(trades, [t], id, leg);
      FirstTradeOfOne(t, id, leg);
    }
  }

  // ----- outcomes -----

  predicate Truthy(text: Option<string>) {
    text.Some? && text.value != ""
  }

  function AlertOutcome(skipReason: Option<string>, trade: Option<Execution>): AuditOutcome {
    if Truthy(skipReason) || (trade.Some? && trade.value.status == Skipped) then WasSkippedOver
    else if trade.Some? then WasExecuted
    else IsPending
  }

  function WebhookEventOutcome(event: WebhookEvent, alert: Option<AlertRow>, trade: Option<Execution>): AuditOutcome {
    if event.status == "duplicate" || event.status == "subscription_inactive" then WasSkippedOver
    else if alert.Some? then AlertOutcome(alert.value.skipReason, trade)
    else if event.status == "skipped" || event.status == "validation_failed" then WasSkippedOver
    else if trade.Some? || event.status == "filled" || event.status == "submitted" then WasExecuted
    else IsPending
  }

  // ----- the list -----

  function ItemOfAlert(trades: seq<Execution>, row: AlertRow): Item {
    var trade := if row.id != "" then ChosenTrade(trades, row.id) else None;
    Item(row.id, row.created, false, AlertOutcome(row.skipReason, trade), row.skipReason, Some(row.id), trade)
  }

  function ItemOfEvent(trades: seq<Execution>, alerts: map<string, AlertRow>, event: WebhookEvent): Item {
    var linked := Truthy(event.alert);
    var alert := if linked && event.alert.value in alerts then Some(alerts[event.alert.value]) else None;
    var trade := if linked then ChosenTrade(trades, event.alert.value) else None;
    Item(event.id, event.created, true, WebhookEventOutcome(event, alert, trade),
         if Truthy(event.detail) then event.detail else if alert.Some? then alert.value.skipReason else None, event.alert, trade)
  }

  /** An alert is skipped for a reason or by its trade, and pending only while it has neither. */
  lemma AlertOutcomeIs(skipReason: Option<string>, trade: Option<Execution>)
    ensures var skipped := (skipReason.Some? && skipReason.value != "") || (trade.Some? && trade.value.status.Skipped?);
            && (AlertOutcome(skipReason, trade).WasSkippedOver? <==> skipped)
            && (AlertOutcome(skipReason, trade).IsPending? <==> !skipped && trade.None?)
  {
  }

  /** A delivery counts by its own status only where that cannot be a trade, or where it has no alert. */
  lemma EventOutcomeIs(event: WebhookEvent, alert: Option<AlertRow>, trade: Option<Execution>)
    ensures var outcome := WebhookEventOutcome(event, alert, trade);
            && (event.status in {"duplicate", "subscription_inactive"} ==> outcome.WasSkippedOver?)
            && (alert.None? && event.status in {"skipped", "validation_failed"} ==> outcome.WasSkippedOver?)
            && (alert.None? && event.status !in {"duplicate", "subscription_inactive", "skipped", "validation_failed"} ==>
                  outcome == if trade.Some? || event.status in {"filled", "submitted"} then WasExecuted else IsPending)
  {
  }

  /** Any other delivery with an alert is listed with the outcome, the reason and the trade its alert is listed with. */
  lemma EventShowsItsAlert(trades: seq<Execution>, alerts: map<string, AlertRow>, event: WebhookEvent, id: string)
    requires event.alert == Some(id) && id != "" && id in alerts && alerts[id].id == id
    ensures var item, shown := ItemOfEvent(trades, alerts, event), ItemOfAlert(trades, alerts[id]);
            && item.id == event.id && item.created == event.created && item.fromWebhook && item.alert == Some(id) == shown.alert
            && item.trade == shown.trade
            && (event.status !in {"duplicate", "subscription_inactive"} ==> item.outcome == shown.outcome)
            && (if event.detail.Some? && event.detail.value != "" then item.skipReason == event.detail else item.skipReason == shown.skipReason)
            && shown.id == id && shown.created == alerts[id].created && shown.skipReason == alerts[id].skipReason && !shown.fromWebhook
  {
  }

  function Created(item: Item): real { item.created }

  function AlertCreated(row: AlertRow): real { row.created }

  function EventCreated(event: WebhookEvent): real { event.created }

  function AlertItems(trades: seq<Execution>): AlertRow -> Item {
    (row: AlertRow) => ItemOfAlert(trades, row)
  }

  function EventItems(trades: seq<Execution>, alerts: map<string, AlertRow>): WebhookEvent -> Item {
    (event: WebhookEvent) => ItemOfEvent(trades, alerts, event)
  }

  function AlertIds(rows: seq<AlertRow>, events: seq<WebhookEvent>): set<string> {
    (set row | row in rows :: row.id) + (set event | event in events && Truthy(event.alert) :: event.alert.value)
  }

  function Get(chosen: map<string, Execution>, id: string): Option<Execution> {
    if id in chosen then Some(chosen[id]) else None
  }

  /** The lookups of `chosen` find each alert's trade. */
  ghost predicate Finds(chosen: map<string, Execution>, trades: seq<Execution>, ids: set<string>) {
    && Get(chosen, "") == None
    && forall id :: id in ids && id != "" ==> Get(chosen, id) == ChosenTrade(trades, id)
  }

  method AppendAlerts(rows: seq<AlertRow>, chosen: map<string, Execution>, ghost trades: seq<Execution>) returns (items: seq<Item>)
    requires Finds(chosen, trades, AlertIds(rows, []))
    ensures items == Map(rows, AlertItems(trades))
  {
    items := [];
    for i := 0 to |rows|
      invariant items == Map(rows[..i], AlertItems(trades))
    {
      var row := rows[i];
      assert row.id in AlertIds(rows, []);
      var trade := Get(chosen, row.id);
      items := items + [Item(row.id, row.created, false, AlertOutcome(row.skipReason, trade), row.skipReason, Some(row.id), trade)];
    }
    assert rows[..|rows|] == rows;
  }

  method AppendEvents(events: seq<WebhookEvent>, alerts: map<string, AlertRow>, chosen: map<string, Execution>, ghost trades: seq<Execution>)
    returns (items: seq<Item>)
    requires Finds(chosen, trades, AlertIds([], events))
    ensures items == Map(events, EventItems(trades, alerts))
  {
    items := [];
    for i := 0 to |events|
      invariant items == Map(events[..i], EventItems(trades, alerts))
    {
      var event := events[i];
      var alert, trade := None, None;
      if Truthy(event.alert) {
        assert event in events && event.alert.value in AlertIds([], events);
        alert := if event.alert.value in alerts then Some(alerts[event.alert.value]) else None;
        trade := Get(chosen, event.alert.value);
      }
      var reason := if Truthy(event.detail) then event.detail else if alert.Some? then alert.value.skipReason else None;
      items := items + [Item(event.id, event.created, true, WebhookEventOutcome(event, alert, trade), reason, event.alert, trade)];
    }
    assert events[..|events|] == events;
  }

  /** `rows` and `events` are what the two queries returned; `alerts` and `trades` the other tables. */
  method ListAlertAudit(rows: seq<AlertRow>, events: seq<WebhookEvent>, alerts: map<string, AlertRow>, trades: seq<Execution>, limit: nat)
    returns (items: seq<Item>)
    ensures items == Merged(Map(rows, AlertItems(trades)), Map(events, EventItems(trades, alerts)), limit, Created)
  {
    var chosen := TradeByAlert(trades, AlertIds(rows, events));
    assert Finds(chosen, trades, AlertIds(rows, events));
    var first := AppendAlerts(rows, chosen, trades);
    var second := AppendEvents(events, alerts, chosen, trades);
    items := SortDescending(first + second, Created);
    if |items| > limit {
      items := items[..limit];
    }
  }

  /**
   * The list made of two truncated queries is a page of everything: in descending time,
   * min(limit, total) long, with no omitted row or event newer than a listed one. So its
   * times are those of sorting everything and taking the first `limit`.
   */
  lemma ListIsPageOfEverything(allRows: seq<AlertRow>, rows: seq<AlertRow>, allEvents: seq<WebhookEvent>, events: seq<WebhookEvent>,
                               alerts: map<string, AlertRow>, trades: seq<Execution>, limit: nat)
    requires IsPage(allRows, rows, limit, AlertCreated) && IsPage(allEvents, events, limit, EventCreated)
    ensures var itemOfAlert, itemOfEvent := AlertItems(trades), EventItems(trades, alerts);
            var all := Map(allRows, itemOfAlert) + Map(allEvents, itemOfEvent);
            var items := Merged(Map(rows, itemOfAlert), Map(events, itemOfEvent), limit, Created);
            && IsPage(all, items, limit, Created)
            && |items| == Min(limit, |allRows| + |allEvents|)
            && |SortDescending(all, Created)| == |all|
            && forall i :: 0 <= i < |items| ==> items[i].created == SortDescending(all, Created)[i].created
  {
    var itemOfAlert, itemOfEvent := AlertItems(trades), EventItems(trades, alerts);
    MapKeepsPage(allRows, rows, limit, AlertCreated, itemOfAlert, Created);
    MapKeepsPage(allEvents, events, limit, EventCreated, itemOfEvent, Created);
    var all := Map(allRows, itemOfAlert) + Map(allEvents, itemOfEvent);
    MergedIsPage(Map(allRows, itemOfAlert), Map(rows, itemOfAlert), Map(allEvents, itemOfEvent), Map(events, itemOfEvent), limit, Created);
    var items := Merged(Map(rows, itemOfAlert), Map(events, itemOfEvent), limit, Created);
    SortSorts(all, Created);
    SortEverythingIsPage(all, limit, Created);
    var simple := SortDescending(all, Created)[..Min(limit, |all|)];
    forall i | 0 <= i < |items| ensures items[i].created == SortDescending(all, Created)[i].created {
      PagesAgree(all, items, simple, limit, Created, i);
    }
  }
}

/** What the audit list will say about an alert the pipeline has finished with. */
module AuditTrail {
  import opened Prelude
  import opened Trade
  import opened TradeLedger
  import opened ExecuteTrade
  import opened Sizing
  import opened Gates
  import opened BridgeProtocol
  import opened NinjaTrader
  import opened IngestPipeline
  import opened AlertAudit

  lemma TradeReasonIsNotBlank(user: User, intent: Intent, w: World)
    ensures JudgeTrade(user, intent, w).SkipFor? ==> JudgeTrade(user, intent, w).reason != ""
  {
  }

  lemma ReasonIsNotBlank(user: User, active: bool, request: Request, w: World)
    ensures Judge(user, active, request, w).SkipFor? ==> Judge(user, active, request, w).reason != ""
  {
    if Source(user, request, w).Some? {
      TradeReasonIsNotBlank(user, Source(user, request, w).value, w);
    }
  }

  lemma FirstAdded(rows: seq<Execution>, entry: Execution, more: seq<Execution>, id: string)
    requires forall x :: x in rows ==> x.alert != Some(id)
    requires entry.alert == Some(id) && !entry.isLeg
    ensures ChosenTrade(rows + [entry] + more, id) == Some(entry)
  {
    assert rows + [entry] + more == rows + ([entry] + more);
    FirstTradeOfConcat(rows, [entry] + more, id, false);
    FirstTradeOfConcat([entry], more, id, false);
    FirstTradeOfOne(entry, id, false);
  }

  /** The entry row comes first, and only a leg may follow. */
  lemma ExecutedAdds(rows: seq<Execution>, user: User, alert: string, v: ValidatedTrade, b: BrokerReplies, at: Time)
    returns (entry: Execution, more: seq<Execution>)
    requires !Aborts(v, b)
    ensures Executed(rows, user, alert, v, b, at) == rows + [entry] + more
    ensures entry.alert == Some(alert) && !entry.isLeg
  {
    var rows' := Executed(rows, user, alert, v, b, at);
    entry, more := rows'[|rows|], rows'[|rows| + 1..];
    assert rows' == rows'[..|rows|] + [rows'[|rows|]] + rows'[|rows| + 1..];
  }

  /**
   * An alert is listed as skipped exactly when its request was answered so (or refused for
   * payment), as pending exactly when its handler raised, and as executed otherwise, even
   * if the order failed or the trade did not validate. It is left unprocessed exactly when
   * it is pending or its trade did not validate.
   */
  lemma OutcomeTellsResponse(rows: seq<Execution>, rows': seq<Execution>, user: User, active: bool, request: Request, w: World, at: Time,
                             alert: string, processed: bool, skipReason: Option<string>, response: Response)
    requires forall x :: x in rows ==> x.alert != Some(alert)
    requires CarriedOut(rows, rows', user, alert, Judge(user, active, request, w), w, at, processed, skipReason, response)
    ensures AlertOutcome(skipReason, ChosenTrade(rows', alert)) ==
              if response.PaymentRequired? || response.WasSkipped? || response == WasTraded(Skipped) then WasSkippedOver
              else if response.Raised? then IsPending
              else WasExecuted
    ensures processed <==> response != WasTraded(ValidationFailed) && AlertOutcome(skipReason, ChosenTrade(rows', alert)) != IsPending
  {
    ReasonIsNotBlank(user, active, request, w);
    ProcessedUnlessInvalid(rows, rows', user, alert, Judge(user, active, request, w), w, at, processed, skipReason, response);
    match Judge(user, active, request, w)
    case Inactive =>
    case SkipFor(_) =>
    case TradeFutures(f, to) =>
      var row := FuturesExecuted(user, alert, f, to, w.net, at);
      if row.Some? {
        FirstAdded(rows, row.value, [], alert);
        assert rows' == rows + [row.value] + [];
      }
    case TradeOptions(v) =>
      if !Aborts(v, w.broker) {
        var entry, more := ExecutedAdds(rows, user, alert, v, w.broker, at);
        FirstAdded(rows, entry, more, alert);
      }
    case Breaks =>
  }

  const HOOK: Endpoint := Endpoint("https://h/x", "", true)

  /** The market is open, no device is online, and the user's forward URL answers with an error. */
  function Failing(user: User, id: OrderId): World {
    World(0.8, false, None, true, [Connection(user.id, Broker.NinjaTrader, true, HOOK)], true, 0, Threw, Threw,
          BrokerReplies(Threw, Threw, false, Threw), id, Network(false, NoDevice, false, Replied(500, true, "")))
  }

  function Futures(quantity: int): Intent {
    Intent(BuyToOpen, AssetClass.Futures, "ES", Call, 0.0, None, quantity, None, 1.0, "structured futures webhook", None, None)
  }

  lemma HookIsSendable()
    ensures Sendable(HOOK)
  {
    assert HOOK.url[|SCHEME|..] == "h/x";
    assert UpTo("h/x", {'/', '?', '#'}) == "h" && AfterColon("h") == "";
  }

  lemma FuturesAreTraded(user: User, id: OrderId, quantity: int)
    requires user.allowedTickers == "" && user.filterPrompt.None?
    ensures Judge(user, true, Text(Futures(quantity)), Failing(user, id)) ==
              TradeFutures(FuturesOf(Futures(quantity), id).(quantity := CapQuantity(quantity, user.maxContracts)), HOOK)
  {
    var w, intent := Failing(user, id), Futures(quantity);
    GatesPassOrSkip(intent, user, w.threshold, w.configured, w.decision);
    assert ResolveBrokerConnection(w.connections, user) == Some(w.connections[0]);
  }

  /** A futures order that was refused, and one parsed with no contracts at all: both are listed as executed. */
  lemma FailedOrderIsListedAsExecuted(user: User, id: OrderId, alert: string, quantity: int, at: Time) returns (rows: seq<Execution>)
    requires user.allowedTickers == "" && user.filterPrompt.None?
    ensures var w, request := Failing(user, id), Text(Futures(quantity));
            var response := WasTraded(if quantity < 1 then ValidationFailed else Failed);
            && CarriedOut([], rows, user, alert, Judge(user, true, request, w), w, at, quantity >= 1, None, response)
            && AlertOutcome(None, ChosenTrade(rows, alert)) == WasExecuted
  {
    var w, intent := Failing(user, id), Futures(quantity);
    HookIsSendable();
    FuturesAreTraded(user, id, quantity);
    var f := FuturesOf(intent, id).(quantity := CapQuantity(quantity, user.maxContracts));
    assert f.errors == [] <==> quantity >= 1;
    rows := [FuturesExecuted(user, alert, f, HOOK, w.net, at).value];
    assert [] + rows == rows;
    OutcomeTellsResponse([], rows, user, true, Text(intent), w, at, alert, quantity >= 1, None,
                         WasTraded(if quantity < 1 then ValidationFailed else Failed));
  }
}
