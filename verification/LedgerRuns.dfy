/**
 * Whole runs over the table of executions: option and futures trades interleaved with the
 * single-row turns of reconciling passes. Every event is one stretch of code that commits
 * without awaiting; what the broker answered beforehand is part of the event.
 */
module LedgerRuns {
  import opened Prelude
  import opened Trade
  import opened TradeLedger
  import opened OrderLifecycle
  import opened ExecuteTrade
  import opened NinjaTrader
  import opened IngestPipeline

  datatype Event =
    | Traded(user: User, alert: string, v: ValidatedTrade, b: BrokerReplies, at: Time)
    | TradedFuture(owner: User, forAlert: string, f: ValidatedFutures, to: Endpoint, net: Network, on: Time)
    | Asked(row: nat, reply: Option<StatusData>)

  function Step(rows: seq<Execution>, e: Event): seq<Execution> {
    match e
    case Traded(user, alert, v, b, at) => Executed(rows, user, alert, v, b, at)
    case TradedFuture(user, alert, f, to, net, at) =>
      var row := FuturesExecuted(user, alert, f, to, net, at);
      if row.Some? then rows + [row.value] else rows
    case Asked(i, reply) =>
      if i < |rows| && Reconcilable(rows[i]) then rows[i := Settled(rows, rows[i], reply)] else rows
  }

  /** Whatever alert the pipeline carries out, the rows make one such step or none. */
  lemma PipelineMakesSteps(rows: seq<Execution>, rows': seq<Execution>, user: User, alert: string, verdict: Verdict, w: World, at: Time,
                           processed: bool, skipReason: Option<string>, response: Response) returns (e: Option<Event>)
    requires CarriedOut(rows, rows', user, alert, verdict, w, at, processed, skipReason, response)
    ensures rows' == if e.Some? then Step(rows, e.value) else rows
    ensures e.Some? ==> !e.value.Asked?
    ensures e.None? <==> verdict.Inactive? || verdict.SkipFor? || verdict.Breaks?
  {
    match verdict
    case TradeOptions(v) => e := Some(Traded(user, alert, v, w.broker, at));
    case TradeFutures(f, to) => e := Some(TradedFuture(user, alert, f, to, w.net, at));
    case _ => e := None;
  }

  function After(rows: seq<Execution>, events: seq<Event>): seq<Execution> {
    if events == [] then rows else Step(After(rows, events[..|events| - 1]), events[|events| - 1])
  }

  // ----- rows only move forward -----

  /** The same row, or a resting close that has been filled or has failed since. */
  predicate Forward(a: Execution, b: Execution) {
    || a == b
    || (&& a.status == Submitted && (b.status == Filled || b.status == Failed)
        && IsClose(a) && a.orderId != "" && b == a.(status := b.status, fillPrice := b.fillPrice, pnl := b.pnl))
  }

  ghost predicate AllForward(a: seq<Execution>, b: seq<Execution>) {
    |a| <= |b| && forall i :: 0 <= i < |a| ==> Forward(a[i], b[i])
  }

  lemma StepMovesForward(rows: seq<Execution>, e: Event)
    ensures AllForward(rows, Step(rows, e))
  {
  }

  /**
   * Over any run a row keeps its owner, contract, quantity, order id and intent, and only a
   * submitted close ever changes; once filled or failed it never changes again.
   */
  lemma {:induction false} RunMovesForward(rows: seq<Execution>, events: seq<Event>)
    ensures AllForward(rows, After(rows, events))
  {
    if events != [] {
      var before := After(rows, events[..|events| - 1]);
      RunMovesForward(rows, events[..|events| - 1]);
      StepMovesForward(before, events[|events| - 1]);
      forall i | 0 <= i < |rows| ensures Forward(rows[i], After(rows, events)[i]) {
        assert Forward(rows[i], before[i]) && Forward(before[i], After(rows, events)[i]);
      }
    }
  }

  // ----- take-profit legs -----

  /** Written by an entry of the same alert, for the contract and the number it bought. */
  predicate Parent(entry: Execution, leg: Execution) {
    && !entry.isLeg && entry.intent.Some? && entry.intent.value.action == BuyToOpen
    && entry.user == leg.user && entry.alert == leg.alert
    && entry.contract == leg.contract && entry.quantity == leg.quantity
  }

  ghost predicate LegWellFormed(rows: seq<Execution>, i: nat)
    requires i < |rows|
  {
    && rows[i].orderId != "" && rows[i].intent.Some? && rows[i].intent.value.action == SellToClose
    && exists j :: 0 <= j < i && Parent(rows[j], rows[i])
  }

  ghost predicate Legs(rows: seq<Execution>) {
    && (forall i :: 0 <= i < |rows| && rows[i].isLeg ==> LegWellFormed(rows, i))
    && (forall i, j :: 0 <= i < j < |rows| && rows[i].isLeg && rows[j].isLeg && rows[i].user == rows[j].user
          ==> rows[i].orderId != rows[j].orderId)
  }

  lemma LegsAppended(rows: seq<Execution>, row: Execution)
    requires Legs(rows)
    requires row.isLeg ==> LegWellFormed(rows + [row], |rows|) && !HasOrder(rows, row.user, row.orderId)
    ensures Legs(rows + [row])
  {
    var rows' := rows + [row];
    forall i | 0 <= i < |rows'| && rows'[i].isLeg ensures LegWellFormed(rows', i) {
      if i < |rows| {
        var j :| 0 <= j < i && Parent(rows[j], rows[i]);
        assert Parent(rows'[j], rows'[i]);
      }
    }
  }

  lemma LegsUpdated(rows: seq<Execution>, rows': seq<Execution>)
    requires Legs(rows) && |rows| == |rows'| && AllForward(rows, rows')
    ensures Legs(rows')
  {
    forall i | 0 <= i < |rows'| && rows'[i].isLeg ensures LegWellFormed(rows', i) {
      assert Forward(rows[i], rows'[i]);
      var j :| 0 <= j < i && Parent(rows[j], rows[i]);
      assert Forward(rows[j], rows'[j]);
      assert Parent(rows'[j], rows'[i]);
    }
    forall i, j | 0 <= i < j < |rows'| && rows'[i].isLeg && rows'[j].isLeg && rows'[i].user == rows'[j].user
      ensures rows'[i].orderId != rows'[j].orderId
    {
      assert Forward(rows[i], rows'[i]) && Forward(rows[j], rows'[j]);
    }
  }

  lemma WithLegKeepsLegs(rows: seq<Execution>, v: ValidatedTrade, entry: Execution, reported: OrderId, cents: int,
                         accepted: bool, at: Time)
    requires Legs(rows + [entry]) && !entry.isLeg
    requires entry.intent.Some? && entry.intent.value.action == BuyToOpen
    requires entry.contract == v.contractSymbol && entry.quantity == v.quantity
    ensures Legs(WithLeg(rows + [entry], v, entry, reported, cents, accepted, at))
  {
    var rows' := rows + [entry];
    var id := LegOrderId(reported, entry.orderId);
    if id != "" && !HasOrder(rows', entry.user, id) {
      var leg := Leg(v, entry, id, cents, accepted, at);
      assert Parent((rows' + [leg])[|rows|], leg);
      LegsAppended(rows', leg);
    }
  }

  lemma ExecutedKeepsLegs(rows: seq<Execution>, user: User, alert: string, v: ValidatedTrade, b: BrokerReplies, at: Time)
    requires Legs(rows)
    ensures Legs(Executed(rows, user, alert, v, b, at))
  {
    LegsAppended(rows, EntryRow(user, alert, v, ValidationFailed, None, None, "", at));
    LegsAppended(rows, EntryRow(user, alert, v, Skipped, None, None, "", at));
    if !PlacingThrew(b) {
      var entry := PlacedRow(rows, user, alert, v, b, at);
      LegsAppended(rows, entry);
      if ExitOf(v).Some? {
        WithLegKeepsLegs(rows, v, entry, b.placed.value.legId, ExitOf(v).value, b.placed.value.legAccepted, at);
      }
    }
  }

  lemma StepKeepsLegs(rows: seq<Execution>, e: Event)
    requires Legs(rows)
    ensures Legs(Step(rows, e))
  {
    match e
    case Traded(user, alert, v, b, at) => ExecutedKeepsLegs(rows, user, alert, v, b, at);
    case TradedFuture(user, alert, f, to, net, at) =>
      var row := FuturesExecuted(user, alert, f, to, net, at);
      if row.Some? { LegsAppended(rows, row.value); }
    case Asked(_, _) =>
      StepMovesForward(rows, e);
      LegsUpdated(rows, Step(rows, e));
  }

  lemma {:induction false} RunKeepsLegs(events: seq<Event>)
    ensures Legs(After([], events))
  {
    if events != [] {
      RunKeepsLegs(events[..|events| - 1]);
      StepKeepsLegs(After([], events[..|events| - 1]), events[|events| - 1]);
    }
  }

  /** In every run: one leg per user and order id, after the entry it exits, a close whatever its status. */
  lemma LegLifecycle(events: seq<Event>, i: nat)
    requires i < |After([], events)| && After([], events)[i].isLeg
    ensures var rows := After([], events);
            var leg := rows[i];
            && (exists j :: 0 <= j < i && Parent(rows[j], leg))
            && (forall j :: 0 <= j < |rows| && rows[j].isLeg && rows[j].user == leg.user && rows[j].orderId == leg.orderId ==> j == i)
            && IsClose(leg)
            && (leg.status == Submitted ==> Reconcilable(leg))
            && (forall user, contract :: !IsOpenFill(leg, user, contract))
  {
    RunKeepsLegs(events);
    var rows := After([], events);
    assert LegWellFormed(rows, i);
  }

  // ----- open cost over a run -----

  /** A buy that the broker reported filled when it was placed, at a nonzero price. */
  function OpenedBy(e: Event, user: UserId, contract: string): Option<(int, real)> {
    if e.Traded? && e.v.errors == [] && e.user.id == user && e.v.contractSymbol == contract
       && !Aborts(e.v, e.b) && !Mentions(IntentJson(e.v.action, e.v.rationale))
    then
      var (status, price) := PlacedStatus(e.v, e.b);
      if status == Filled && price.Some? && price.value != 0.0 then Some((e.v.quantity, price.value)) else None
    else None
  }

  function BoughtQuantity(events: seq<Event>, user: UserId, contract: string): int {
    if events == [] then 0
    else BoughtQuantity(events[..|events| - 1], user, contract) +
         match OpenedBy(events[|events| - 1], user, contract)
         case Some((n, _)) => n
         case None => 0
  }

  function BoughtCost(events: seq<Event>, user: UserId, contract: string): real {
    if events == [] then 0.0
    else BoughtCost(events[..|events| - 1], user, contract) +
         match OpenedBy(events[|events| - 1], user, contract)
         case Some((n, price)) => Outlay(price, n)
         case None => 0.0
  }

  lemma AppendedCost(rows: seq<Execution>, row: Execution, user: UserId, contract: string)
    ensures OpenQuantity(rows + [row], user, contract) ==
              OpenQuantity(rows, user, contract) + if IsOpenFill(row, user, contract) then row.quantity else 0
    ensures OpenCost(rows + [row], user, contract) ==
              OpenCost(rows, user, contract) + if IsOpenFill(row, user, contract) then Outlay(row.fillPrice.value, row.quantity) else 0.0
  {
    assert (rows + [row])[..|rows|] == rows;
  }

  lemma WithLegKeepsCost(rows: seq<Execution>, v: ValidatedTrade, entry: Execution, reported: OrderId, cents: int,
                         accepted: bool, at: Time, user: UserId, contract: string)
    ensures var rows' := WithLeg(rows, v, entry, reported, cents, accepted, at);
            && OpenQuantity(rows', user, contract) == OpenQuantity(rows, user, contract)
            && OpenCost(rows', user, contract) == OpenCost(rows, user, contract)
  {
    var id := LegOrderId(reported, entry.orderId);
    AppendedCost(rows, Leg(v, entry, id, cents, accepted, at), user, contract);
  }

  /** The rows hold so much more of the contract, or as much as before. */
  ghost predicate CostMoves(rows: seq<Execution>, rows': seq<Execution>, user: UserId, contract: string, more: Option<(int, real)>) {
    && OpenQuantity(rows', user, contract) == OpenQuantity(rows, user, contract) + (if more.Some? then more.value.0 else 0)
    && OpenCost(rows', user, contract) == OpenCost(rows, user, contract)
                                          + if more.Some? then Outlay(more.value.1, more.value.0) else 0.0
  }

  lemma RejectedCost(rows: seq<Execution>, user: User, alert: string, v: ValidatedTrade, status: Status, at: Time,
                     owner: UserId, contract: string)
    requires status != Filled
    ensures CostMoves(rows, rows + [EntryRow(user, alert, v, status, None, None, "", at)], owner, contract, None)
  {
    AppendedCost(rows, EntryRow(user, alert, v, status, None, None, "", at), owner, contract);
  }

  lemma PlacedCost(rows: seq<Execution>, e: Event, user: UserId, contract: string)
    requires e.Traded? && e.v.errors == [] && !Aborts(e.v, e.b) && !Uncovered(e.v, e.b)
    ensures CostMoves(rows, rows + [PlacedRow(rows, e.user, e.alert, e.v, e.b, e.at)], user, contract, OpenedBy(e, user, contract))
  {
    AppendedCost(rows, PlacedRow(rows, e.user, e.alert, e.v, e.b, e.at), user, contract);
  }

  lemma ExecutedCost(rows: seq<Execution>, e: Event, user: UserId, contract: string)
    requires e.Traded?
    ensures CostMoves(rows, Step(rows, e), user, contract, OpenedBy(e, user, contract))
  {
    if e.v.errors != [] {
      RejectedCost(rows, e.user, e.alert, e.v, ValidationFailed, e.at, user, contract);
    } else if Aborts(e.v, e.b) {
    } else if Uncovered(e.v, e.b) {
      RejectedCost(rows, e.user, e.alert, e.v, Skipped, e.at, user, contract);
    } else {
      PlacedCost(rows, e, user, contract);
      var entry := PlacedRow(rows, e.user, e.alert, e.v, e.b, e.at);
      if ExitOf(e.v).Some? {
        WithLegKeepsCost(rows + [entry], e.v, entry, e.b.placed.value.legId, ExitOf(e.v).value, e.b.placed.value.legAccepted, e.at,
                         user, contract);
      }
    }
  }

  lemma StepCost(rows: seq<Execution>, e: Event, user: UserId, contract: string)
    requires !e.Traded?
    ensures OpenQuantity(Step(rows, e), user, contract) == OpenQuantity(rows, user, contract)
    ensures OpenCost(Step(rows, e), user, contract) == OpenCost(rows, user, contract)
  {
    if e.TradedFuture? {
      var row := FuturesExecuted(e.owner, e.forAlert, e.f, e.to, e.net, e.on);
      if row.Some? { AppendedCost(rows, row.value, user, contract); }
    } else {
      SameOpensSameCost(rows, Step(rows, e), user, contract);
    }
  }

  /**
   * What a contract's average is made of, for every run: exactly the buys that were already
   * filled when placed. Legs, closes, futures and reconciling never enter it, and a buy that
   * was left resting does not either, since reconciling only settles closes.
   */
  lemma {:induction false} OpenCostIsBuysFilledAtOnce(events: seq<Event>, user: UserId, contract: string)
    ensures OpenQuantity(After([], events), user, contract) == BoughtQuantity(events, user, contract)
    ensures OpenCost(After([], events), user, contract) == BoughtCost(events, user, contract)
  {
    if events != [] {
      var before, e := events[..|events| - 1], events[|events| - 1];
      OpenCostIsBuysFilledAtOnce(before, user, contract);
      if e.Traded? {
        ExecutedCost(After([], before), e, user, contract);
      } else {
        StepCost(After([], before), e, user, contract);
      }
    }
  }

  /** A status reply with nothing but its status. */
  function Reply(status: string, price: Option<real>): Option<StatusData> {
    Some(StatusData(None, OrderPayload(status, [], price, None, None)))
  }

  /**
   * A limit buy that is accepted and fills a minute later, as the broker says when asked: it
   * stays submitted, and the contract counts as not held.
   */
  lemma RestingBuyStaysOut(user: User, alert: string, v: ValidatedTrade, order: OrderId, at: Time)
    requires v.errors == [] && v.action.BuyToOpen? && v.takeProfitPct.None? && !Contains(v.rationale, CLOSE_MARK)
    requires order != ""
    ensures var accepted := BrokerReplies(Returned([]), Returned(PlaceResult(true, order, "", true)), true, Returned(Reply("OPEN", None)));
            var filled := Reply("FILLED", v.limitPrice);
            var rows := After([], [Traded(user, alert, v, accepted, at), Asked(0, filled)]);
            && |rows| == 1 && rows[0].orderId == order && rows[0].status == Submitted
            && ResolveFill(order, true, filled, None).0 == Filled
            && OpenQuantity(rows, user.id, v.contractSymbol) == 0
  {
    var accepted := BrokerReplies(Returned([]), Returned(PlaceResult(true, order, "", true)), true, Returned(Reply("OPEN", None)));
    var buy, ask := Traded(user, alert, v, accepted, at), Asked(0, Reply("FILLED", v.limitPrice));
    assert [buy, ask][..1] == [buy] && [buy][..0] == [];
    var row := PlacedRow([], user, alert, v, accepted, at);
    assert After([], [buy]) == [] + [row];
    FillNeedsConfirmation(order, true, Reply("FILLED", v.limitPrice), None);
    assert row.status == Submitted && !IsClose(row);
    assert After([], [buy, ask]) == [row];
    CostOfOne(row, user.id, v.contractSymbol);
  }
}
