/**
 * From the broker's order status to the stored row: what a status reply says about a fill,
 * and the reconciling pass over resting closes.
 */
module OrderLifecycle {
  import opened Prelude
  import opened Trade
  import opened TradeLedger

  /** The fields of a status reply that are read. `status` is upper-cased; `legs` by activity. */
  datatype OrderPayload = OrderPayload(
    status: string, legs: seq<seq<Option<real>>>, price: Option<real>,
    avgFillPrice: Option<real>, averagePrice: Option<real>)

  /** A non-empty reply; `order` is its nested order when that is a non-empty object. */
  datatype StatusData = StatusData(order: Option<OrderPayload>, top: OrderPayload)

  function FirstPrice(legs: seq<Option<real>>): Option<real> {
    if legs == [] then None else if legs[0].Some? then legs[0] else FirstPrice(legs[1..])
  }

  function FirstLegPrice(activities: seq<seq<Option<real>>>): Option<real> {
    if activities == [] then None
    else
      var p := FirstPrice(activities[0]);
      if p.Some? then p else FirstLegPrice(activities[1..])
  }

  /** `float(fallback) if fallback else None` */
  function Fallback(fallback: Option<real>): Option<real> {
    OrElse(fallback, None)
  }

  function ExtractFillPrice(p: OrderPayload, fallback: Option<real>): Option<real> {
    var leg := FirstLegPrice(p.legs);
    if leg.Some? then leg
    else if p.price.Some? then p.price
    else
      var average := OrElse(p.avgFillPrice, p.averagePrice);
      if average.Some? then average else Fallback(fallback)
  }

  function StateOf(status: string): Status {
    if status == "FILLED" || status == "EXECUTED" then Filled
    else if status == "CANCELED" || status == "CANCELLED" || status == "REJECTED" || status == "EXPIRED" then Failed
    else Submitted
  }

  /** `hasStatus`: the adapter can be asked; `reply`: its answer, None when empty. */
  function ResolveFill(order: OrderId, hasStatus: bool, reply: Option<StatusData>, fallback: Option<real>)
    : (Status, Option<real>)
  {
    if order == "" then (Submitted, Fallback(fallback))
    else if !hasStatus then (Filled, Fallback(fallback))
    else if reply.None? then (Submitted, Fallback(fallback))
    else
      var payload := reply.value.order.GetOr(reply.value.top);
      (StateOf(payload.status), ExtractFillPrice(payload, fallback))
  }

  /** A reported fill price, if any, is one of the leg prices, the price, an average or the fallback. */
  lemma {:induction false} LegPriceIsReported(activities: seq<seq<Option<real>>>)
    ensures match FirstLegPrice(activities)
            case None => forall i, j :: 0 <= i < |activities| && 0 <= j < |activities[i]| ==> activities[i][j].None?
            case Some(p) =>
              exists i, j :: 0 <= i < |activities| && 0 <= j < |activities[i]| && activities[i][j] == Some(p)
                && (forall k :: 0 <= k < j ==> activities[i][k].None?)
                && (forall h, k :: 0 <= h < i && 0 <= k < |activities[h]| ==> activities[h][k].None?)
  {
    if activities != [] {
      var j := FirstPriceIs(activities[0]);
      if FirstPrice(activities[0]).None? {
        LegPriceIsReported(activities[1..]);
        if FirstLegPrice(activities).Some? {
          var rest := activities[1..];
          var p := FirstLegPrice(activities).value;
          var i, j' :| 0 <= i < |rest| && 0 <= j' < |rest[i]| && rest[i][j'] == Some(p)
            && (forall k :: 0 <= k < j' ==> rest[i][k].None?)
            && (forall h, k :: 0 <= h < i && 0 <= k < |rest[h]| ==> rest[h][k].None?);
          assert activities[i + 1] == rest[i];
          forall h, k | 0 <= h < i + 1 && 0 <= k < |activities[h]| ensures activities[h][k].None? {
            if h > 0 { assert activities[h] == rest[h - 1]; }
          }
        } else {
          forall i, k | 0 <= i < |activities| && 0 <= k < |activities[i]| ensures activities[i][k].None? {
            if i > 0 { assert activities[i] == activities[1..][i - 1]; }
          }
        }
      }
    }
  }

  lemma {:induction false} FirstPriceIs(legs: seq<Option<real>>) returns (j: nat)
    ensures FirstPrice(legs).None? ==> forall k :: 0 <= k < |legs| ==> legs[k].None?
    ensures FirstPrice(legs).Some? ==>
              j < |legs| && legs[j] == FirstPrice(legs) && forall k :: 0 <= k < j ==> legs[k].None?
  {
    j := 0;
    if legs != [] && legs[0].None? {
      var i := FirstPriceIs(legs[1..]);
      j := i + 1;
    }
  }

  const FILL_WORDS: set<string> := {"FILLED", "EXECUTED"}
  const END_WORDS: set<string> := {"CANCELED", "CANCELLED", "REJECTED", "EXPIRED"}

  predicate Reported(reply: Option<StatusData>, statuses: set<string>) {
    reply.Some? && reply.value.order.GetOr(reply.value.top).status in statuses
  }

  /** A fill is believed exactly on the broker's word, or from a broker that cannot be asked. */
  lemma FillNeedsConfirmation(order: OrderId, hasStatus: bool, reply: Option<StatusData>, fallback: Option<real>)
    ensures var status := ResolveFill(order, hasStatus, reply, fallback).0;
            && (status == Filled <==> order != "" && (!hasStatus || Reported(reply, FILL_WORDS)))
            && (status == Failed <==> order != "" && hasStatus && Reported(reply, END_WORDS))
            && (status == Filled || status == Failed || status == Submitted)
  {
  }

  function PayloadOf(reply: StatusData): OrderPayload {
    if reply.order.Some? then reply.order.value else reply.top
  }

  predicate NonZero(price: Option<real>) {
    price.Some? && price.value != 0.0
  }

  /** The price a reply tells: a leg's, or else the order's own, or else the first nonzero average (or a zero second one). */
  ghost predicate Tells(p: OrderPayload, price: real) {
    var leg := FirstLegPrice(p.legs);
    || leg == Some(price)
    || (leg == None && p.price == Some(price))
    || (leg == None && p.price == None && p.avgFillPrice == Some(price) && price != 0.0)
    || (leg == None && p.price == None && !NonZero(p.avgFillPrice) && p.averagePrice == Some(price))
  }

  /** What the reply tells is the answer; the fallback is, if it is not zero, only when the reply tells nothing. */
  lemma FillPriceIsTold(p: OrderPayload, fallback: Option<real>)
    ensures forall price :: Tells(p, price) ==> ExtractFillPrice(p, fallback) == Some(price)
    ensures (forall price :: !Tells(p, price)) ==>
              ExtractFillPrice(p, fallback) == if NonZero(fallback) then fallback else None
    ensures (forall price :: !Tells(p, price)) <==>
              FirstLegPrice(p.legs) == None && p.price == None && !NonZero(p.avgFillPrice) && p.averagePrice == None
  {
    var leg := FirstLegPrice(p.legs);
    if leg.Some? {
      assert Tells(p, leg.value);
    } else if p.price.Some? {
      assert Tells(p, p.price.value);
    } else if NonZero(p.avgFillPrice) {
      assert Tells(p, p.avgFillPrice.value);
    } else if p.averagePrice.Some? {
      assert Tells(p, p.averagePrice.value);
    }
  }

  /** Without a reply to read, the price is the fallback. */
  lemma UnaskedPriceIsFallback(order: OrderId, hasStatus: bool, reply: Option<StatusData>, fallback: Option<real>)
    ensures ResolveFill(order, hasStatus, reply, fallback).1 ==
              if order != "" && hasStatus && reply.Some? then ExtractFillPrice(PayloadOf(reply.value), fallback)
              else if NonZero(fallback) then fallback else None
  {
  }

  // ----- one row -----

  /** A resting close that can be asked about. */
  predicate Reconcilable(row: Execution) {
    row.status == Submitted && row.orderId != "" && IsClose(row)
  }

  /** The row after the broker's answer, its profit taken against `rows`. */
  function Settled(rows: seq<Execution>, row: Execution, reply: Option<StatusData>): Execution {
    var (status, price) := ResolveFill(row.orderId, true, reply, row.fillPrice);
    if status == Submitted then row
    else row.(status := status,
              fillPrice := if price.Some? then price else row.fillPrice,
              pnl := if status == Filled then ClosePnl(rows, row.user, row.contract, row.quantity, price) else row.pnl)
  }

  /**
   * A resting close on a reply that says filled, at a price it tells: that is the row's price,
   * and its profit is taken there. Without a price told, the resting one stands, if it is not zero.
   */
  lemma SettledAtTheToldPrice(rows: seq<Execution>, row: Execution, reply: StatusData, price: real)
    requires row.status == Submitted && row.orderId != "" && IsClose(row)
    requires PayloadOf(reply).status == "FILLED" || PayloadOf(reply).status == "EXECUTED"
    requires Tells(PayloadOf(reply), price) || ((forall p :: !Tells(PayloadOf(reply), p)) && row.fillPrice == Some(price) && price != 0.0)
    ensures Settled(rows, row, Some(reply)) ==
              row.(status := Filled, fillPrice := Some(price), pnl := ClosePnl(rows, row.user, row.contract, row.quantity, Some(price)))
  {
    FillPriceIsTold(PayloadOf(reply), row.fillPrice);
  }

  /** On a reply that says it is over the row has failed, with no profit; on any other it stays as it is. */
  lemma SettledWithoutFill(rows: seq<Execution>, row: Execution, reply: Option<StatusData>)
    requires row.status == Submitted && row.orderId != ""
    ensures var word := if reply.Some? then PayloadOf(reply.value).status else "";
            var row' := Settled(rows, row, reply);
            && (word in {"CANCELED", "CANCELLED", "REJECTED", "EXPIRED"} ==>
                  row' == row.(status := Failed, fillPrice := row'.fillPrice))
            && (word !in {"CANCELED", "CANCELLED", "REJECTED", "EXPIRED", "FILLED", "EXECUTED"} ==> row' == row)
  {
  }

  /** Every row after a pass over the rows at `picked`, each settled against the original rows. */
  function Reconciled(rows: seq<Execution>, picked: set<nat>, replies: seq<Option<StatusData>>): (rows': seq<Execution>)
    requires |replies| == |rows|
    ensures |rows'| == |rows|
  {
    seq(|rows|, (i: nat) requires i < |rows| =>
      if i in picked && Reconcilable(rows[i]) then Settled(rows, rows[i], replies[i]) else rows[i])
  }

  lemma ReconciledKeepsOpens(rows: seq<Execution>, picked: set<nat>, replies: seq<Option<StatusData>>,
                             user: UserId, contract: string)
    requires |replies| == |rows|
    ensures SameOpens(rows, Reconciled(rows, picked, replies), user, contract)
  {
  }

  /** Updates already made by a pass do not change any profit it has still to compute. */
  lemma PnlIgnoresUpdates(rows: seq<Execution>, picked: set<nat>, replies: seq<Option<StatusData>>,
                          user: UserId, contract: string, quantity: int, price: Option<real>)
    requires |replies| == |rows|
    ensures ClosePnl(Reconciled(rows, picked, replies), user, contract, quantity, price)
         == ClosePnl(rows, user, contract, quantity, price)
  {
    ReconciledKeepsOpens(rows, picked, replies, user, contract);
    SameOpensSameCost(rows, Reconciled(rows, picked, replies), user, contract);
  }

  /** Nor does the order the rows come in. */
  lemma PnlIgnoresRowOrder(rows: seq<Execution>, rows': seq<Execution>,
                           user: UserId, contract: string, quantity: int, price: Option<real>)
    requires multiset(rows) == multiset(rows')
    ensures ClosePnl(rows', user, contract, quantity, price) == ClosePnl(rows, user, contract, quantity, price)
  {
    CostIgnoresOrder(rows, rows', user, contract);
  }

  /** Confluence: one pass over A and then one over B settle what a single pass over both does. */
  lemma PassesCompose(rows: seq<Execution>, a: set<nat>, b: set<nat>, replies: seq<Option<StatusData>>)
    requires |replies| == |rows|
    ensures Reconciled(Reconciled(rows, a, replies), b, replies) == Reconciled(rows, a + b, replies)
  {
    var mid := Reconciled(rows, a, replies);
    forall i | 0 <= i < |rows|
      ensures Reconciled(mid, b, replies)[i] == Reconciled(rows, a + b, replies)[i]
    {
      if i in b && Reconcilable(mid[i]) {
        var row := mid[i];
        var (_, price) := ResolveFill(row.orderId, true, replies[i], row.fillPrice);
        PnlIgnoresUpdates(rows, a, replies, row.user, row.contract, row.quantity, price);
      }
    }
  }

  /**
   * The only moves: a submitted close with an order id, to filled or failed, on the broker's
   * word. Its identity stays, and a new price is one the broker reported.
   */
  lemma ReconcileMovesOnly(rows: seq<Execution>, picked: set<nat>, replies: seq<Option<StatusData>>, i: nat)
    requires |replies| == |rows| && i < |rows|
    ensures var before, after := rows[i], Reconciled(rows, picked, replies)[i];
            && (after != before ==>
                  && i in picked && before.status == Submitted && before.orderId != "" && IsClose(before)
                  && (after.status == Filled || after.status == Failed))
            && after.user == before.user && after.contract == before.contract && after.quantity == before.quantity
            && after.orderId == before.orderId && after.intent == before.intent
            && (after.status == Failed ==> after.pnl == before.pnl)
    ensures var before, after := rows[i], Reconciled(rows, picked, replies)[i];
            after != before ==>
              && Reported(replies[i], if after.status == Filled then FILL_WORDS else END_WORDS)
              && (after.fillPrice != before.fillPrice ==>
                    replies[i].Some? && after.fillPrice.Some? && Tells(PayloadOf(replies[i].value), after.fillPrice.value))
  {
    if i in picked && Reconcilable(rows[i]) {
      FillNeedsConfirmation(rows[i].orderId, true, replies[i], rows[i].fillPrice);
      if replies[i].Some? {
        FillPriceIsTold(PayloadOf(replies[i].value), rows[i].fillPrice);
      }
    }
  }

  // ----- counting -----

  function SubmittedCloses(rows: seq<Execution>): nat {
    if rows == [] then 0
    else SubmittedCloses(rows[..|rows| - 1]) +
         var row := rows[|rows| - 1];
         if row.status == Submitted && IsClose(row) then 1 else 0
  }

  lemma {:induction false} SettlingOneCloses(rows: seq<Execution>, i: nat, row: Execution)
    requires i < |rows| && rows[i].status == Submitted && IsClose(rows[i]) && row.status != Submitted
    ensures SubmittedCloses(rows[i := row]) == SubmittedCloses(rows) - 1
  {
    var n := |rows| - 1;
    if i == n {
      assert rows[i := row][..n] == rows[..n];
    } else {
      SettlingOneCloses(rows[..n], i, row);
      assert rows[i := row][..n] == rows[..n][i := row];
    }
  }

  // ----- the query and the pass -----

  function Elements(xs: seq<nat>): set<nat> {
    set x | x in xs
  }

  /** What `order_by(created_at).limit(limit)` may return, ties in any order: indices of rows. */
  ghost predicate IsWindow(rows: seq<Execution>, user: UserId, limit: nat, picked: seq<nat>) {
    && NoDuplicates(picked) && |picked| <= limit
    && (forall k :: 0 <= k < |picked| ==>
          picked[k] < |rows| && rows[picked[k]].user == user && rows[picked[k]].status == Submitted)
    && (forall i: nat :: i < |rows| && rows[i].user == user && rows[i].status == Submitted && i !in picked ==>
          |picked| == limit && forall k :: 0 <= k < |picked| ==> rows[picked[k]].created <= rows[i].created)
  }

  class Ledger {
    var rows: seq<Execution>

    constructor (rows: seq<Execution>)
      ensures this.rows == rows
    {
      this.rows := rows;
    }

    /** One turn of the pass: ask about row `i`, and settle it if the order is done. */
    method ReconcileRow(i: nat, reply: Option<StatusData>) returns (moved: bool)
      requires i < |rows| && rows[i].status == Submitted
      modifies this
      ensures rows == old(rows)[i := if Reconcilable(old(rows)[i]) then Settled(old(rows), old(rows)[i], reply)
                                     else old(rows)[i]]
      ensures SubmittedCloses(rows) == SubmittedCloses(old(rows)) - if moved then 1 else 0
    {
      var row := rows[i];
      moved := false;
      if row.orderId != "" && IsClose(row) {
        var (status, price) := ResolveFill(row.orderId, true, reply, row.fillPrice);
        if status != Submitted {
          var row' := row.(status := status, fillPrice := if price.Some? then price else row.fillPrice);
          if status == Filled {
            var pnl := ComputeClosePnl(rows, row.user, row.contract, row.quantity, price);
            row' := row'.(pnl := pnl);
          }
          SettlingOneCloses(rows, i, row');
          rows := rows[i := row'];
          moved := true;
        }
      }
    }

    /**
     * The pass, updating rows one by one and computing each profit on the rows as they are
     * by then. The outcome is the order-free one, and the count is the drop in open closes.
     */
    method Reconcile(user: UserId, limit: nat, picked: seq<nat>, replies: seq<Option<StatusData>>) returns (updated: nat)
      requires |replies| == |rows| && IsWindow(rows, user, limit, picked)
      modifies this
      ensures rows == Reconciled(old(rows), Elements(picked), replies)
      ensures SubmittedCloses(old(rows)) - SubmittedCloses(rows) == updated
    {
      ghost var before := rows;
      updated := 0;
      ghost var done: set<nat> := {};
      assert rows == Reconciled(before, done, replies);
      for k := 0 to |picked|
        invariant done == Elements(picked[..k])
        invariant rows == Reconciled(before, done, replies)
        invariant SubmittedCloses(before) - SubmittedCloses(rows) == updated
      {
        var i := picked[k];
        assert picked[..k + 1] == picked[..k] + [i] && i !in done;
        ReconciledNext(before, done, replies, i);
        var moved := ReconcileRow(i, replies[i]);
        updated := updated + if moved then 1 else 0;
        done := done + {i};
      }
      assert picked[..|picked|] == picked;
    }
  }

  /** Settling one more row against the rows as updated so far. */
  lemma ReconciledNext(rows: seq<Execution>, done: set<nat>, replies: seq<Option<StatusData>>, i: nat)
    requires |replies| == |rows| && i < |rows| && i !in done
    ensures var now := Reconciled(rows, done, replies);
            && now[i] == rows[i]
            && Reconciled(rows, done + {i}, replies) ==
                 now[i := if Reconcilable(rows[i]) then Settled(now, rows[i], replies[i]) else rows[i]]
  {
    var row := rows[i];
    var (_, price) := ResolveFill(row.orderId, true, replies[i], row.fillPrice);
    PnlIgnoresUpdates(rows, done, replies, row.user, row.contract, row.quantity, price);
  }

  /** With at most `limit` submitted rows of the user, no resting close is left out of the pass. */
  lemma SmallBacklogIsCovered(rows: seq<Execution>, user: UserId, limit: nat, picked: seq<nat>, backlog: set<nat>)
    requires IsWindow(rows, user, limit, picked)
    requires forall i: nat :: i in backlog <==> i < |rows| && rows[i].user == user && rows[i].status == Submitted
    requires |backlog| <= limit
    ensures backlog == Elements(picked)
  {
    DistinctSize(picked);
    assert Elements(picked) <= backlog;
    if i :| i in backlog && i !in Elements(picked) {
      assert |picked| == limit;
      StrictSubsetIsSmaller(Elements(picked), backlog);
      assert false;
    }
  }

  lemma {:induction false} DistinctSize(xs: seq<nat>)
    requires NoDuplicates(xs)
    ensures |Elements(xs)| == |xs|
  {
    if xs != [] {
      DistinctSize(xs[1..]);
      assert xs[0] !in Elements(xs[1..]);
      assert Elements(xs) == {xs[0]} + Elements(xs[1..]) by { assert xs == [xs[0]] + xs[1..]; }
    }
  }

  lemma StrictSubsetIsSmaller(a: set<nat>, b: set<nat>)
    requires a < b
    ensures |a| < |b|
  {
    var x :| x in b && x !in a;
    assert a + {x} <= b && |a + {x}| == |a| + 1;
    SubsetIsSmaller(a + {x}, b);
  }

  lemma {:induction false} SubsetIsSmaller(a: set<nat>, b: set<nat>)
    requires a <= b
    ensures |a| <= |b|
  {
    if x :| x in a {
      SubsetIsSmaller(a - {x}, b - {x});
    }
  }
}
