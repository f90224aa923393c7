/**
 * The registry in its own form: connections and ack futures are objects, updated in place.
 * Each method is one stretch of code between awaits (the sweep is shown undisturbed) and is
 * specified by the same functions on tables and maps that the step machine uses.
 */
module BridgeRegistry {
  import opened Prelude
  import opened DeviceTable
  import P = BridgeProtocol

  /** An `asyncio.Future`: completing it when it is done would raise. */
  class AckFuture {
    var outcome: P.Outcome

    constructor ()
      ensures outcome == P.Pending
    {
      outcome := P.Pending;
    }

    method Complete(o: P.Outcome)
      requires outcome.Pending? && !o.Pending?
      modifies this
      ensures outcome == o
    {
      outcome := o;
    }
  }

  function Settle(before: P.Outcome, o: P.Outcome): P.Outcome {
    if before.Pending? then o else before
  }

  class LiveDeviceConnection {
    const user: UserId
    const device: DeviceId
    var lastSeen: Time
    var pendingAcks: map<OrderId, AckFuture>

    constructor (user: UserId, device: DeviceId, now: Time)
      ensures this.user == user && this.device == device
      ensures lastSeen == now && pendingAcks == map[]
    {
      this.user, this.device := user, device;
      lastSeen := now;
      pendingAcks := map[];
    }

    /** No push is left waiting on this connection. */
    ghost predicate Told()
      reads this, pendingAcks.Values
    {
      forall f :: f in pendingAcks.Values ==> !f.outcome.Pending?
    }

    /** Completes every future still waiting on this connection. */
    method FailAll(o: P.Outcome)
      requires !o.Pending?
      modifies pendingAcks.Values
      ensures forall f :: f in pendingAcks.Values ==> f.outcome == Settle(old(f.outcome), o)
    {
      var todo := pendingAcks.Values;
      while todo != {}
        invariant todo <= pendingAcks.Values
        invariant forall f :: f in todo ==> f.outcome == old(f.outcome)
        invariant forall f :: f in pendingAcks.Values - todo ==> f.outcome == Settle(old(f.outcome), o)
        decreases todo
      {
        var f :| f in todo;
        if f.outcome.Pending? {
          f.Complete(o);
        }
        todo := todo - {f};
      }
    }
  }

  /** The device seen last; of equals, the first. */
  method LatestOf(devices: Devices<LiveDeviceConnection>, ghost seen: map<DeviceId, Time>) returns (best: DeviceId)
    requires WellOrdered(devices) && devices.order != []
    requires forall d :: d in devices.at ==> At(seen, d) == devices.at[d].lastSeen
    ensures best in devices.at && best == FirstLatest(devices.order, seen)
  {
    var order := devices.order;
    var k, i := 0, 1;
    assert forall j :: 0 <= j < |order| ==> order[j] in devices.at;
    while i < |order|
      invariant 0 <= k < i <= |order|
      invariant forall j :: 0 <= j < k ==> At(seen, order[j]) < At(seen, order[k])
      invariant forall j :: k < j < i ==> At(seen, order[j]) <= At(seen, order[k])
    {
      if devices.at[order[i]].lastSeen > devices.at[order[k]].lastSeen {
        k := i;
      }
      i := i + 1;
    }
    FirstLatestIs(order, seen, k);
    best := order[k];
  }

  /** Of these connections, `stale` holds exactly those seen too long ago. */
  ghost predicate StaleExactly(ds: Devices<LiveDeviceConnection>, now: Time, stale: set<LiveDeviceConnection>)
    reads ds.at.Values`lastSeen
  {
    forall d :: d in ds.at ==> (ds.at[d] in stale <==> now - ds.at[d].lastSeen > P.STALE_CONNECTION_SEC)
  }

  /** Everything the connections in `some` among these are waiting on. */
  ghost function FuturesOf(ds: Devices<LiveDeviceConnection>, some: set<LiveDeviceConnection>): set<AckFuture>
    reads ds.at.Values`pendingAcks
  {
    set d, f | d in ds.at && ds.at[d] in some && f in ds.at[d].pendingAcks.Values :: f
  }

  /** `gone` holds exactly the stale devices among the first `i`. */
  ghost predicate GoneUpTo(ds: Devices<LiveDeviceConnection>, stale: set<LiveDeviceConnection>,
                           gone: set<DeviceId>, i: nat) {
    && gone <= DevicesOn(ds, stale)
    && forall j :: 0 <= j < |ds.order| ==> (ds.order[j] in gone <==> j < i && ds.order[j] in DevicesOn(ds, stale))
  }

  lemma GoneNext(ds: Devices<LiveDeviceConnection>, stale: set<LiveDeviceConnection>, gone: set<DeviceId>, i: nat)
    requires WellOrdered(ds) && i < |ds.order| && GoneUpTo(ds, stale, gone, i)
    ensures ds.order[i] in ds.at && ds.order[i] !in gone
    ensures GoneUpTo(ds, stale, if ds.at[ds.order[i]] in stale then gone + {ds.order[i]} else gone, i + 1)
  {
    assert ds.order[i] in ds.order;
  }

  lemma GoneAll(ds: Devices<LiveDeviceConnection>, stale: set<LiveDeviceConnection>, gone: set<DeviceId>)
    requires WellOrdered(ds) && GoneUpTo(ds, stale, gone, |ds.order|)
    ensures gone == DevicesOn(ds, stale)
  {
    forall d | d in DevicesOn(ds, stale) ensures d in gone {
      assert d in ds.order;
    }
  }

  lemma DropOneMore(t: Table<LiveDeviceConnection>, u: UserId, ds: Devices<LiveDeviceConnection>,
                    gone: set<DeviceId>, d: DeviceId)
    ensures t[u := Drop(ds, gone)][u := Drop(Drop(ds, gone), {d})] == t[u := Drop(ds, gone + {d})]
  {
    DropTwice(ds, gone, {d});
  }

  datatype PushStart = Skipped | NoDevice | Started(conn: LiveDeviceConnection, future: AckFuture)

  class DeviceBridgeRegistry {
    var connections: Table<LiveDeviceConnection>
    var delivered: map<OrderId, Time>

    /** Well-ordered, and each connection under its own keys: all that holds while a sweep awaits a socket's close. */
    ghost predicate Keyed()
      reads this`connections
    {
      AllWellOrdered(connections) && OwnKeys(connections)
    }

    /** And no user without devices, as whenever the lock is free. */
    ghost predicate Valid()
      reads this`connections
    {
      Keyed() && NoEmptyUser(connections)
    }

    ghost function Connected(): set<LiveDeviceConnection>
      reads this`connections
    {
      set u, d | u in connections && d in connections[u].at :: connections[u].at[d]
    }

    constructor ()
      ensures Valid() && connections == map[] && delivered == map[]
    {
      connections := map[];
      delivered := map[];
    }

    method Register(u: UserId, d: DeviceId, now: Time) returns (conn: LiveDeviceConnection)
      requires Valid()
      modifies this`connections
      ensures Valid() && fresh(conn)
      ensures conn.user == u && conn.device == d && conn.lastSeen == now && conn.pendingAcks == map[]
      ensures connections == Registered(old(connections), u, d, conn)
      ensures u in connections && d in connections[u].at && connections[u].at[d] == conn
      ensures forall u', d' :: u' != u || d' != d ==> SameAt(old(connections), connections, u', d')
    {
      conn := new LiveDeviceConnection(u, d, now);
      if u !in connections {
        connections := connections[u := NoDevices()];
      }
      connections := connections[u := Put(connections[u], d, conn)];
      assert connections == Registered(old(connections), u, d, conn);
      forall u', d' | u' != u || d' != d ensures SameAt(old(connections), connections, u', d') {
        RegisteringAddsOne(old(connections), u, d, conn, u', d');
      }
      PutWellOrdered(DevicesOf(old(connections), u), d, conn);
      forall u', d' | IsRegistered(connections, u', d')
        ensures connections[u'].at[d'].user == u' && connections[u'].at[d'].device == d'
      {
        assert (u' == u && d' == d) || IsRegistered(old(connections), u', d');
      }
    }

    ghost function FuturesAt(u: UserId, d: DeviceId): set<AckFuture>
      reads this, if IsRegistered(connections, u, d) then {connections[u].at[d]} else {}
    {
      if IsRegistered(connections, u, d) then connections[u].at[d].pendingAcks.Values else {}
    }

    method Unregister(u: UserId, d: DeviceId)
      requires Valid()
      modifies this`connections, FuturesAt(u, d)
      ensures Valid()
      ensures connections == Unregistered(old(connections), u, d)
      ensures !(u in connections && d in connections[u].at)
      ensures forall u', d' :: u' != u || d' != d ==> SameAt(old(connections), connections, u', d')
      ensures forall f :: f in old(FuturesAt(u, d)) ==> f.outcome == Settle(old(f.outcome), P.Disconnected)
    {
      if IsRegistered(connections, u, d) {
        var conn := connections[u].at[d];
        conn.FailAll(P.Disconnected);
      }
      if u in connections {
        DropWellOrdered(connections[u], {d});
        connections := connections[u := Drop(connections[u], {d})];
        if connections[u].order == [] {
          connections := connections - {u};
        }
      }
      assert connections == Unregistered(old(connections), u, d);
      UnregisteringDropsOne(old(connections), u, d, u, d);
      forall u', d' | u' != u || d' != d ensures SameAt(old(connections), connections, u', d') {
        UnregisteringDropsOne(old(connections), u, d, u', d');
      }
      forall u', d' | IsRegistered(connections, u', d')
        ensures connections[u'].at[d'].user == u' && connections[u'].at[d'].device == d'
      {
        assert IsRegistered(old(connections), u', d');
      }
    }

    method Touch(u: UserId, d: DeviceId, now: Time)
      modifies (if IsRegistered(connections, u, d) then {connections[u].at[d]} else {})`lastSeen
      ensures IsRegistered(connections, u, d) ==> connections[u].at[d].lastSeen == now
    {
      if IsRegistered(connections, u, d) {
        connections[u].at[d].lastSeen := now;
      }
    }

    /** Drops the expired marks one by one. */
    method PruneDelivered(now: Time)
      modifies this`delivered
      ensures delivered == P.Pruned(old(delivered), now)
    {
      var expired := set o | o in delivered && now - delivered[o] > P.DELIVERED_ORDER_TTL_SEC;
      var todo := expired;
      while todo != {}
        invariant todo <= expired
        invariant delivered == old(delivered) - (expired - todo)
        decreases todo
      {
        var o :| o in todo;
        delivered := delivered - {o};
        todo := todo - {o};
      }
    }

    method WasOrderDelivered(order: OrderId, now: Time) returns (b: bool)
      modifies this`delivered
      ensures delivered == P.Pruned(old(delivered), now)
      ensures b <==> order in delivered
    {
      PruneDelivered(now);
      b := order in delivered;
    }

    ghost function SeenBy(u: UserId): map<DeviceId, Time>
      reads this`connections, Connected()`lastSeen
    {
      map d | d in DevicesOf(connections, u).at :: DevicesOf(connections, u).at[d].lastSeen
    }

    /** The connection of the user's last-seen device, the first of equals; null without devices. */
    ghost function Primary(u: UserId): LiveDeviceConnection?
      requires Keyed()
      reads this`connections, Connected()`lastSeen
    {
      if HasOnline(connections, u) then connections[u].at[FirstLatest(connections[u].order, SeenBy(u))] else null
    }

    /** `max(devices.values(), key=last_seen)` */
    method PrimaryConnection(u: UserId) returns (conn: LiveDeviceConnection?)
      requires Keyed()
      ensures conn == Primary(u)
      ensures conn == null <==> !HasOnline(connections, u)
      ensures conn != null ==> conn in Connected() && conn.user == u
    {
      if !HasOnline(connections, u) {
        return null;
      }
      ghost var seen := SeenBy(u);
      var best := LatestOf(connections[u], seen);
      conn := connections[u].at[best];
      assert IsRegistered(connections, u, best);
      assert seen == SeenBy(u);
    }

    /** `create_future`, and its entry unless the order has no id. */
    method Launch(conn: LiveDeviceConnection, order: OrderId) returns (future: AckFuture)
      requires conn in Connected()
      modifies conn`pendingAcks
      ensures fresh(future) && future.outcome == P.Pending
      ensures EntryAdded(conn, order, future)
    {
      future := new AckFuture();
      if order != "" {
        conn.pendingAcks := conn.pendingAcks[order := future];
      }
    }

    /** The connection waits on one more future, under the order's id if it has one; no other changes. */
    twostate predicate EntryAdded(conn: LiveDeviceConnection, order: OrderId, new future: AckFuture)
      reads this`connections, Connected()`pendingAcks, conn`pendingAcks
    {
      && conn.pendingAcks == (if order == "" then old(conn.pendingAcks) else old(conn.pendingAcks)[order := future])
      && forall c :: c in Connected() && c != conn ==> old(allocated(c)) && c.pendingAcks == old(c.pendingAcks)
    }

    /** Nobody waits on anything else than before. */
    twostate predicate NoEntryAdded()
      reads this`connections, Connected()`pendingAcks
    {
      forall c :: c in Connected() ==> old(allocated(c)) && c.pendingAcks == old(c.pendingAcks)
    }

    /** `push_order` up to its first await. */
    method PushBegin(u: UserId, order: OrderId, now: Time) returns (r: PushStart)
      requires Keyed()
      modifies this`delivered, Connected()`pendingAcks
      ensures delivered == if order == "" then old(delivered) else P.Pruned(old(delivered), now)
      ensures r.Skipped? <==> order != "" && order in delivered
      ensures !r.Skipped? ==> (r.NoDevice? <==> !HasOnline(connections, u))
      ensures r.Started? ==>
                && fresh(r.future) && r.future.outcome == P.Pending
                && r.conn == Primary(u) && EntryAdded(r.conn, order, r.future)
      ensures !r.Started? ==> NoEntryAdded()
    {
      if order != "" {
        var done := WasOrderDelivered(order, now);
        if done {
          return Skipped;
        }
      }
      r := StartPush(u, order);
    }

    /** The rest of it, for an order that was not delivered lately. */
    method StartPush(u: UserId, order: OrderId) returns (r: PushStart)
      requires Keyed()
      modifies Connected()`pendingAcks
      ensures !r.Skipped? && (r.NoDevice? <==> !HasOnline(connections, u))
      ensures r.Started? ==>
                && fresh(r.future) && r.future.outcome == P.Pending
                && r.conn == Primary(u) && EntryAdded(r.conn, order, r.future)
      ensures !r.Started? ==> NoEntryAdded()
    {
      var conn := PrimaryConnection(u);
      if conn == null {
        return NoDevice;
      }
      var future := Launch(conn, order);
      r := Started(conn, future);
    }

    /** `handle_incoming` for an ack, once `touch` has the lock; `conn` was looked up before. */
    method AckResumes(u: UserId, d: DeviceId, conn: LiveDeviceConnection, ack: P.Ack, now: Time)
      modifies (if IsRegistered(connections, u, d) then {connections[u].at[d]} else {})`lastSeen
      modifies conn`pendingAcks, if ack.id in conn.pendingAcks then {conn.pendingAcks[ack.id]} else {}
      ensures IsRegistered(connections, u, d) ==> connections[u].at[d].lastSeen == now
      ensures conn.pendingAcks == old(conn.pendingAcks) - {ack.id}
      ensures ack.id in old(conn.pendingAcks) ==>
                var f := old(conn.pendingAcks)[ack.id];
                f.outcome == Settle(old(f.outcome), P.Acked(ack))
    {
      Touch(u, d, now);
      if ack.id in conn.pendingAcks {
        var future := conn.pendingAcks[ack.id];
        conn.pendingAcks := conn.pendingAcks - {ack.id};
        if future.outcome.Pending? {
          future.Complete(P.Acked(ack));
        }
      }
    }

    /** The rest of `push_order`, once its future is done. */
    method PushResumes(conn: LiveDeviceConnection, order: OrderId, future: AckFuture, now: Time)
      returns (r: P.PushResult)
      requires !future.outcome.Pending?
      modifies this`delivered, conn`pendingAcks
      ensures future.outcome.Acked? ==>
                var ack := future.outcome.ack;
                var id := if ack.id != "" then ack.id else order;
                && r.Acknowledged? && r.order == id && conn.pendingAcks == old(conn.pendingAcks)
                && (r.ok <==> ack.ok == Some(true) || (ack.ok == None && ack.success != Some(false)))
                && delivered == if r.ok && id != "" then old(delivered)[id := now] else old(delivered)
      ensures !future.outcome.Acked? ==>
                r == P.NoAck && conn.pendingAcks == old(conn.pendingAcks) - {order} && delivered == old(delivered)
    {
      if future.outcome.Acked? {
        var ack := future.outcome.ack;
        var id := if ack.id != "" then ack.id else order;
        if P.AckOk(ack) && id != "" {
          delivered := delivered[id := now];
        }
        r := P.Acknowledged(id, P.AckOk(ack));
      } else {
        conn.pendingAcks := conn.pendingAcks - {order};
        r := P.NoAck;
      }
    }

    // ----- the stale sweep -----

    /** The connections older than the limit at the captured time. */
    ghost function Stale(now: Time): set<LiveDeviceConnection>
      reads this`connections, Connected()`lastSeen
    {
      set c | c in Connected() && now - c.lastSeen > P.STALE_CONNECTION_SEC
    }

    /** What the connections in `some` are waiting on. */
    ghost function FuturesAwaited(some: set<LiveDeviceConnection>): set<AckFuture>
      reads this`connections, Connected()`pendingAcks
    {
      set u, f | u in connections && f in FuturesOf(connections[u], some) :: f
    }

    /** Removes the connection and tells its waiting pushes, if it was seen too long ago. */
    method ExamineDevice(u: UserId, d: DeviceId, now: Time) returns (isStale: bool)
      requires IsRegistered(connections, u, d)
      modifies this`connections
      modifies if now - connections[u].at[d].lastSeen > P.STALE_CONNECTION_SEC then FuturesAt(u, d) else {}
      ensures isStale == (now - old(connections[u].at[d].lastSeen) > P.STALE_CONNECTION_SEC)
      ensures connections == if isStale then old(connections)[u := Drop(old(connections)[u], {d})] else old(connections)
      ensures isStale ==> old(connections[u].at[d]).Told()
      ensures forall f :: f in old(FuturesAt(u, d)) ==>
                f.outcome == if isStale then Settle(old(f.outcome), P.StaleClosed) else old(f.outcome)
      ensures forall c: LiveDeviceConnection :: old(allocated(c)) && old(c.Told()) ==> c.Told()
    {
      var conn := connections[u].at[d];
      isStale := now - conn.lastSeen > P.STALE_CONNECTION_SEC;
      if isStale {
        connections := connections[u := Drop(connections[u], {d})];
        conn.FailAll(P.StaleClosed);
      }
    }

    /** One turn of the sweep's inner loop; `gone` are the devices it has dropped so far. */
    method SweepDevice(u: UserId, devices: Devices<LiveDeviceConnection>, i: nat, now: Time,
                       ghost start: Table<LiveDeviceConnection>, ghost stale: set<LiveDeviceConnection>, ghost gone: set<DeviceId>)
      returns (isStale: bool)
      requires WellOrdered(devices) && i < |devices.order| && StaleExactly(devices, now, stale)
      requires GoneUpTo(devices, stale, gone, i) && connections == start[u := Drop(devices, gone)]
      modifies this`connections, FuturesOf(devices, stale)
      ensures var d := devices.order[i];
              var gone' := if isStale then gone + {d} else gone;
              && d !in gone && d in devices.at && (isStale ==> devices.at[d].Told())
              && GoneUpTo(devices, stale, gone', i + 1) && connections == start[u := Drop(devices, gone')]
      ensures forall c: LiveDeviceConnection :: old(allocated(c)) && old(c.Told()) ==> c.Told()
    {
      var d := devices.order[i];
      GoneNext(devices, stale, gone, i);
      DropOneMore(start, u, devices, gone, d);
      isStale := ExamineDevice(u, d, now);
    }

    /**
     * The sweep's inner loop, over the devices one user had when it began. By its frame it
     * leaves alone every future that no stale device of the user waits on.
     */
    method SweepDevices(u: UserId, now: Time, ghost stale: set<LiveDeviceConnection>) returns (removed: nat)
      requires u in connections && WellOrdered(connections[u])
      requires StaleExactly(connections[u], now, stale)
      modifies this`connections, FuturesOf(connections[u], stale)
      ensures connections == old(connections)[u := Kept(old(connections)[u], stale)]
      ensures removed == |DevicesOn(old(connections)[u], stale)|
      ensures forall d :: d in DevicesOn(old(connections)[u], stale) ==> old(connections)[u].at[d].Told()
      ensures forall c: LiveDeviceConnection :: old(allocated(c)) && old(c.Told()) ==> c.Told()
    {
      var devices := connections[u];
      ghost var gone: set<DeviceId> := {};
      removed := 0;
      var i := 0;
      DropNothing(devices);
      while i < |devices.order|
        invariant 0 <= i <= |devices.order|
        invariant GoneUpTo(devices, stale, gone, i) && removed == |gone|
        invariant connections == old(connections)[u := Drop(devices, gone)]
        invariant forall d :: d in gone ==> devices.at[d].Told()
        invariant forall c: LiveDeviceConnection :: old(allocated(c)) && old(c.Told()) ==> c.Told()
      {
        var isStale := SweepDevice(u, devices, i, now, old(connections), stale, gone);
        if isStale {
          removed, gone := removed + 1, gone + {devices.order[i]};
        }
        i := i + 1;
      }
      GoneAll(devices, stale, gone);
    }

    /**
     * One turn of the sweep's outer loop: a user left with no device goes too. `start` is
     * the table the sweep began with, of which the users in `todo` are still untouched.
     */
    method SweepUser(u: UserId, now: Time, ghost start: Table<LiveDeviceConnection>,
                     ghost stale: set<LiveDeviceConnection>, ghost all: set<AckFuture>,
                     ghost todo: set<UserId>) returns (removed: nat)
      requires AllWellOrdered(start) && NoEmptyUser(start) && OwnKeys(start)
      requires SweptExcept(start, connections, stale, todo) && u in todo && u in start
      requires StaleExactly(start[u], now, stale) && FuturesOf(start[u], stale) <= all
      modifies this`connections, all
      ensures SweptExcept(start, connections, stale, todo - {u})
      ensures removed == |StaleIn(start[u], stale)|
      ensures forall c :: c in StaleIn(start[u], stale) ==> c.Told()
      ensures forall c: LiveDeviceConnection :: old(allocated(c)) && old(c.Told()) ==> c.Told()
    {
      SweptExceptIsValid(start, connections, stale, todo);
      SweptExceptNext(start, connections, stale, todo, u);
      StaleInSize(start, stale, u);
      removed := SweepDevices(u, now, stale);
      if connections[u].order == [] {
        connections := connections - {u};
      }
    }

    /** What the sweep's outer loop keeps: users in `todo` are untouched, the others swept. */
    ghost predicate SweptSoFar(start: Table<LiveDeviceConnection>, stale: set<LiveDeviceConnection>,
                               todo: set<UserId>, removed: nat)
      reads this`connections, StaleOf(start, stale, start.Keys - todo)
      reads set c, f | c in StaleOf(start, stale, start.Keys - todo) && f in c.pendingAcks.Values :: f
    {
      && SweptExcept(start, connections, stale, todo)
      && removed == |StaleOf(start, stale, start.Keys - todo)|
      && forall c :: c in StaleOf(start, stale, start.Keys - todo) ==> c.Told()
    }

    method SweepTurn(u: UserId, now: Time, ghost start: Table<LiveDeviceConnection>,
                     ghost stale: set<LiveDeviceConnection>, ghost all: set<AckFuture>,
                     ghost todo: set<UserId>, removed: nat) returns (removed': nat)
      requires AllWellOrdered(start) && NoEmptyUser(start) && OwnKeys(start)
      requires SweptSoFar(start, stale, todo, removed) && u in todo && u in start
      requires StaleExactly(start[u], now, stale) && FuturesOf(start[u], stale) <= all
      modifies this`connections, all
      ensures SweptSoFar(start, stale, todo - {u}, removed')
    {
      StaleOfTurn(start, stale, todo, u);
      var n := SweepUser(u, now, start, stale, all, todo);
      removed' := removed + n;
    }

    /** The sweep's outer loop. `stale` holds the stale connections, `all` what they wait on. */
    method SweepUsers(now: Time, ghost stale: set<LiveDeviceConnection>, ghost all: set<AckFuture>)
      returns (removed: nat)
      requires Valid()
      requires forall u :: u in connections ==>
                 StaleExactly(connections[u], now, stale) && FuturesOf(connections[u], stale) <= all
      modifies this`connections, all
      ensures SweptSoFar(old(connections), stale, {}, removed)
    {
      var todo := connections.Keys;
      removed := 0;
      while todo != {}
        invariant todo <= old(connections).Keys
        invariant SweptSoFar(old(connections), stale, todo, removed)
        decreases todo
      {
        var u :| u in todo;
        assert old(StaleExactly(connections[u], now, stale) && FuturesOf(connections[u], stale) <= all);
        removed := SweepTurn(u, now, old(connections), stale, all, todo, removed);
        todo := todo - {u};
      }
    }

    /**
     * The whole sweep, undisturbed: it removes exactly the connections that are stale, tells
     * every push waiting on one of them and no other, and returns how many they were.
     */
    method CleanupStale(now: Time) returns (removed: nat)
      requires Valid()
      modifies this`connections, FuturesAwaited(Stale(now))
      ensures Valid()
      ensures connections == Swept(old(connections), old(Stale(now)))
      ensures removed == |old(Stale(now))|
      ensures forall c :: c in old(Stale(now)) ==> c.Told()
      ensures forall c :: c in old(Connected()) ==>
                forall f :: f in c.pendingAcks.Values - old(FuturesAwaited(Stale(now))) ==> f.outcome == old(f.outcome)
    {
      ghost var stale := Stale(now);
      forall u | u in connections
        ensures StaleExactly(connections[u], now, stale) && FuturesOf(connections[u], stale) <= FuturesAwaited(stale)
      {
        assert forall d :: d in connections[u].at ==> connections[u].at[d] in Connected();
      }
      StaleOfAll(connections, stale);
      removed := SweepUsers(now, stale, FuturesAwaited(stale));
      SweptExceptNone(old(connections), connections, stale);
      SweptExceptIsValid(old(connections), connections, stale, {});
      assert old(connections).Keys - {} == old(connections).Keys;
    }
  }

  /** Connections are stored under their own keys. */
  ghost predicate OwnKeys(t: Table<LiveDeviceConnection>) {
    forall u, d :: IsRegistered(t, u, d) ==> t[u].at[d].user == u && t[u].at[d].device == d
  }

  /** `t'` is `t` with every user outside `todo` swept. */
  ghost predicate SweptExcept(t: Table<LiveDeviceConnection>, t': Table<LiveDeviceConnection>,
                              stale: set<LiveDeviceConnection>, todo: set<UserId>) {
    && (forall u :: u in t' ==> u in t)
    && (forall u :: u in t && u in todo ==> u in t' && t'[u] == t[u])
    && (forall u :: u in t && u !in todo ==>
          var rest := Kept(t[u], stale);
          (u in t' <==> rest.order != []) && (u in t' ==> t'[u] == rest))
  }

  ghost function StaleIn(ds: Devices<LiveDeviceConnection>, stale: set<LiveDeviceConnection>): set<LiveDeviceConnection> {
    set d | d in ds.at && ds.at[d] in stale :: ds.at[d]
  }

  /** The stale connections of some users. */
  ghost function StaleOf(t: Table<LiveDeviceConnection>, stale: set<LiveDeviceConnection>, us: set<UserId>)
    : set<LiveDeviceConnection>
  {
    set u, d | u in us && u in t && d in t[u].at && t[u].at[d] in stale :: t[u].at[d]
  }

  function WithUser(t: Table<LiveDeviceConnection>, u: UserId, ds: Devices<LiveDeviceConnection>): Table<LiveDeviceConnection> {
    if ds.order == [] then t - {u} else t[u := ds]
  }

  lemma SweptExceptIsValid(t: Table<LiveDeviceConnection>, t': Table<LiveDeviceConnection>,
                           stale: set<LiveDeviceConnection>, todo: set<UserId>)
    requires AllWellOrdered(t) && NoEmptyUser(t) && OwnKeys(t) && SweptExcept(t, t', stale, todo)
    ensures AllWellOrdered(t') && NoEmptyUser(t') && OwnKeys(t')
    ensures forall u, d :: IsRegistered(t', u, d) ==> IsRegistered(t, u, d) && t'[u].at[d] == t[u].at[d]
  {
    forall u | u in t' ensures WellOrdered(t'[u]) && t'[u].order != [] {
      DropWellOrdered(t[u], DevicesOn(t[u], stale));
    }
    forall u, d | IsRegistered(t', u, d) ensures IsRegistered(t, u, d) && t'[u].at[d] == t[u].at[d] {
    }
  }

  lemma SweptExceptNext(t: Table<LiveDeviceConnection>, t': Table<LiveDeviceConnection>,
                        stale: set<LiveDeviceConnection>, todo: set<UserId>, u: UserId)
    requires SweptExcept(t, t', stale, todo) && u in todo && u in t
    ensures SweptExcept(t, WithUser(t', u, Kept(t'[u], stale)), stale, todo - {u})
  {
  }

  lemma SweptExceptNone(t: Table<LiveDeviceConnection>, t': Table<LiveDeviceConnection>, stale: set<LiveDeviceConnection>)
    requires SweptExcept(t, t', stale, {})
    ensures t' == Swept(t, stale)
  {
  }

  lemma {:induction false} ImageSize(ds: Devices<LiveDeviceConnection>, devices: set<DeviceId>)
    requires forall d :: d in devices ==> d in ds.at && ds.at[d].device == d
    ensures |set d | d in devices :: ds.at[d]| == |devices|
  {
    if devices != {} {
      var d :| d in devices;
      ImageSize(ds, devices - {d});
      assert (set e | e in devices :: ds.at[e]) == (set e | e in devices - {d} :: ds.at[e]) + {ds.at[d]};
    }
  }

  lemma StaleInSize(t: Table<LiveDeviceConnection>, stale: set<LiveDeviceConnection>, u: UserId)
    requires OwnKeys(t) && u in t
    ensures |StaleIn(t[u], stale)| == |DevicesOn(t[u], stale)|
  {
    var devices := DevicesOn(t[u], stale);
    forall d | d in devices ensures t[u].at[d].device == d {
      assert IsRegistered(t, u, d);
    }
    ImageSize(t[u], devices);
    assert StaleIn(t[u], stale) == set d | d in devices :: t[u].at[d];
  }

  lemma StaleOfNext(t: Table<LiveDeviceConnection>, stale: set<LiveDeviceConnection>, us: set<UserId>, u: UserId)
    requires OwnKeys(t) && u in t && u !in us
    ensures StaleOf(t, stale, us + {u}) == StaleOf(t, stale, us) + StaleIn(t[u], stale)
    ensures |StaleOf(t, stale, us + {u})| == |StaleOf(t, stale, us)| + |StaleIn(t[u], stale)|
  {
    forall c | c in StaleOf(t, stale, us) ensures c !in StaleIn(t[u], stale) {
      var v, d :| v in us && v in t && d in t[v].at && t[v].at[d] == c;
      assert IsRegistered(t, v, d) && c.user == v;
      assert forall e :: e in t[u].at ==> IsRegistered(t, u, e);
    }
  }

  lemma StaleOfTurn(t: Table<LiveDeviceConnection>, stale: set<LiveDeviceConnection>, todo: set<UserId>, u: UserId)
    requires OwnKeys(t) && u in t && u in todo
    ensures var before, after := StaleOf(t, stale, t.Keys - todo), StaleOf(t, stale, t.Keys - (todo - {u}));
            && |after| == |before| + |StaleIn(t[u], stale)|
            && forall c :: c in after ==> c in before || c in StaleIn(t[u], stale)
  {
    assert t.Keys - (todo - {u}) == t.Keys - todo + {u};
    StaleOfNext(t, stale, t.Keys - todo, u);
  }

  lemma StaleOfAll(t: Table<LiveDeviceConnection>, stale: set<LiveDeviceConnection>)
    requires forall c :: c in stale ==> exists u, d :: IsRegistered(t, u, d) && t[u].at[d] == c
    ensures StaleOf(t, stale, t.Keys) == stale
  {
    forall c | c in stale ensures c in StaleOf(t, stale, t.Keys) {
      var u, d :| IsRegistered(t, u, d) && t[u].at[d] == c;
    }
  }
}
