/**
 * The registry's nested dictionaries: user id, then device id, then connection.
 * The inner dictionary keeps its insertion order, because both ways of finding the
 * last-seen device break ties by it. `C` is the type of connection references.
 */
module DeviceTable {
  import opened Prelude
  import opened StableSort

  datatype Devices<C> = Devices(order: seq<DeviceId>, at: map<DeviceId, C>)

  type Table<C> = map<UserId, Devices<C>>

  /** `order` lists exactly the keys, once each. */
  ghost predicate WellOrdered<C>(ds: Devices<C>) {
    && NoDuplicates(ds.order)
    && forall d :: d in ds.order <==> d in ds.at
  }

  function NoDevices<C>(): Devices<C> {
    Devices([], map[])
  }

  function DevicesOf<C>(t: Table<C>, u: UserId): Devices<C> {
    if u in t then t[u] else NoDevices()
  }

  /** `dict[d] = c`: an existing key keeps its place. */
  function Put<C>(ds: Devices<C>, d: DeviceId, c: C): Devices<C> {
    Devices(if d in ds.at then ds.order else ds.order + [d], ds.at[d := c])
  }

  function Drop<C>(ds: Devices<C>, gone: set<DeviceId>): Devices<C> {
    Devices(Without(ds.order, gone), ds.at - gone)
  }

  function Registered<C>(t: Table<C>, u: UserId, d: DeviceId, c: C): Table<C> {
    t[u := Put(DevicesOf(t, u), d, c)]
  }

  /** Removes the device, and the user too when no device is left. */
  function Unregistered<C>(t: Table<C>, u: UserId, d: DeviceId): Table<C> {
    if u !in t then t
    else
      var rest := Drop(t[u], {d});
      if rest.order == [] then t - {u} else t[u := rest]
  }

  predicate IsRegistered<C>(t: Table<C>, u: UserId, d: DeviceId) {
    u in t && d in t[u].at
  }

  ghost predicate NoEmptyUser<C>(t: Table<C>) {
    forall u :: u in t ==> t[u].order != []
  }

  ghost predicate AllWellOrdered<C>(t: Table<C>) {
    forall u :: u in t ==> WellOrdered(t[u])
  }

  lemma PutWellOrdered<C>(ds: Devices<C>, d: DeviceId, c: C)
    requires WellOrdered(ds)
    ensures WellOrdered(Put(ds, d, c))
  {
  }

  lemma DropWellOrdered<C>(ds: Devices<C>, gone: set<DeviceId>)
    requires WellOrdered(ds)
    ensures WellOrdered(Drop(ds, gone))
  {
    WithoutKeepsDistinct(ds.order, gone);
  }

  // ----- what registering and unregistering leave alone -----

  /** The same connection at (u, d) in both tables, or none in either. */
  ghost predicate SameAt<C>(t: Table<C>, t': Table<C>, u: UserId, d: DeviceId) {
    && (u in t' && d in t'[u].at <==> u in t && d in t[u].at)
    && (u in t && d in t[u].at && u in t' && d in t'[u].at ==> t'[u].at[d] == t[u].at[d])
  }

  /** A new connection takes its own place only, a new device the last one of its user's. */
  lemma RegisteringAddsOne<C>(t: Table<C>, u: UserId, d: DeviceId, c: C, u': UserId, d': DeviceId)
    ensures var t' := Registered(t, u, d, c);
            && u in t' && d in t'[u].at && t'[u].at[d] == c
            && (u' != u || d' != d ==> SameAt(t, t', u', d'))
            && t'[u].order == (if u !in t then [d] else if d in t[u].at then t[u].order else t[u].order + [d])
            && (u' != u ==> (u' in t' <==> u' in t) && (u' in t ==> t'[u'] == t[u']))
  {
    assert [] + [d] == [d];
  }

  /**
   * Unregistering takes out that device and no other. The user's other devices keep their
   * connections and their order, and the user goes exactly with the last of them.
   */
  lemma UnregisteringDropsOne<C>(t: Table<C>, u: UserId, d: DeviceId, u': UserId, d': DeviceId)
    requires AllWellOrdered(t)
    ensures var t' := Unregistered(t, u, d);
            && !(u in t' && d in t'[u].at)
            && (u' != u || d' != d ==> SameAt(t, t', u', d'))
            && (u' != u ==> (u' in t' <==> u' in t) && (u' in t ==> t'[u'] == t[u']))
            && (u in t && u in t' ==> forall a, b :: a != d && b != d ==> (Before(t'[u].order, a, b) <==> Before(t[u].order, a, b)))
            && (u in t ==> (u in t' <==> exists e :: e in t[u].at && e != d))
  {
    if u in t {
      assert WellOrdered(t[u]);
      var rest := Drop(t[u], {d});
      forall a, b | a != d && b != d ensures Before(rest.order, a, b) <==> Before(t[u].order, a, b) {
        WithoutKeepsOrder(t[u].order, {d}, a, b);
      }
      RestIsEmptyIff(t[u], d);
    }
  }

  lemma RestIsEmptyIff<C>(ds: Devices<C>, d: DeviceId)
    requires WellOrdered(ds)
    ensures Drop(ds, {d}).order != [] <==> exists e :: e in ds.at && e != d
  {
    var rest := Drop(ds, {d}).order;
    if rest != [] {
      assert rest[0] in ds.order && rest[0] !in {d};
    }
    if e :| e in ds.at && e != d {
      assert e in ds.order;
      var i :| 0 <= i < |ds.order| && ds.order[i] == e;
      assert ds.order[i] !in {d};
      assert ds.order[i] in rest;
    }
  }

  lemma KeptIsEmptyIff<C>(ds: Devices<C>, stale: set<C>)
    requires WellOrdered(ds)
    ensures Kept(ds, stale).order != [] <==> exists e :: e in ds.at && ds.at[e] !in stale
  {
    var gone := DevicesOn(ds, stale);
    var rest := Kept(ds, stale).order;
    if rest != [] {
      assert rest[0] in ds.order && rest[0] !in gone;
    }
    if e :| e in ds.at && ds.at[e] !in stale {
      var i :| 0 <= i < |ds.order| && ds.order[i] == e;
      assert ds.order[i] !in gone;
      assert ds.order[i] in rest;
    }
  }

  /** Sweeping takes out the stale connections, wherever they are, and leaves all others where they were. */
  lemma SweepingDropsTheStale<C>(t: Table<C>, stale: set<C>, u: UserId, d: DeviceId)
    requires AllWellOrdered(t)
    ensures var t' := Swept(t, stale);
            && (u in t' && d in t'[u].at <==> u in t && d in t[u].at && t[u].at[d] !in stale)
            && (u in t && d in t[u].at && u in t' && d in t'[u].at ==> t'[u].at[d] == t[u].at[d])
            && (u in t' <==> u in t && exists e :: e in t[u].at && t[u].at[e] !in stale)
  {
    if u in t {
      KeptIsEmptyIff(t[u], stale);
    }
  }

  lemma DropTwice<C>(ds: Devices<C>, a: set<DeviceId>, b: set<DeviceId>)
    ensures Drop(Drop(ds, a), b) == Drop(ds, a + b)
  {
    WithoutTwice(ds.order, a, b);
    assert (ds.at - a) - b == ds.at - (a + b);
  }

  lemma DropNothing<C>(ds: Devices<C>)
    ensures Drop(ds, {}) == ds
  {
    WithoutNothing(ds.order, {});
    assert ds.at - {} == ds.at;
  }

  // ----- dropping a set of connections from the whole table -----

  function DevicesOn<C(==)>(ds: Devices<C>, stale: set<C>): set<DeviceId> {
    set d | d in ds.at && ds.at[d] in stale
  }

  function Kept<C(==)>(ds: Devices<C>, stale: set<C>): Devices<C> {
    Drop(ds, DevicesOn(ds, stale))
  }

  /** The table without the connections in `stale` and without users left with no device. */
  function Swept<C(==)>(t: Table<C>, stale: set<C>): Table<C> {
    map u | u in t && Kept(t[u], stale).order != [] :: Kept(t[u], stale)
  }

  // ----- which device is the primary -----

  predicate HasOnline<C>(t: Table<C>, u: UserId) {
    u in t && t[u].order != []
  }

  /** A device's last-seen time, from a snapshot of them. */
  function At(seen: map<DeviceId, Time>, d: DeviceId): Time {
    if d in seen then seen[d] else 0.0
  }

  /** `sorted(devices, key=last_seen, reverse=True)` */
  function OnlineIds<C>(t: Table<C>, u: UserId, seen: map<DeviceId, Time>): seq<DeviceId> {
    SortDescending(DevicesOf(t, u).order, d => At(seen, d))
  }

  /** `max(devices, key=last_seen)`: the first of the largest. */
  function FirstLatest(order: seq<DeviceId>, seen: map<DeviceId, Time>): (d: DeviceId)
    requires order != []
    ensures d in order
    ensures forall e :: e in order ==> At(seen, e) <= At(seen, d)
  {
    if |order| == 1 then order[0]
    else
      var rest := FirstLatest(order[1..], seen);
      if At(seen, order[0]) >= At(seen, rest) then order[0] else rest
  }

  /** The element a left-to-right `max` ends with. */
  lemma {:induction false} FirstLatestIs(order: seq<DeviceId>, seen: map<DeviceId, Time>, k: nat)
    requires k < |order|
    requires forall j :: 0 <= j < k ==> At(seen, order[j]) < At(seen, order[k])
    requires forall j :: k < j < |order| ==> At(seen, order[j]) <= At(seen, order[k])
    ensures FirstLatest(order, seen) == order[k]
  {
    if |order| > 1 {
      var rest := order[1..];
      if k > 0 {
        assert rest[k - 1] == order[k];
        FirstLatestIs(rest, seen, k - 1);
      } else {
        var d := FirstLatest(rest, seen);
        var j :| 0 <= j < |rest| && rest[j] == d;
        assert order[j + 1] == d;
      }
    }
  }

  /** Of equally late devices it is the first: everything before it was seen earlier. */
  lemma {:induction false} EarlierIsOlder(order: seq<DeviceId>, seen: map<DeviceId, Time>, i: nat, j: nat)
    requires i < j < |order| && order[j] == FirstLatest(order, seen) && NoDuplicates(order)
    ensures At(seen, order[i]) < At(seen, order[j])
  {
    var rest := order[1..];
    assert FirstLatest(order, seen) != order[0];
    if i > 0 {
      assert rest[i - 1] == order[i] && rest[j - 1] == order[j];
      EarlierIsOlder(rest, seen, i - 1, j - 1);
    }
  }

  lemma {:induction false} HeadIsFirstLatest(order: seq<DeviceId>, seen: map<DeviceId, Time>)
    requires order != []
    ensures var key := (d: DeviceId) => At(seen, d);
            SortDescending(order, key) != [] && SortDescending(order, key)[0] == FirstLatest(order, seen)
  {
    var key := (d: DeviceId) => At(seen, d);
    if |order| == 1 {
      assert SortDescending(order[1..], key) == [];
    } else {
      HeadIsFirstLatest(order[1..], seen);
    }
  }

  /**
   * The three routing questions agree whatever the table holds, and the primary is the
   * head of the online list, ties included.
   */
  lemma RoutingAgrees<C>(t: Table<C>, u: UserId, seen: map<DeviceId, Time>)
    ensures HasOnline(t, u) <==> OnlineIds(t, u, seen) != []
    ensures HasOnline(t, u) ==> OnlineIds(t, u, seen)[0] == FirstLatest(t[u].order, seen)
  {
    if HasOnline(t, u) {
      HeadIsFirstLatest(t[u].order, seen);
    }
  }
}
