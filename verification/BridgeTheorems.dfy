/** What holds in every reachable state of the device bridge. */
module BridgeTheorems {
  import opened Prelude
  import opened DeviceTable
  import opened BridgeProtocol
  import opened BridgeInvariants
  import opened BridgeHistory
  import opened BridgeSweep

  ghost predicate Invariant(s: Bridge) {
    Shape(s) && PendingOwned(s) && DeliveredFaithful(s) && Attributed(s) && SweepHolds(s)
  }

  lemma StepKeepsInvariant(s: Bridge, l: Label)
    requires Invariant(s) && Enabled(s, l)
    ensures Invariant(Apply(s, l))
  {
    SweepKnowsNextUser(s);
    StepKeepsShape(s, l);
    StepKeepsPending(s, l);
    StepKeepsDelivered(s, l);
    StepKeepsAttributed(s, l);
    StepKeepsSweep(s, l);
  }

  lemma {:induction false} RunKeepsInvariant(now: Time, run: seq<Label>)
    ensures After(now, run).Some? ==> Invariant(After(now, run).value)
  {
    if run != [] {
      var before, last := run[..|run| - 1], run[|run| - 1];
      RunKeepsInvariant(now, before);
      if After(now, before).Some? && Enabled(After(now, before).value, last) {
        StepKeepsInvariant(After(now, before).value, last);
      }
    }
  }

  lemma ReachableInvariant(s: Bridge)
    requires Reachable(s)
    ensures Invariant(s)
  {
    var now, run :| After(now, run) == Some(s);
    RunKeepsInvariant(now, run);
  }

  // ----- futures -----

  /** No ack future is completed twice; it is completed once exactly when it is not pending. */
  lemma FuturesCompleteOnce(s: Bridge, p: PushId)
    requires Reachable(s) && p in s.outcomes
    ensures p in s.completions && s.completions[p] <= 1
    ensures s.completions[p] == 1 <==> !s.outcomes[p].Pending?
  {
    ReachableInvariant(s);
    assert CompletedOnce(s, p);
  }

  /**
   * Every entry left in any connection's pending map belongs to a push that is still being
   * sent or awaited, for that order and that connection, even when pushes share an order id.
   */
  lemma PendingEntriesAreInFlight(s: Bridge, c: ConnId, o: OrderId)
    requires Reachable(s) && c in s.conns && o in s.conns[c].pending
    ensures var p := s.conns[c].pending[o];
            && p in s.pushes && (s.pushes[p].phase.Sending? || s.pushes[p].phase.Waiting?)
            && s.pushes[p].order == o && s.pushes[p].conn == Some(c)
            && s.pushes[p].user == s.conns[c].user
  {
    ReachableInvariant(s);
    assert Owned(s, c, o);
    assert PushWellFormed(s, s.conns[c].pending[o]);
  }

  // ----- attribution -----

  /** The push's own device positively acknowledged its own order id. */
  ghost predicate AckedByItsDevice(s: Bridge, p: PushId) {
    && p in s.pushes
    && s.pushes[p].conn.Some? && s.pushes[p].conn.value in s.conns
    && s.conns[s.pushes[p].conn.value].user == s.pushes[p].user
    && exists ack ::
         && Heard(s.pushes[p].user, s.conns[s.pushes[p].conn.value].device, ack) in s.heard
         && ack.id == s.pushes[p].order
         && (ack.ok == Some(true) || (ack.ok == None && ack.success != Some(false)))
  }

  /** And the push had been sent. */
  ghost predicate ConfirmedByItsDevice(s: Bridge, p: PushId) {
    AckedByItsDevice(s, p) && s.pushes[p].sent
  }

  lemma AcknowledgedIsConfirmed(s: Bridge, p: PushId)
    requires Invariant(s) && p in s.pushes && s.pushes[p].phase.Done?
    requires s.pushes[p].phase.result.Acknowledged? && s.pushes[p].phase.result.ok
    ensures ConfirmedByItsDevice(s, p)
    ensures s.pushes[p].phase.result.order == s.pushes[p].order
  {
    assert ResultFaithful(s, p) && OutcomeFaithful(s, p) && PushWellFormed(s, p);
    assert HeardFor(s, p, s.outcomes[p].ack);
  }

  /**
   * A push that sent its order reports success only on a positive ack with that order id
   * handled for exactly its own user and device, and it reports the id it was given.
   */
  lemma SuccessIsAttributed(s: Bridge, p: PushId)
    requires Reachable(s) && p in s.pushes && s.pushes[p].phase.Done? && Success(s.pushes[p].phase.result)
    requires s.pushes[p].sent
    ensures s.pushes[p].phase.result == Acknowledged(s.pushes[p].order, true)
    ensures ConfirmedByItsDevice(s, p)
  {
    ReachableInvariant(s);
    assert ResultFaithful(s, p);
    AcknowledgedIsConfirmed(s, p);
  }

  /** An id is marked delivered only by a confirmed push of that very id. */
  lemma MarksAreConfirmed(s: Bridge, i: int)
    requires Reachable(s) && 0 <= i < |s.marks|
    ensures ConfirmedByItsDevice(s, s.marks[i].push)
    ensures s.pushes[s.marks[i].push].order == s.marks[i].order
  {
    ReachableInvariant(s);
    assert MarkFaithful(s, i);
    AcknowledgedIsConfirmed(s, s.marks[i].push);
  }

  /**
   * A push that reports success without sending repeats an id some device confirmed. The
   * map of delivered ids is not kept per user, so that device may be another user's.
   */
  lemma SkippedRepeatsConfirmed(s: Bridge, p: PushId)
    requires Reachable(s) && p in s.pushes && s.pushes[p].phase.Done? && Success(s.pushes[p].phase.result)
    requires !s.pushes[p].sent
    ensures s.pushes[p].phase.result == DuplicateSkipped(s.pushes[p].order)
    ensures exists q :: ConfirmedByItsDevice(s, q) && s.pushes[q].order == s.pushes[p].order
  {
    ReachableInvariant(s);
    assert ResultFaithful(s, p);
    var i :| 0 <= i < |s.marks| && s.marks[i].order == s.pushes[p].order;
    MarksAreConfirmed(s, i);
  }

  /** An acknowledged push reports success, or its send raised, or it waited in vain, or it was refused first. */
  lemma AckedResults(s: Bridge, p: PushId)
    requires Reachable(s) && AckedByItsDevice(s, p) && s.pushes[p].phase.Done?
    ensures var result, order := s.pushes[p].phase.result, s.pushes[p].order;
            && (Success(result) <==> result == Acknowledged(order, true))
            && (!Success(result) <==> result == NoAck || result == SendFailure || result == Acknowledged(order, false))
  {
    ReachableInvariant(s);
    assert ResultFaithful(s, p);
  }

  // ----- the pruned map -----

  ghost predicate MarkedWithinTtl(s: Bridge, order: OrderId) {
    exists i :: 0 <= i < |s.marks| && s.marks[i].order == order
                && s.now - s.marks[i].at <= 3600.0
  }

  /** `was_order_delivered` answers as if no mark had ever been pruned. */
  lemma PrunedMapIsHistory(s: Bridge, order: OrderId)
    requires Reachable(s)
    ensures order in Pruned(s.delivered, s.now) <==> MarkedWithinTtl(s, order)
  {
    ReachableInvariant(s);
    if order in Pruned(s.delivered, s.now) {
      assert EntryFromMark(s, order);
    }
    if MarkedWithinTtl(s, order) {
      var i :| 0 <= i < |s.marks| && s.marks[i].order == order
               && s.now - s.marks[i].at <= 3600.0;
      assert MarkRemembered(s, i);
    }
  }

  /**
   * What a starting push does, for every state: it is skipped exactly when its id was marked
   * within the hour; otherwise it goes to the user's primary device if there is one. Only in
   * that last case is anything stored in a connection.
   */
  lemma PushStartsRight(s: Bridge, p: PushId, u: UserId, order: OrderId)
    requires Reachable(s) && Enabled(s, PushBegins(p, u, order))
    ensures var s' := PushBeginsStep(s, p, u, order);
            p in s'.pushes && s'.pushes[p] ==
              if order != "" && MarkedWithinTtl(s, order)
              then Push(u, order, None, false, Done(DuplicateSkipped(order)))
              else if HasOnline(s.table, u) then Push(u, order, Primary(s, u), false, Sending)
              else Push(u, order, None, false, Done(NoDevice))
    ensures var s' := PushBeginsStep(s, p, u, order);
            s'.conns == s.conns || (order != "" && !MarkedWithinTtl(s, order) && HasOnline(s.table, u))
  {
    ReachableInvariant(s);
    PrunedMapIsHistory(s, order);
    CheckedPrunes(s, order);
    StartedPush(s, p, u, order);
  }

  predicate SkippedAsDelivered(s: Bridge, order: OrderId) {
    order != "" && order in Checked(s, order).delivered
  }

  lemma StartedPush(s: Bridge, p: PushId, u: UserId, order: OrderId)
    requires Shape(s)
    ensures var s' := PushBeginsStep(s, p, u, order);
            && p in s'.pushes && s'.pushes[p] ==
                 (if SkippedAsDelivered(s, order) then Push(u, order, None, false, Done(DuplicateSkipped(order)))
                  else if HasOnline(s.table, u) then Push(u, order, Primary(s, u), false, Sending)
                  else Push(u, order, None, false, Done(NoDevice)))
            && (if s'.pushes[p].phase.Sending?
                then && p in s'.outcomes && s'.outcomes[p].Pending?
                     && s'.pushes[p].conn.Some? && s'.pushes[p].conn.value in s'.conns
                     && (order != "" ==> order in s'.conns[s'.pushes[p].conn.value].pending
                                         && s'.conns[s'.pushes[p].conn.value].pending[order] == p)
                else s'.conns == s.conns)
            && (s'.conns == s.conns || (order != "" && !SkippedAsDelivered(s, order) && HasOnline(s.table, u)))
  {
    StartsByCases(s, p, u, order);
    CheckedPrunes(s, order);
  }

  lemma CheckedPrunes(s: Bridge, order: OrderId)
    ensures order != "" ==> Checked(s, order).delivered == Pruned(s.delivered, s.now)
    ensures Checked(s, order).conns == s.conns
  {
  }

  lemma StartsByCases(s: Bridge, p: PushId, u: UserId, order: OrderId)
    requires Shape(s)
    ensures var s' := PushBeginsStep(s, p, u, order);
            var s0 := Checked(s, order);
            if order != "" && order in s0.delivered then s' == AtOnce(s0, p, u, order, DuplicateSkipped(order))
            else if HasOnline(s.table, u) then
              Primary(s, u).Some? && Primary(s, u).value in s0.conns
              && s' == Launched(s0, p, u, order, Primary(s, u).value)
            else s' == AtOnce(s0, p, u, order, NoDevice)
  {
    PrimaryIsLive(s, u);
    CheckedKeepsPrimary(s, u, order);
  }

  lemma CheckedKeepsPrimary(s: Bridge, u: UserId, order: OrderId)
    ensures Primary(Checked(s, order), u) == Primary(s, u) && Checked(s, order).conns == s.conns
  {
    assert LastSeen(Checked(s, order), u) == LastSeen(s, u);
  }

  lemma PrimaryHeadsOnlineIds(s: Bridge, u: UserId)
    requires Shape(s) && HasOnline(s.table, u)
    ensures OnlineIds(s.table, u, LastSeen(s, u)) != []
    ensures var d := OnlineIds(s.table, u, LastSeen(s, u))[0];
            IsRegistered(s.table, u, d) && Primary(s, u) == Some(s.table[u].at[d])
  {
    RoutingAgrees(s.table, u, LastSeen(s, u));
    assert WellOrdered(s.table[u]);
  }

  // ----- the registry -----

  /** Stored connections carry their own keys; with the lock free no user has an empty dict. */
  lemma RegistryShape(s: Bridge, u: UserId)
    requires Reachable(s) && u in s.table
    ensures forall d :: d in s.table[u].at ==>
              var c := s.table[u].at[d];
              c in s.conns && s.conns[c].user == u && s.conns[c].device == d
    ensures s.sweep.None? ==> s.table[u].at != map[]
  {
    ReachableInvariant(s);
    forall d | d in s.table[u].at ensures KeysMatch(s, u, d) {
      assert IsRegistered(s.table, u, d);
    }
    if s.sweep.None? {
      assert WellOrdered(s.table[u]) && s.table[u].order[0] in s.table[u].order;
    }
  }

  /** At every await, mid-sweep too, the three online queries agree on whether and who. */
  lemma RoutingCoincides(s: Bridge, u: UserId)
    requires Reachable(s)
    ensures Primary(s, u).Some? <==> HasOnline(s.table, u)
    ensures OnlineIds(s.table, u, LastSeen(s, u)) != [] <==> HasOnline(s.table, u)
    ensures HasOnline(s.table, u) <==> DevicesOf(s.table, u).at != map[]
    ensures HasOnline(s.table, u) ==>
              var d := OnlineIds(s.table, u, LastSeen(s, u))[0];
              IsRegistered(s.table, u, d) && Primary(s, u) == Some(s.table[u].at[d])
  {
    ReachableInvariant(s);
    PrimaryIsLive(s, u);
    RoutingAgrees(s.table, u, LastSeen(s, u));
    if u in s.table {
      assert WellOrdered(s.table[u]);
      if HasOnline(s.table, u) {
        assert s.table[u].order[0] in s.table[u].at;
        PrimaryHeadsOnlineIds(s, u);
      }
    }
  }

  /** The sweep's dictionary lookups never fail, although it awaits between them. */
  lemma SweepLookupsSucceed(s: Bridge)
    requires Reachable(s) && s.sweep.Some?
    ensures var w := s.sweep.value;
            && (w.user.None? && w.users != [] ==> w.users[0] in s.table)
            && (w.user.Some? ==> w.user.value in s.table)
            && (w.user.Some? && w.devices != [] ==> IsRegistered(s.table, w.user.value, w.devices[0]))
  {
    ReachableInvariant(s);
    var w := s.sweep.value;
    if w.user.Some? && w.devices != [] {
      SweepFindsDevice(s, w, w.user.value);
    }
  }

  /** The sweep's result, for every interleaving: see `BridgeSweep.SweepIsExact`. */
  lemma FinishedSweepIsExact(s: Bridge)
    requires Reachable(s) && s.sweep.Some? && s.sweep.value.user.None? && s.sweep.value.users == []
    ensures var w := s.sweep.value;
            && w.stale == StaleAmong(w.seen, w.at)
            && (forall u, d :: IsRegistered(w.start, u, d) ==> w.start[u].at[d] in w.seen)
            && s.table == Swept(w.start, w.stale)
            && w.removed == |w.stale|
            && (forall c :: c in w.seen ==> c in s.conns && s.conns[c].lastSeen == w.seen[c])
            && (forall c, o :: c in w.stale && o in PendingOf(s, c) ==>
                  PendingOf(s, c)[o] in s.outcomes && !s.outcomes[PendingOf(s, c)[o]].Pending?)
    ensures var w := s.sweep.value;
            && (forall c :: c in w.stale <==> c in w.seen && w.at - w.seen[c] > 90.0)
            && (forall u, d :: u in s.table && d in s.table[u].at <==> u in w.start && d in w.start[u].at && w.start[u].at[d] !in w.stale)
            && (forall u, d :: u in s.table && d in s.table[u].at ==> u in w.start && d in w.start[u].at && s.table[u].at[d] == w.start[u].at[d])
  {
    ReachableInvariant(s);
    SweepIsExact(s);
    forall u, d
      ensures u in s.table && d in s.table[u].at <==>
                u in s.sweep.value.start && d in s.sweep.value.start[u].at && s.sweep.value.start[u].at[d] !in s.sweep.value.stale
      ensures u in s.table && d in s.table[u].at ==>
                u in s.sweep.value.start && d in s.sweep.value.start[u].at && s.table[u].at[d] == s.sweep.value.start[u].at[d]
    {
      SweepingDropsTheStale(s.sweep.value.start, s.sweep.value.stale, u, d);
    }
    forall c, o | c in s.sweep.value.stale && o in PendingOf(s, c)
      ensures PendingOf(s, c)[o] in s.outcomes && !s.outcomes[PendingOf(s, c)[o]].Pending?
    {
      assert AllSettled(s, c);
    }
  }

  // ----- a run in which one user's ack stands in for another user's order -----

  lemma OneMore(now: Time, run: seq<Label>, s: Bridge, l: Label)
    requires After(now, run) == Some(s) && Enabled(s, l)
    ensures After(now, run + [l]) == Some(Apply(s, l))
  {
    assert (run + [l])[..|run|] == run;
  }

  /** Alice's desk is registered and her order is on its way to it. */
  lemma AliceSends() returns (run: seq<Label>, s: Bridge)
    ensures After(0.0, run) == Some(s)
    ensures s.now == 0.0 && s.sweep.None? && s.tasks == map[] && s.marks == [] && s.delivered == map[] && s.heard == {}
    ensures s.conns.Keys == {0} && s.conns[0].user == "alice" && s.conns[0].device == "desk"
    ensures s.conns[0].pending == map["x" := 0]
    ensures IsRegistered(s.table, "alice", "desk") && s.table["alice"].at["desk"] == 0 && "bob" !in s.table
    ensures s.pushes == map[0 := Push("alice", "x", Some(0), false, Sending)] && s.outcomes == map[0 := Pending]
  {
    var s0 := Init(0.0);
    var register := Register("alice", "desk", 0);
    var s1 := Apply(s0, register);
    OneMore(0.0, [], s0, register);
    assert s1.table["alice"] == Put(NoDevices(), "desk", 0);
    assert s1.table["alice"].order == ["desk"];
    assert Primary(s1, "alice") == Some(0);
    var push := PushBegins(0, "alice", "x");
    OneMore(0.0, [] + [register], s1, push);
    run, s := [] + [register] + [push], Apply(s1, push);
    assert s == Launched(Checked(s1, "x"), 0, "alice", "x", 0);
  }

  const ALICE_ACK: Ack := Ack("x", Some(true), None)

  /** The envelope is out, and after a while the desk answers. */
  lemma AliceIsHeard(wait: Time) returns (run: seq<Label>, s: Bridge)
    requires wait >= 0.0
    ensures After(0.0, run) == Some(s)
    ensures s.now == wait && s.sweep.None? && s.marks == [] && "bob" !in s.table
    ensures s.conns.Keys == {0} && s.conns[0].pending == map["x" := 0] && s.outcomes == map[0 := Pending]
    ensures s.conns[0].user == "alice" && s.conns[0].device == "desk"
    ensures s.pushes == map[0 := Push("alice", "x", Some(0), true, Waiting(0.0))]
    ensures s.tasks == map[0 := AckTask("alice", "desk", 0, ALICE_ACK)]
    ensures s.heard == {Heard("alice", "desk", ALICE_ACK)}
  {
    var run0, s0 := AliceSends();
    OneMore(0.0, run0, s0, SendCompletes(0));
    var s1 := Apply(s0, SendCompletes(0));
    OneMore(0.0, run0 + [SendCompletes(0)], s1, Tick(wait));
    var s2 := s1.(now := wait);
    var arrives := AckArrives(0, "alice", "desk", ALICE_ACK);
    OneMore(0.0, run0 + [SendCompletes(0)] + [Tick(wait)], s2, arrives);
    run, s := run0 + [SendCompletes(0)] + [Tick(wait)] + [arrives], Apply(s2, arrives);
  }

  /** The lock being free, its ack completes the future at once. */
  lemma AliceIsAcked(wait: Time) returns (run: seq<Label>, s: Bridge)
    requires wait >= 0.0
    ensures After(0.0, run) == Some(s)
    ensures s.now == wait && s.sweep.None? && s.marks == [] && "bob" !in s.table
    ensures s.conns.Keys == {0} && s.conns[0].user == "alice" && s.conns[0].device == "desk"
    ensures s.outcomes == map[0 := Acked(ALICE_ACK)]
    ensures s.pushes == map[0 := Push("alice", "x", Some(0), true, Waiting(0.0))]
    ensures s.heard == {Heard("alice", "desk", ALICE_ACK)}
  {
    var run0, s0 := AliceIsHeard(wait);
    OneMore(0.0, run0, s0, AckResumes(0));
    run, s := run0 + [AckResumes(0)], AckResumesStep(s0, 0);
    DeskAckCompletes(s0);
  }

  lemma DeskAckCompletes(s: Bridge)
    requires s.tasks == map[0 := AckTask("alice", "desk", 0, ALICE_ACK)] && s.outcomes == map[0 := Pending]
    requires s.conns.Keys == {0} && s.conns[0].pending == map["x" := 0]
    ensures var s' := AckResumesStep(s, 0);
            && s'.conns.Keys == {0} && s'.conns[0].user == s.conns[0].user && s'.conns[0].device == s.conns[0].device
            && s'.outcomes == map[0 := Acked(ALICE_ACK)]
            && s' == s.(conns := s'.conns, outcomes := s'.outcomes, completions := s'.completions, tasks := s'.tasks)
  {
    var touched := TouchStep(s, "alice", "desk");
    assert touched == s.(conns := touched.conns) && touched.conns.Keys == {0};
    assert PendingOf(touched, 0) == map["x" := 0];
    var settled := Settled(Popped(touched, 0, "x"), {0}, Acked(ALICE_ACK));
    assert settled.outcomes == map[0 := Acked(ALICE_ACK)];
  }

  /** An ack that completes the future as its 25 s run out: the wait has timed out by the time it resumes. */
  lemma AliceIsAckedTooLate() returns (s: Bridge)
    ensures Reachable(s) && ConfirmedByItsDevice(s, 0)
    ensures s.pushes[0].user == "alice" && s.pushes[0].order == "x" && s.pushes[0].phase == Done(NoAck)
  {
    var run0, s0 := AliceIsAcked(25.0);
    OneMore(0.0, run0, s0, PushResumes(0, true));
    s := ResumeFailed(s0, 0);
    assert After(0.0, run0 + [PushResumes(0, true)]) == Some(s);
    assert Heard("alice", "desk", ALICE_ACK) in s.heard;
  }

  /** The desk has the order and has acknowledged it while the send is still awaited. */
  lemma AliceIsAckedWhileSending() returns (run: seq<Label>, s: Bridge)
    ensures After(0.0, run) == Some(s)
    ensures s.sweep.None? && s.conns.Keys == {0} && s.conns[0].user == "alice" && s.conns[0].device == "desk"
    ensures s.pushes == map[0 := Push("alice", "x", Some(0), false, Sending)] && s.outcomes == map[0 := Acked(ALICE_ACK)]
    ensures s.heard == {Heard("alice", "desk", ALICE_ACK)}
  {
    var run0, s0 := AliceSends();
    var arrives := AckArrives(0, "alice", "desk", ALICE_ACK);
    OneMore(0.0, run0, s0, arrives);
    var s1 := Apply(s0, arrives);
    OneMore(0.0, run0 + [arrives], s1, AckResumes(0));
    run, s := run0 + [arrives] + [AckResumes(0)], AckResumesStep(s1, 0);
    DeskAckCompletes(s1);
  }

  /** And then the send raises. */
  lemma AliceIsAckedButSendFails() returns (s: Bridge)
    ensures Reachable(s) && AckedByItsDevice(s, 0)
    ensures s.pushes[0].user == "alice" && s.pushes[0].order == "x" && s.pushes[0].phase == Done(SendFailure)
  {
    var run0, s0 := AliceIsAckedWhileSending();
    OneMore(0.0, run0, s0, SendRaises(0));
    var s1 := SendRaisesStep(s0, 0);
    OneMore(0.0, run0 + [SendRaises(0)], s1, SendFailureUnregisters(0));
    s := SendFailureUnregistersStep(s1, 0);
    assert After(0.0, run0 + [SendRaises(0)] + [SendFailureUnregisters(0)]) == Some(s);
    assert Heard("alice", "desk", ALICE_ACK) in s.heard;
  }

  lemma AliceIsConfirmed() returns (run: seq<Label>, s: Bridge)
    ensures After(0.0, run) == Some(s)
    ensures "bob" !in s.table && s.pushes.Keys == {0} && s.outcomes.Keys == {0}
    ensures MarkedWithinTtl(s, "x")
    ensures forall h :: h in s.heard ==> h.user == "alice"
  {
    var run0, s0 := AliceIsAcked(0.0);
    OneMore(0.0, run0, s0, PushResumes(0, false));
    run, s := run0 + [PushResumes(0, false)], Apply(s0, PushResumes(0, false));
    assert s == ResumeAcked(s0, 0, ALICE_ACK);
    assert s.marks[0] == Mark("x", 0.0, 0);
  }

  /**
   * Bob's push succeeds although Bob has no device and nothing was sent for him: Alice's
   * device confirmed the same order id a moment before. By `PushStartsRight` this happens
   * to a push exactly when its id was marked within the hour, whoever's order it was.
   */
  lemma AnotherUsersOrderIsSkipped() returns (s: Bridge)
    ensures Reachable(s)
    ensures 1 in s.pushes && s.pushes[1].user == "bob" && !s.pushes[1].sent
    ensures s.pushes[1].phase.Done? && Success(s.pushes[1].phase.result)
    ensures forall h :: h in s.heard ==> h.user == "alice"
  {
    var run0, s0 := AliceIsConfirmed();
    var push := PushBegins(1, "bob", "x");
    OneMore(0.0, run0, s0, push);
    assert Reachable(s0);
    PushStartsRight(s0, 1, "bob", "x");
    s := Apply(s0, push);
    StartsKeepsHeard(s0, 1, "bob", "x");
    assert After(0.0, run0 + [push]) == Some(s);
  }

  lemma StartsKeepsHeard(s: Bridge, p: PushId, u: UserId, order: OrderId)
    ensures PushBeginsStep(s, p, u, order).heard == s.heard
  {
    var s0 := Checked(s, order);
    assert s0.heard == s.heard;
    if !(order != "" && order in s0.delivered) {
      match Primary(s0, u)
      case Some(c) => assert c in s0.conns ==> Launched(s0, p, u, order, c).heard == s.heard;
      case None => assert AtOnce(s0, p, u, order, NoDevice).heard == s.heard;
    }
  }
}
