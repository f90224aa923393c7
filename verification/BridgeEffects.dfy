/**
 * What the steps of the bridge do, in the fields of the objects they touch, and that they
 * leave everything else alone. Where `BridgeTheorems` says what never happens, this says
 * what does: an ack reaches the push that waits for it, and a lost device fails its pushes.
 */
module BridgeEffects {
  import opened Prelude
  import opened DeviceTable
  import opened BridgeProtocol
  import opened BridgeInvariants
  import opened BridgeTheorems

  /** The other connections, and the keys of this one, are as before. */
  ghost predicate OnlyConn(s: Bridge, s': Bridge, c: ConnId) {
    && s'.conns.Keys == s.conns.Keys + {c}
    && (forall x :: x in s.conns && x != c ==> s'.conns[x] == s.conns[x])
  }

  /** Nothing has happened to any future. */
  predicate SameFutures(s: Bridge, s': Bridge) {
    s'.outcomes == s.outcomes && s'.completions == s.completions
  }

  // ----- the registry -----

  lemma RegisterEffect(s: Bridge, u: UserId, d: DeviceId, c: ConnId, u': UserId, d': DeviceId)
    requires Enabled(s, Register(u, d, c))
    ensures var s' := Apply(s, Register(u, d, c));
            && u in s'.table && d in s'.table[u].at && s'.table[u].at[d] == c
            && (u' != u || d' != d ==> SameAt(s.table, s'.table, u', d'))
            && OnlyConn(s, s', c) && s'.conns[c] == Conn(u, d, s.now, map[])
            && SameFutures(s, s') && s'.pushes == s.pushes && s'.delivered == s.delivered && s'.tasks == s.tasks
  {
    RegisteringAddsOne(s.table, u, d, c, u', d');
  }

  /** One device goes, and exactly the futures pending on it that were not done fail as disconnected. */
  lemma UnregisterEffect(s: Bridge, u: UserId, d: DeviceId, u': UserId, d': DeviceId, q: PushId)
    requires AllWellOrdered(s.table)
    ensures var s' := UnregisterStep(s, u, d);
            && !(u in s'.table && d in s'.table[u].at)
            && (u' != u || d' != d ==> SameAt(s.table, s'.table, u', d'))
            && s'.conns == s.conns && s'.pushes == s.pushes && s'.delivered == s.delivered && s'.tasks == s.tasks
            && s'.outcomes.Keys == s.outcomes.Keys
            && (q in s.outcomes ==>
                  s'.outcomes[q] ==
                  if s.outcomes[q].Pending? && u in s.table && d in s.table[u].at && s.table[u].at[d] in s.conns
                     && q in s.conns[s.table[u].at[d]].pending.Values
                  then Disconnected else s.outcomes[q])
  {
    UnregisteringDropsOne(s.table, u, d, u', d');
  }

  /** A failed send unregisters the device it was sent to, in the same way, and is over. */
  lemma SendFailureEffect(s: Bridge, p: PushId, u': UserId, d': DeviceId)
    requires AllWellOrdered(s.table) && Enabled(s, SendFailureUnregisters(p))
    ensures var s' := Apply(s, SendFailureUnregisters(p));
            var u, d := s.pushes[p].user, s.conns[s.pushes[p].conn.value].device;
            && s'.pushes == s.pushes[p := s.pushes[p].(phase := Done(SendFailure))]
            && !(u in s'.table && d in s'.table[u].at)
            && (u' != u || d' != d ==> SameAt(s.table, s'.table, u', d'))
            && s'.conns == s.conns && s'.delivered == s.delivered && s'.marks == s.marks
  {
    UnregisteringDropsOne(s.table, s.pushes[p].user, s.conns[s.pushes[p].conn.value].device, u', d');
  }

  lemma TouchEffect(s: Bridge, u: UserId, d: DeviceId)
    ensures var s' := TouchStep(s, u, d);
            if u in s.table && d in s.table[u].at && s.table[u].at[d] in s.conns then
              var c := s.table[u].at[d];
              && OnlyConn(s, s', c) && s'.conns[c] == Conn(s.conns[c].user, s.conns[c].device, s.now, s.conns[c].pending)
              && s' == s.(conns := s'.conns)
            else s' == s
  {
  }

  // ----- acks -----

  /** A message is handled for the connection registered under its sender, and for nobody without one. */
  lemma AckArrivesEffect(s: Bridge, t: TaskId, u: UserId, d: DeviceId, ack: Ack)
    requires Enabled(s, AckArrives(t, u, d, ack))
    ensures var s' := Apply(s, AckArrives(t, u, d, ack));
            if u in s.table && d in s.table[u].at then
              && s'.tasks == s.tasks[t := AckTask(u, d, s.table[u].at[d], ack)] && s'.heard == s.heard + {Heard(u, d, ack)}
              && s' == s.(tasks := s'.tasks, heard := s'.heard)
            else s' == s
  {
  }

  /** Nobody waits under the ack's id any more, and nothing but futures changes besides. */
  lemma AckPopsItsEntry(s: Bridge, t: TaskId)
    requires Enabled(s, AckResumes(t)) && s.tasks[t].conn in s.conns && s.tasks[t].ack.id in s.conns[s.tasks[t].conn].pending
    ensures var task := s.tasks[t];
            var s' := Apply(s, AckResumes(t));
            && s'.tasks == s.tasks - {t} && s'.pushes == s.pushes && s'.table == s.table && s'.delivered == s.delivered
            && task.conn in s'.conns && s'.conns[task.conn].pending == s.conns[task.conn].pending - {task.ack.id}
  {
    TouchKeepsPending(s, s.tasks[t].user, s.tasks[t].device, s.tasks[t].conn);
  }

  /** The push that waits under the ack's id has it, unless its future was done; no other future is touched. */
  lemma AckCompletesItsPush(s: Bridge, t: TaskId, q: PushId)
    requires Enabled(s, AckResumes(t)) && s.tasks[t].conn in s.conns && s.tasks[t].ack.id in s.conns[s.tasks[t].conn].pending
    ensures var s' := Apply(s, AckResumes(t));
            && s'.outcomes.Keys == s.outcomes.Keys
            && (q in s.outcomes ==>
                  s'.outcomes[q] ==
                  if s.outcomes[q].Pending? && s.conns[s.tasks[t].conn].pending[s.tasks[t].ack.id] == q
                  then Acked(s.tasks[t].ack) else s.outcomes[q])
  {
    TouchKeepsPending(s, s.tasks[t].user, s.tasks[t].device, s.tasks[t].conn);
  }

  /** An ack nobody waits for changes nothing but a last-seen time. */
  lemma UnawaitedAckEffect(s: Bridge, t: TaskId)
    requires Enabled(s, AckResumes(t))
    requires s.tasks[t].conn in s.conns ==> s.tasks[t].ack.id !in s.conns[s.tasks[t].conn].pending
    ensures var s' := Apply(s, AckResumes(t));
            s' == TouchStep(s, s.tasks[t].user, s.tasks[t].device).(tasks := s.tasks - {t})
  {
    var task := s.tasks[t];
    TouchKeepsPending(s, task.user, task.device, task.conn);
    assert Apply(s, AckResumes(t)) == AckResumesStep(s, t);
  }

  lemma TouchKeepsPending(s: Bridge, u: UserId, d: DeviceId, c: ConnId)
    ensures PendingOf(TouchStep(s, u, d), c) == PendingOf(s, c)
  {
  }

  /** Handling an ack counts as seeing its sender. */
  lemma AckIsSeen(s: Bridge, t: TaskId)
    requires Enabled(s, AckResumes(t))
    requires var task := s.tasks[t]; IsRegistered(s.table, task.user, task.device) && s.table[task.user].at[task.device] in s.conns
    ensures var c := s.table[s.tasks[t].user].at[s.tasks[t].device];
            c in Apply(s, AckResumes(t)).conns && Apply(s, AckResumes(t)).conns[c].lastSeen == s.now
  {
  }

  // ----- pushes -----

  lemma PrimaryIsLastSeen(s: Bridge, u: UserId, d: DeviceId)
    requires Shape(s) && Primary(s, u).Some? && IsRegistered(s.table, u, d)
    ensures var c := Primary(s, u).value;
            && c in s.conns && s.conns[c].user == u && s.table[u].at[d] in s.conns
            && IsRegistered(s.table, u, s.conns[c].device) && s.table[u].at[s.conns[c].device] == c
            && s.conns[s.table[u].at[d]].lastSeen <= s.conns[c].lastSeen
            && (Before(s.table[u].order, d, s.conns[c].device) ==> s.conns[s.table[u].at[d]].lastSeen < s.conns[c].lastSeen)
  {
    PrimaryIsLive(s, u);
    var order, seen := s.table[u].order, LastSeen(s, u);
    var first := FirstLatest(order, seen);
    assert WellOrdered(s.table[u]) && KeysMatch(s, u, d) && KeysMatch(s, u, first);
    assert seen[d] == s.conns[s.table[u].at[d]].lastSeen && seen[first] == s.conns[Primary(s, u).value].lastSeen;
    if Before(order, d, first) {
      var i, j :| 0 <= i < j < |order| && order[i] == d && order[j] == first;
      EarlierIsOlder(order, seen, i, j);
    }
  }

  /** A push is sent to the user's last-seen device, the first registered of equals, and to nobody else's. */
  lemma PushGoesToTheLastSeen(s: Bridge, p: PushId, u: UserId, order: OrderId, d: DeviceId)
    requires Reachable(s) && Enabled(s, PushBegins(p, u, order)) && IsRegistered(s.table, u, d)
    requires var s' := PushBeginsStep(s, p, u, order); p in s'.pushes && s'.pushes[p].phase.Sending?
    ensures var push := PushBeginsStep(s, p, u, order).pushes[p];
            && push.conn.Some? && push.conn.value in s.conns
            && var to := s.conns[push.conn.value];
            && to.user == u && IsRegistered(s.table, u, to.device) && s.table[u].at[to.device] == push.conn.value
            && s.table[u].at[d] in s.conns && s.conns[s.table[u].at[d]].lastSeen <= to.lastSeen
            && (Before(s.table[u].order, d, to.device) ==> s.conns[s.table[u].at[d]].lastSeen < to.lastSeen)
  {
    ReachableShape(s);
    PushStartsRight(s, p, u, order);
    PrimaryIsLastSeen(s, u, d);
  }

  lemma ReachableShape(s: Bridge)
    requires Reachable(s)
    ensures Shape(s)
  {
    ReachableInvariant(s);
  }

  lemma SendEffects(s: Bridge, p: PushId)
    requires InPhase(s, p, true)
    ensures SendCompletesStep(s, p) == s.(pushes := s.pushes[p := s.pushes[p].(sent := true, phase := Waiting(s.now))])
    ensures var s' := SendRaisesStep(s, p);
            var c := s.pushes[p].conn.value;
            && s'.pushes == s.pushes[p := s.pushes[p].(phase := SendFailed)]
            && OnlyConn(s, s', c) && s'.conns[c] == s.conns[c].(pending := s.conns[c].pending - {s.pushes[p].order})
            && SameFutures(s, s') && s'.table == s.table && s'.delivered == s.delivered
  {
  }

  /** After 25 s a future that is not done is cancelled, and no other. */
  lemma DeadlineEffect(s: Bridge, p: PushId, q: PushId)
    requires Enabled(s, AckDeadline(p)) && q in s.outcomes
    ensures s.now - s.pushes[p].phase.since >= 25.0
    ensures var s' := Apply(s, AckDeadline(p));
            q in s'.outcomes && s'.outcomes[q] == if q == p && s.outcomes[p].Pending? then Cancelled else s.outcomes[q]
    ensures Apply(s, AckDeadline(p)).pushes == s.pushes && Apply(s, AckDeadline(p)).conns == s.conns
  {
  }

  /**
   * What a resumed push makes of its ack, in the ack's two flags: `ok` decides if it is
   * there, else `success`, and neither means yes. Only a yes is reported as success and
   * marks the id; a refusal marks nothing.
   */
  lemma ResumedOnAck(s: Bridge, p: PushId)
    requires Enabled(s, PushResumes(p, false)) && s.outcomes[p].Acked?
    ensures var ack, s' := s.outcomes[p].ack, Apply(s, PushResumes(p, false));
            var id := if ack.id != "" then ack.id else s.pushes[p].order;
            && p in s'.pushes && s'.pushes[p].phase.Done? && s'.pushes[p].phase.result.Acknowledged?
            && s'.pushes[p].phase.result.order == id && s'.conns == s.conns
            && (ack.ok == Some(false) || (ack.ok == None && ack.success == Some(false)) ==>
                  !Success(s'.pushes[p].phase.result) && s'.marks == s.marks && s'.delivered == s.delivered)
            && (ack.ok == Some(true) || (ack.ok == None && ack.success != Some(false)) ==>
                  && Success(s'.pushes[p].phase.result)
                  && (id != "" ==> s'.marks == s.marks + [Mark(id, s.now, p)] && s'.delivered == s.delivered[id := s.now])
                  && (id == "" ==> s'.marks == s.marks && s'.delivered == s.delivered))
  {
  }

  /** Without an ack, or too late for it, a push ends unsuccessful and leaves no entry and no mark. */
  lemma ResumedInVain(s: Bridge, p: PushId, late: bool)
    requires Enabled(s, PushResumes(p, late)) && (late || !s.outcomes[p].Acked?)
    ensures var s', c := Apply(s, PushResumes(p, late)), s.pushes[p].conn.value;
            && s'.pushes == s.pushes[p := s.pushes[p].(phase := Done(NoAck))] && !Success(NoAck)
            && s'.marks == s.marks && s'.delivered == s.delivered
            && OnlyConn(s, s', c) && s'.conns[c] == s.conns[c].(pending := s.conns[c].pending - {s.pushes[p].order})
  {
  }

  // ----- an ack's way -----

  /** A push that is out and waits under its id at the connection its device is registered with. */
  ghost predicate AwaitsAck(s: Bridge, p: PushId, d: DeviceId) {
    && InPhase(s, p, false) && s.outcomes[p].Pending?
    && IsRegistered(s.table, s.pushes[p].user, d) && s.table[s.pushes[p].user].at[d] == s.pushes[p].conn.value
    && s.pushes[p].order in s.conns[s.pushes[p].conn.value].pending
    && s.conns[s.pushes[p].conn.value].pending[s.pushes[p].order] == p
  }

  /** Its way to the push: it arrives, is handled, and completes the future. */
  lemma AckIsTakenUp(s: Bridge, p: PushId, d: DeviceId, t: TaskId, ack: Ack)
    requires AwaitsAck(s, p, d) && s.sweep.None? && t !in s.tasks && ack.id == s.pushes[p].order
    ensures Enabled(s, AckArrives(t, s.pushes[p].user, d, ack))
    ensures var s1 := Apply(s, AckArrives(t, s.pushes[p].user, d, ack));
            && Enabled(s1, AckResumes(t))
            && var s2 := Apply(s1, AckResumes(t));
            && s2.pushes == s.pushes && s2.delivered == s.delivered && s2.now == s.now
            && p in s2.outcomes && s2.outcomes[p] == Acked(ack)
            && s.pushes[p].conn.value in s2.conns && ack.id !in s2.conns[s.pushes[p].conn.value].pending
  {
    AckArrivesEffect(s, t, s.pushes[p].user, d, ack);
    var s1 := Apply(s, AckArrives(t, s.pushes[p].user, d, ack));
    AckPopsItsEntry(s1, t);
    AckCompletesItsPush(s1, t, p);
  }

  /**
   * An answer of the device, taken up at once as the lock is free, reaches the push: it
   * ends with the device's verdict, its id is marked exactly on a yes, and its entry is gone.
   */
  lemma AckReachesItsPush(s: Bridge, p: PushId, d: DeviceId, t: TaskId, ack: Ack)
    requires AwaitsAck(s, p, d) && s.sweep.None? && t !in s.tasks && ack.id == s.pushes[p].order && ack.id != ""
    ensures Enabled(s, AckArrives(t, s.pushes[p].user, d, ack))
    ensures var s1 := Apply(s, AckArrives(t, s.pushes[p].user, d, ack));
            && Enabled(s1, AckResumes(t))
            && var s2 := Apply(s1, AckResumes(t));
            && Enabled(s2, PushResumes(p, false))
            && var s3 := Apply(s2, PushResumes(p, false));
            var yes := ack.ok == Some(true) || (ack.ok == None && ack.success != Some(false));
            && p in s3.pushes && s3.pushes[p].phase == Done(Acknowledged(ack.id, yes))
            && s3.delivered == (if yes then s.delivered[ack.id := s.now] else s.delivered)
            && s.pushes[p].conn.value in s3.conns && ack.id !in s3.conns[s.pushes[p].conn.value].pending
  {
    AckIsTakenUp(s, p, d, t, ack);
    var s2 := Apply(Apply(s, AckArrives(t, s.pushes[p].user, d, ack)), AckResumes(t));
    ResumedOnAck(s2, p);
  }

  // ----- nothing is stuck -----

  /** What the registry's lock holds back, exactly: while a sweep runs, everything else that takes the lock. */
  lemma LockIsTheSweep(s: Bridge, u: UserId, d: DeviceId, c: ConnId, t: TaskId, ack: Ack, p: PushId, order: OrderId, later: Time,
                       earlier: Time, users: seq<UserId>)
    requires c !in s.conns && earlier <= s.now <= later
    requires NoDuplicates(users) && forall x :: x in users <==> x in s.table
    ensures Enabled(s, SweepBegins(earlier, users)) <==> s.sweep.None?
    ensures Enabled(s, Register(u, d, c)) <==> s.sweep.None?
    ensures Enabled(s, Unregister(u, d)) <==> s.sweep.None?
    ensures Enabled(s, Touch(u, d)) <==> s.sweep.None?
    ensures t in s.tasks ==> (Enabled(s, AckResumes(t)) <==> s.sweep.None?)
    ensures t !in s.tasks ==> Enabled(s, AckArrives(t, u, d, ack))
    ensures s.sweep.Some? <==> Enabled(s, SweepAdvances)
    ensures Enabled(s, PushBegins(p, u, order)) <==> p !in s.pushes && p !in s.outcomes
    ensures Enabled(s, Tick(later)) && Apply(s, Tick(later)) == s.(now := later)
  {
  }

  /**
   * No push is stuck. One that is being sent comes out of it either way, one whose future is
   * done resumes, one that waits is cancelled when its 25 s are over and not before, and one
   * whose send failed needs nothing but the lock.
   */
  lemma NoPushIsStuck(s: Bridge, p: PushId)
    requires Reachable(s) && p in s.pushes
    ensures match s.pushes[p].phase
            case Sending => Enabled(s, SendCompletes(p)) && Enabled(s, SendRaises(p))
            case SendFailed => Enabled(s, SendFailureUnregisters(p)) <==> s.sweep.None?
            case Waiting(since) =>
              && p in s.outcomes
              && (!s.outcomes[p].Pending? ==> Enabled(s, PushResumes(p, false)))
              && (Enabled(s, AckDeadline(p)) <==> s.now - since >= 25.0)
            case Done(_) => true
  {
    PushesAreWellFormed(s, p);
  }

  lemma PushesAreWellFormed(s: Bridge, p: PushId)
    requires Reachable(s) && p in s.pushes
    ensures PushWellFormed(s, p)
  {
    ReachableInvariant(s);
  }

  /** `n` turns of the sweep. */
  function Turns(s: Bridge, n: nat): Bridge
    decreases n
  {
    if n == 0 || s.sweep.None? then s else Turns(SweepAdvancesStep(s), n - 1)
  }

  function DevicesLeft(w: Sweep): nat {
    if w.user.Some? then |w.devices| + 1 else 0
  }

  lemma VisitShrinks(s: Bridge, w: Sweep, u: UserId)
    requires w.devices != []
    ensures var next := SweepVisits(s, w, u).sweep;
            next.Some? && next.value.users == w.users && next.value.user == w.user && next.value.devices == w.devices[1..]
  {
  }

  lemma TurnShrinks(s: Bridge)
    requires s.sweep.Some?
    ensures var w, next := s.sweep.value, SweepAdvancesStep(s).sweep;
            next.Some? ==>
              |next.value.users| < |w.users| || (|next.value.users| == |w.users| && DevicesLeft(next.value) < DevicesLeft(w))
  {
    var w := s.sweep.value;
    if w.user.Some? && w.devices != [] {
      VisitShrinks(s, w, w.user.value);
    }
  }

  /** Every sweep ends, and lets go of the lock: it visits every user once and every device of theirs once. */
  lemma {:induction false} EverySweepEnds(s: Bridge) returns (n: nat)
    ensures Turns(s, n).sweep.None?
    decreases s.sweep.Some?, if s.sweep.Some? then |s.sweep.value.users| else 0, if s.sweep.Some? then DevicesLeft(s.sweep.value) else 0
  {
    if s.sweep.None? {
      n := 0;
    } else {
      TurnShrinks(s);
      var k := EverySweepEnds(SweepAdvancesStep(s));
      n := k + 1;
    }
  }
}
