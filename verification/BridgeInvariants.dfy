/**
 * What every reachable state of the device bridge keeps: the registry's shape, who owns
 * the pending ack entries, and where completions come from.
 */
module BridgeInvariants {
  import opened Prelude
  import opened DeviceTable
  import opened BridgeProtocol

  // ----- the registry's shape -----

  ghost predicate KeysMatch(s: Bridge, u: UserId, d: DeviceId)
    requires IsRegistered(s.table, u, d)
  {
    var c := s.table[u].at[d];
    c in s.conns && s.conns[c].user == u && s.conns[c].device == d
  }

  /** With the lock free no user maps to an empty dict; mid-sweep only the current user may. */
  ghost predicate Shape(s: Bridge) {
    && AllWellOrdered(s.table)
    && (forall u, d :: IsRegistered(s.table, u, d) ==> KeysMatch(s, u, d))
    && (forall u :: u in s.table && s.table[u].order == []
          ==> s.sweep.Some? && s.sweep.value.user == Some(u))
  }

  /** References never lose the keys they were registered under. */
  ghost predicate KeysKept(s: Bridge, s': Bridge) {
    forall c :: c in s.conns ==>
      c in s'.conns && s'.conns[c].user == s.conns[c].user && s'.conns[c].device == s.conns[c].device
  }

  /** The second table holds no more than the first. */
  ghost predicate Shrinks(t: Table<ConnId>, t': Table<ConnId>) {
    forall u, d :: IsRegistered(t', u, d) ==> IsRegistered(t, u, d) && t'[u].at[d] == t[u].at[d]
  }

  lemma ShapeCarries(s: Bridge, s': Bridge)
    requires Shape(s) && KeysKept(s, s') && Shrinks(s.table, s'.table) && AllWellOrdered(s'.table)
    requires forall u :: u in s'.table && s'.table[u].order == []
               ==> s'.sweep.Some? && s'.sweep.value.user == Some(u)
    ensures Shape(s')
  {
    forall u, d | IsRegistered(s'.table, u, d) ensures KeysMatch(s', u, d) {
      assert IsRegistered(s.table, u, d);
      assert KeysMatch(s, u, d);
    }
  }

  lemma RegisterKeepsShape(s: Bridge, u: UserId, d: DeviceId, c: ConnId)
    requires Shape(s) && c !in s.conns
    ensures Shape(RegisterStep(s, u, d, c))
  {
    var s' := RegisterStep(s, u, d, c);
    PutWellOrdered(DevicesOf(s.table, u), d, c);
    forall u', d' | IsRegistered(s'.table, u', d') ensures KeysMatch(s', u', d') {
      if u' != u || d' != d {
        assert IsRegistered(s.table, u', d') && KeysMatch(s, u', d');
      }
    }
    assert Put(DevicesOf(s.table, u), d, c).order != [];
  }

  lemma UnregisterKeepsShape(s: Bridge, u: UserId, d: DeviceId)
    requires Shape(s) && s.sweep.None?
    ensures Shape(UnregisterStep(s, u, d))
    ensures UnregisterStep(s, u, d).conns == s.conns
  {
    if u in s.table {
      DropWellOrdered(s.table[u], {d});
    }
    ShapeCarries(s, UnregisterStep(s, u, d));
  }

  lemma PrimaryIsLive(s: Bridge, u: UserId)
    requires Shape(s)
    ensures Primary(s, u).Some? <==> HasOnline(s.table, u)
    ensures Primary(s, u).Some? ==>
              var c := Primary(s, u).value;
              && c in s.conns && s.conns[c].user == u
              && IsRegistered(s.table, u, s.conns[c].device)
              && s.table[u].at[s.conns[c].device] == c
  {
    if HasOnline(s.table, u) {
      var d := FirstLatest(s.table[u].order, LastSeen(s, u));
      assert WellOrdered(s.table[u]);
      assert IsRegistered(s.table, u, d);
      assert KeysMatch(s, u, d);
    }
  }

  lemma LaunchedKeepsShape(s: Bridge, p: PushId, u: UserId, order: OrderId, c: ConnId)
    requires Shape(s) && c in s.conns
    ensures Shape(Launched(s, p, u, order, c))
  {
    ShapeCarries(s, Launched(s, p, u, order, c));
  }

  lemma AtOnceKeepsShape(s: Bridge, p: PushId, u: UserId, order: OrderId, r: PushResult)
    requires Shape(s)
    ensures Shape(AtOnce(s, p, u, order, r))
  {
    ShapeCarries(s, AtOnce(s, p, u, order, r));
  }

  lemma CheckedKeepsShape(s: Bridge, order: OrderId)
    requires Shape(s)
    ensures Shape(Checked(s, order))
  {
    if order != "" {
      ShapeFrame(s, s.(delivered := Pruned(s.delivered, s.now)));
    }
  }

  lemma PushBeginsKeepsShape(s: Bridge, p: PushId, u: UserId, order: OrderId)
    requires Shape(s)
    ensures Shape(PushBeginsStep(s, p, u, order))
  {
    var s0 := Checked(s, order);
    CheckedKeepsShape(s, order);
    if order != "" && order in s0.delivered {
      AtOnceKeepsShape(s0, p, u, order, DuplicateSkipped(order));
    } else {
      PrimaryIsLive(s0, u);
      match Primary(s0, u)
      case Some(c) => LaunchedKeepsShape(s0, p, u, order, c);
      case None => AtOnceKeepsShape(s0, p, u, order, NoDevice);
    }
  }

  lemma SweepEntersKeepsShape(s: Bridge, w: Sweep)
    requires Shape(s) && w.users != [] && s.sweep == Some(w) && w.user.None?
    requires w.users[0] in s.table
    ensures Shape(SweepEntersUser(s, w))
  {
    ShapeCarries(s, SweepEntersUser(s, w));
  }

  lemma SweepLeavesKeepsShape(s: Bridge, w: Sweep, u: UserId)
    requires Shape(s) && s.sweep == Some(w) && w.user == Some(u)
    ensures Shape(SweepLeavesUser(s, w, u))
  {
    ShapeCarries(s, SweepLeavesUser(s, w, u));
  }

  lemma SweepRemovesKeepsShape(s: Bridge, w: Sweep, u: UserId, d: DeviceId, c: ConnId)
    requires Shape(s) && s.sweep == Some(w) && w.user == Some(u) && w.devices != [] && u in s.table && c in s.conns
    ensures Shape(SweepRemoves(s, w, u, d, c))
  {
    DropWellOrdered(s.table[u], {d});
    ShapeCarries(s, SweepRemoves(s, w, u, d, c));
  }

  lemma SweepVisitsKeepsShape(s: Bridge, w: Sweep, u: UserId)
    requires Shape(s) && s.sweep == Some(w) && w.user == Some(u) && w.devices != []
    ensures Shape(SweepVisits(s, w, u))
  {
    var d := w.devices[0];
    if IsRegistered(s.table, u, d) && s.table[u].at[d] in s.conns {
      SweepRemovesKeepsShape(s, w, u, d, s.table[u].at[d]);
    }
    ShapeCarries(s, s.(sweep := Some(w.(devices := w.devices[1..]))));
  }

  lemma SweepEndsKeepsShape(s: Bridge)
    requires Shape(s) && s.sweep.Some? && s.sweep.value.user.None?
    ensures Shape(s.(sweep := None))
  {
    ShapeCarries(s, s.(sweep := None));
  }

  lemma SweepAdvancesKeepsShape(s: Bridge)
    requires Shape(s) && s.sweep.Some? && NextUserPresent(s)
    ensures Shape(SweepAdvancesStep(s))
  {
    var w := s.sweep.value;
    match w.user
    case None => if w.users == [] { SweepEndsKeepsShape(s); } else { SweepEntersKeepsShape(s, w); }
    case Some(u) =>
      if w.devices == [] { SweepLeavesKeepsShape(s, w, u); } else { SweepVisitsKeepsShape(s, w, u); }
  }

  ghost predicate NextUserPresent(s: Bridge) {
    s.sweep.Some? && s.sweep.value.user.None? && s.sweep.value.users != [] ==>
      s.sweep.value.users[0] in s.table
  }

  lemma StepKeepsShape(s: Bridge, l: Label)
    requires Shape(s) && Enabled(s, l)
    requires NextUserPresent(s)
    ensures Shape(Apply(s, l))
  {
    match l
    case Register(u, d, c) => RegisterKeepsShape(s, u, d, c);
    case Unregister(u, d) => UnregisterKeepsShape(s, u, d);
    case SendFailureUnregisters(p) => SendFailureKeepsShape(s, p);
    case PushBegins(p, u, order) => PushBeginsKeepsShape(s, p, u, order);
    case SweepAdvances => SweepAdvancesKeepsShape(s);
    case AckResumes(t) => AckResumesKeepsShape(s, t);
    case PushResumes(p, late) => PushResumesKeepsShape(s, p, late);
    case SendRaises(p) => SendRaisesKeepsShape(s, p);
    case Touch(u, d) => TouchKeepsKeys(s, u, d); ShapeFrame(s, TouchStep(s, u, d));
    case SendCompletes(p) => ShapeFrame(s, SendCompletesStep(s, p));
    case AckDeadline(p) => ShapeFrame(s, Settled(s, {p}, Cancelled));
    case Tick(now) => ShapeFrame(s, s.(now := now));
    case AckArrives(t, u, d, ack) => ShapeFrame(s, AckArrivesStep(s, t, u, d, ack));
    case SweepBegins(at, users) => ShapeCarries(s, SweepBeginsStep(s, at, users));
  }

  lemma SendFailureKeepsShape(s: Bridge, p: PushId)
    requires Shape(s) && Enabled(s, SendFailureUnregisters(p))
    ensures Shape(SendFailureUnregistersStep(s, p))
  {
    var u, d := s.pushes[p].user, s.conns[s.pushes[p].conn.value].device;
    UnregisterKeepsShape(s, u, d);
    ShapeCarries(UnregisterStep(s, u, d), SendFailureUnregistersStep(s, p));
  }

  lemma TouchKeepsKeys(s: Bridge, u: UserId, d: DeviceId)
    ensures KeysKept(s, TouchStep(s, u, d))
    ensures TouchStep(s, u, d).table == s.table && TouchStep(s, u, d).sweep == s.sweep
  {
  }

  lemma ShapeFrame(s: Bridge, s': Bridge)
    requires Shape(s) && KeysKept(s, s') && s'.table == s.table && s'.sweep == s.sweep
    ensures Shape(s')
  {
    ShapeCarries(s, s');
  }

  lemma PoppedKeepsKeys(s: Bridge, c: ConnId, order: OrderId)
    ensures KeysKept(s, Popped(s, c, order))
    ensures Popped(s, c, order).table == s.table && Popped(s, c, order).sweep == s.sweep
    ensures Popped(s, c, order).tasks == s.tasks
  {
  }

  lemma AckResumesKeepsShape(s: Bridge, t: TaskId)
    requires Shape(s) && t in s.tasks
    ensures Shape(AckResumesStep(s, t))
  {
    var task := s.tasks[t];
    var s0 := TouchStep(s, task.user, task.device);
    TouchKeepsKeys(s, task.user, task.device);
    PoppedKeepsKeys(s0, task.conn, task.ack.id);
    ShapeFrame(s, AckResumesStep(s, t));
  }

  lemma PushResumesKeepsShape(s: Bridge, p: PushId, late: bool)
    requires Shape(s) && Enabled(s, PushResumes(p, late))
    ensures Shape(PushResumesStep(s, p, late))
  {
    if s.outcomes[p].Acked? && !late {
      ShapeFrame(s, ResumeAcked(s, p, s.outcomes[p].ack));
    } else {
      PoppedKeepsKeys(s, s.pushes[p].conn.value, s.pushes[p].order);
      ShapeFrame(s, ResumeFailed(s, p));
    }
  }

  lemma SendRaisesKeepsShape(s: Bridge, p: PushId)
    requires Shape(s) && InPhase(s, p, true)
    ensures Shape(SendRaisesStep(s, p))
  {
    ShapeCarries(s, SendRaisesStep(s, p));
  }

  // ----- pending entries and futures -----

  ghost predicate InFlight(s: Bridge, p: PushId) {
    p in s.pushes && (s.pushes[p].phase.Sending? || s.pushes[p].phase.Waiting?)
  }

  /** The entry belongs to a push still in flight that was sent to this very connection. */
  ghost predicate Owned(s: Bridge, c: ConnId, o: OrderId)
    requires c in s.conns && o in s.conns[c].pending
  {
    var p := s.conns[c].pending[o];
    && o != ""
    && InFlight(s, p)
    && s.pushes[p].conn == Some(c) && s.pushes[p].order == o
    && p in s.outcomes && !s.outcomes[p].Acked?
  }

  ghost predicate PushWellFormed(s: Bridge, p: PushId)
    requires p in s.pushes
  {
    var push := s.pushes[p];
    && (push.phase.Done? || push.conn.Some?)
    && (push.conn.Some? ==>
          && push.conn.value in s.conns
          && s.conns[push.conn.value].user == push.user
          && p in s.outcomes)
  }

  /** A future is completed exactly once or still pending, never twice. */
  ghost predicate CompletedOnce(s: Bridge, p: PushId)
    requires p in s.outcomes
  {
    && p in s.pushes && p in s.completions
    && s.completions[p] == (if s.outcomes[p].Pending? then 0 else 1)
  }

  ghost predicate PendingOwned(s: Bridge) {
    && (forall c, o :: c in s.conns && o in s.conns[c].pending ==> Owned(s, c, o))
    && (forall p :: p in s.pushes ==> PushWellFormed(s, p))
    && (forall p :: p in s.outcomes ==> CompletedOnce(s, p))
  }

  lemma SettledKeepsPending(s: Bridge, ps: set<PushId>, o: Outcome)
    requires PendingOwned(s)
    requires !o.Pending?
    requires forall c, k :: c in s.conns && k in s.conns[c].pending && s.conns[c].pending[k] in ps ==> !o.Acked?
    ensures PendingOwned(Settled(s, ps, o))
  {
    var s' := Settled(s, ps, o);
    forall c, k | c in s'.conns && k in s'.conns[c].pending ensures Owned(s', c, k) {
      assert Owned(s, c, k);
    }
    forall p | p in s'.outcomes ensures CompletedOnce(s', p) {
      assert CompletedOnce(s, p);
    }
  }

  lemma PoppedKeepsPending(s: Bridge, c: ConnId, order: OrderId)
    requires PendingOwned(s)
    ensures PendingOwned(Popped(s, c, order))
  {
    var s' := Popped(s, c, order);
    forall c', k | c' in s'.conns && k in s'.conns[c'].pending ensures Owned(s', c', k) {
      assert Owned(s, c', k);
    }
    forall p | p in s'.pushes ensures PushWellFormed(s', p) {
      assert PushWellFormed(s, p);
    }
    forall p | p in s'.outcomes ensures CompletedOnce(s', p) {
      assert CompletedOnce(s, p);
    }
  }

  /** Changing only what a push is doing is safe once no entry leads to it. */
  lemma PhaseKeepsPending(s: Bridge, p: PushId, phase: Phase)
    requires PendingOwned(s) && p in s.pushes
    requires s.pushes[p].conn.Some?
    requires forall c, k :: c in s.conns && k in s.conns[c].pending ==> s.conns[c].pending[k] != p
    ensures PendingOwned(WithPhase(s, p, phase))
  {
    var s' := WithPhase(s, p, phase);
    forall c, k | c in s'.conns && k in s'.conns[c].pending ensures Owned(s', c, k) {
      assert Owned(s, c, k);
    }
    forall q | q in s'.pushes ensures PushWellFormed(s', q) {
      assert PushWellFormed(s, q);
    }
    forall q | q in s'.outcomes ensures CompletedOnce(s', q) {
      assert CompletedOnce(s, q);
    }
  }

  /** Popping a push's key leaves no entry that leads to it, whoever's entry it removed. */
  lemma PoppedForgets(s: Bridge, p: PushId)
    requires PendingOwned(s) && p in s.pushes && s.pushes[p].conn.Some?
    ensures var s' := Popped(s, s.pushes[p].conn.value, s.pushes[p].order);
            forall c, k :: c in s'.conns && k in s'.conns[c].pending ==> s'.conns[c].pending[k] != p
  {
    var s' := Popped(s, s.pushes[p].conn.value, s.pushes[p].order);
    forall c, k | c in s'.conns && k in s'.conns[c].pending ensures s'.conns[c].pending[k] != p {
      assert Owned(s, c, k);
    }
  }

  /** An acknowledged push has no entry left. */
  lemma AckedIsForgotten(s: Bridge, p: PushId)
    requires PendingOwned(s) && p in s.outcomes && s.outcomes[p].Acked?
    ensures forall c, k :: c in s.conns && k in s.conns[c].pending ==> s.conns[c].pending[k] != p
  {
    forall c, k | c in s.conns && k in s.conns[c].pending ensures s.conns[c].pending[k] != p {
      assert Owned(s, c, k);
    }
  }

  lemma RegisterKeepsPending(s: Bridge, u: UserId, d: DeviceId, c: ConnId)
    requires PendingOwned(s) && c !in s.conns
    ensures PendingOwned(RegisterStep(s, u, d, c))
  {
    var s' := RegisterStep(s, u, d, c);
    forall c', k | c' in s'.conns && k in s'.conns[c'].pending ensures Owned(s', c', k) {
      assert Owned(s, c', k);
    }
    forall p | p in s'.pushes ensures PushWellFormed(s', p) {
      assert PushWellFormed(s, p);
    }
    forall p | p in s'.outcomes ensures CompletedOnce(s', p) {
      assert CompletedOnce(s, p);
    }
  }

  lemma TouchKeepsPending(s: Bridge, u: UserId, d: DeviceId)
    requires PendingOwned(s)
    ensures PendingOwned(TouchStep(s, u, d))
    ensures TouchStep(s, u, d).conns.Keys == s.conns.Keys
    ensures forall c :: PendingOf(TouchStep(s, u, d), c) == PendingOf(s, c)
  {
    var s' := TouchStep(s, u, d);
    forall c', k | c' in s'.conns && k in s'.conns[c'].pending ensures Owned(s', c', k) {
      assert Owned(s, c', k);
    }
    forall p | p in s'.pushes ensures PushWellFormed(s', p) {
      assert PushWellFormed(s, p);
    }
    forall p | p in s'.outcomes ensures CompletedOnce(s', p) {
      assert CompletedOnce(s, p);
    }
  }

  /** Parts of the state the futures and pending entries do not depend on. */
  lemma FramePending(s: Bridge, s': Bridge)
    requires PendingOwned(s)
    requires s'.conns == s.conns && s'.pushes == s.pushes
    requires s'.outcomes == s.outcomes && s'.completions == s.completions
    ensures PendingOwned(s')
  {
    forall c', k | c' in s'.conns && k in s'.conns[c'].pending ensures Owned(s', c', k) {
      assert Owned(s, c', k);
    }
    forall p | p in s'.pushes ensures PushWellFormed(s', p) {
      assert PushWellFormed(s, p);
    }
    forall p | p in s'.outcomes ensures CompletedOnce(s', p) {
      assert CompletedOnce(s, p);
    }
  }

  lemma AckResumesKeepsPending(s: Bridge, t: TaskId)
    requires PendingOwned(s) && t in s.tasks
    ensures PendingOwned(AckResumesStep(s, t))
  {
    var task := s.tasks[t];
    var s0 := TouchStep(s, task.user, task.device);
    TouchKeepsPending(s, task.user, task.device);
    var pending := PendingOf(s0, task.conn);
    if task.ack.id in pending {
      var p := pending[task.ack.id];
      assert Owned(s0, task.conn, task.ack.id);
      var s1 := Popped(s0, task.conn, task.ack.id);
      PoppedKeepsPending(s0, task.conn, task.ack.id);
      PoppedForgets(s0, p);
      SettledKeepsPending(s1, {p}, Acked(task.ack));
      FramePending(Settled(s1, {p}, Acked(task.ack)), AckResumesStep(s, t));
    } else {
      FramePending(s0, AckResumesStep(s, t));
    }
  }

  lemma LaunchedKeepsPending(s: Bridge, p: PushId, u: UserId, order: OrderId, c: ConnId)
    requires PendingOwned(s) && p !in s.pushes && p !in s.outcomes
    requires c in s.conns && s.conns[c].user == u
    ensures PendingOwned(Launched(s, p, u, order, c))
  {
    var s' := Launched(s, p, u, order, c);
    forall c', k | c' in s'.conns && k in s'.conns[c'].pending ensures Owned(s', c', k) {
      if c' != c || k != order || order == "" {
        assert Owned(s, c', k);
      }
    }
    forall q | q in s'.pushes ensures PushWellFormed(s', q) {
      assert q != p ==> PushWellFormed(s, q);
    }
    forall q | q in s'.outcomes ensures CompletedOnce(s', q) {
      assert q != p ==> CompletedOnce(s, q);
    }
  }

  lemma AtOnceKeepsPending(s: Bridge, p: PushId, u: UserId, order: OrderId, r: PushResult)
    requires PendingOwned(s) && p !in s.pushes && p !in s.outcomes
    ensures PendingOwned(AtOnce(s, p, u, order, r))
  {
    var s' := AtOnce(s, p, u, order, r);
    forall c', k | c' in s'.conns && k in s'.conns[c'].pending ensures Owned(s', c', k) {
      assert Owned(s, c', k);
    }
    forall q | q in s'.pushes ensures PushWellFormed(s', q) {
      assert q != p ==> PushWellFormed(s, q);
    }
    forall q | q in s'.outcomes ensures CompletedOnce(s', q) {
      assert q != p ==> CompletedOnce(s, q);
    }
  }

  lemma CheckedKeepsPending(s: Bridge, order: OrderId)
    requires PendingOwned(s)
    ensures PendingOwned(Checked(s, order))
  {
    if order != "" {
      FramePending(s, s.(delivered := Pruned(s.delivered, s.now)));
    }
  }

  lemma PushBeginsKeepsPending(s: Bridge, p: PushId, u: UserId, order: OrderId)
    requires Shape(s) && PendingOwned(s) && p !in s.pushes && p !in s.outcomes
    ensures PendingOwned(PushBeginsStep(s, p, u, order))
  {
    var s0 := Checked(s, order);
    CheckedKeepsShape(s, order);
    CheckedKeepsPending(s, order);
    if order != "" && order in s0.delivered {
      AtOnceKeepsPending(s0, p, u, order, DuplicateSkipped(order));
    } else {
      PrimaryIsLive(s0, u);
      match Primary(s0, u)
      case Some(c) => LaunchedKeepsPending(s0, p, u, order, c);
      case None => AtOnceKeepsPending(s0, p, u, order, NoDevice);
    }
  }

  lemma UnregisterKeepsPending(s: Bridge, u: UserId, d: DeviceId)
    requires PendingOwned(s)
    ensures PendingOwned(UnregisterStep(s, u, d))
  {
    var failed := if IsRegistered(s.table, u, d) then PendingOf(s, s.table[u].at[d]).Values else {};
    SettledKeepsPending(s, failed, Disconnected);
    FramePending(Settled(s, failed, Disconnected), UnregisterStep(s, u, d));
  }

  lemma SweepVisitsKeepsPending(s: Bridge, w: Sweep, u: UserId)
    requires PendingOwned(s) && w.devices != []
    ensures PendingOwned(SweepVisits(s, w, u))
  {
    if IsRegistered(s.table, u, w.devices[0]) && s.table[u].at[w.devices[0]] in s.conns {
      var c := s.table[u].at[w.devices[0]];
      var failed := s.conns[c].pending.Values;
      SettledKeepsPending(s, failed, StaleClosed);
      FramePending(Settled(s, failed, StaleClosed), SweepRemoves(s, w, u, w.devices[0], c));
    }
    FramePending(s, s.(sweep := Some(w.(devices := w.devices[1..]))));
  }

  lemma SweepAdvancesKeepsPending(s: Bridge)
    requires PendingOwned(s) && s.sweep.Some?
    ensures PendingOwned(SweepAdvancesStep(s))
  {
    var w := s.sweep.value;
    match w.user
    case None =>
      if w.users == [] { FramePending(s, s.(sweep := None)); }
      else { FramePending(s, SweepEntersUser(s, w)); }
    case Some(u) =>
      if w.devices == [] { FramePending(s, SweepLeavesUser(s, w, u)); }
      else { SweepVisitsKeepsPending(s, w, u); }
  }

  lemma SendRaisesKeepsPending(s: Bridge, p: PushId)
    requires PendingOwned(s) && InPhase(s, p, true)
    ensures PendingOwned(SendRaisesStep(s, p))
  {
    var c, o := s.pushes[p].conn.value, s.pushes[p].order;
    PoppedKeepsPending(s, c, o);
    PoppedForgets(s, p);
    PhaseKeepsPending(Popped(s, c, o), p, SendFailed);
  }

  lemma SendFailureKeepsPending(s: Bridge, p: PushId)
    requires PendingOwned(s) && Enabled(s, SendFailureUnregisters(p))
    ensures PendingOwned(SendFailureUnregistersStep(s, p))
  {
    var d := s.conns[s.pushes[p].conn.value].device;
    UnregisterKeepsPending(s, s.pushes[p].user, d);
    var s0 := UnregisterStep(s, s.pushes[p].user, d);
    forall c, k | c in s0.conns && k in s0.conns[c].pending ensures s0.conns[c].pending[k] != p {
      assert Owned(s0, c, k);
    }
    PhaseKeepsPending(s0, p, Done(SendFailure));
  }

  lemma PushResumesKeepsPending(s: Bridge, p: PushId, late: bool)
    requires PendingOwned(s) && Enabled(s, PushResumes(p, late))
    ensures PendingOwned(PushResumesStep(s, p, late))
  {
    if s.outcomes[p].Acked? && !late {
      var s' := ResumeAcked(s, p, s.outcomes[p].ack);
      AckedIsForgotten(s, p);
      PhaseKeepsPending(s, p, s'.pushes[p].phase);
      FramePending(WithPhase(s, p, s'.pushes[p].phase), s');
    } else {
      var c, o := s.pushes[p].conn.value, s.pushes[p].order;
      PoppedKeepsPending(s, c, o);
      PoppedForgets(s, p);
      PhaseKeepsPending(Popped(s, c, o), p, Done(NoAck));
    }
  }

  lemma SendCompletesKeepsPending(s: Bridge, p: PushId)
    requires PendingOwned(s) && InPhase(s, p, true)
    ensures PendingOwned(SendCompletesStep(s, p))
  {
    var s' := SendCompletesStep(s, p);
    forall c', k | c' in s'.conns && k in s'.conns[c'].pending ensures Owned(s', c', k) {
      assert Owned(s, c', k);
    }
    forall q | q in s'.pushes ensures PushWellFormed(s', q) {
      assert PushWellFormed(s, q);
    }
    forall q | q in s'.outcomes ensures CompletedOnce(s', q) {
      assert CompletedOnce(s, q);
    }
  }

  lemma StepKeepsPending(s: Bridge, l: Label)
    requires Shape(s) && PendingOwned(s) && Enabled(s, l)
    ensures PendingOwned(Apply(s, l))
  {
    match l
    case Register(u, d, c) => RegisterKeepsPending(s, u, d, c);
    case Unregister(u, d) => UnregisterKeepsPending(s, u, d);
    case Touch(u, d) => TouchKeepsPending(s, u, d);
    case AckResumes(t) => AckResumesKeepsPending(s, t);
    case PushBegins(p, u, order) => PushBeginsKeepsPending(s, p, u, order);
    case SendCompletes(p) => SendCompletesKeepsPending(s, p);
    case SendRaises(p) => SendRaisesKeepsPending(s, p);
    case SendFailureUnregisters(p) => SendFailureKeepsPending(s, p);
    case AckDeadline(p) => SettledKeepsPending(s, {p}, Cancelled);
    case PushResumes(p, late) => PushResumesKeepsPending(s, p, late);
    case SweepAdvances => SweepAdvancesKeepsPending(s);
    case Tick(_) => FramePending(s, Apply(s, l));
    case AckArrives(_, _, _, _) => FramePending(s, Apply(s, l));
    case SweepBegins(_, _) => FramePending(s, Apply(s, l));
  }
}
