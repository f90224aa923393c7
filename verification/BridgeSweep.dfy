/**
 * The stale sweep, which awaits socket closes while it iterates. Whatever other steps run
 * in between, it removes exactly the connections that were stale when it took the lock.
 */
module BridgeSweep {
  import opened Prelude
  import opened DeviceTable
  import opened BridgeProtocol
  import opened BridgeInvariants

  /** The sweep's snapshot is a well-formed registry whose connections have not moved since. */
  ghost predicate SnapshotHolds(s: Bridge, w: Sweep) {
    && AllWellOrdered(w.start)
    && w.stale == StaleAmong(w.seen, w.at)
    && (forall u, d :: IsRegistered(w.start, u, d) ==>
          var c := w.start[u].at[d];
          c in w.seen && c in s.conns && s.conns[c].user == u && s.conns[c].device == d)
    && (forall c :: c in w.seen ==>
          && c in s.conns && s.conns[c].lastSeen == w.seen[c]
          && IsRegistered(w.start, s.conns[c].user, s.conns[c].device)
          && w.start[s.conns[c].user].at[s.conns[c].device] == c)
  }

  /** The devices of a user that the sweep has already dropped. */
  function DroppedOf(w: Sweep, u: UserId): set<DeviceId>
    requires u in w.start
  {
    DevicesOn(w.start[u], w.stale) - set d | d in w.devices
  }

  ghost predicate Progress(s: Bridge, w: Sweep) {
    && NoDuplicates(w.users)
    && (forall u :: u in w.users ==> u in w.start && u in s.table && s.table[u] == w.start[u])
    && (w.user.Some? ==>
          var u := w.user.value;
          && u !in w.users && u in w.start && u in s.table
          && NoDuplicates(w.devices) && (forall d :: d in w.devices ==> d in w.start[u].at)
          && s.table[u] == Drop(w.start[u], DroppedOf(w, u)))
    && (forall u :: u !in w.users && w.user != Some(u) ==> SweptAt(s.table, w, u))
  }

  ghost predicate SweptAt(t: Table<ConnId>, w: Sweep, u: UserId) {
    var target := Swept(w.start, w.stale);
    (u in t <==> u in target) && (u in t ==> t[u] == target[u])
  }

  predicate Examined(s: Bridge, w: Sweep, c: ConnId) {
    && c in s.conns && s.conns[c].user !in w.users
    && (w.user == Some(s.conns[c].user) ==> s.conns[c].device !in w.devices)
  }

  ghost predicate GoneExact(s: Bridge, w: Sweep) {
    && (forall c :: c in w.gone <==> c in w.stale && Examined(s, w, c))
    && w.removed == |w.gone|
  }

  ghost predicate AllSettled(s: Bridge, c: ConnId) {
    c in s.conns && forall o :: o in s.conns[c].pending ==>
      s.conns[c].pending[o] in s.outcomes && !s.outcomes[s.conns[c].pending[o]].Pending?
  }

  ghost predicate SweepHolds(s: Bridge) {
    s.sweep.Some? ==>
      var w := s.sweep.value;
      && SnapshotHolds(s, w) && Progress(s, w) && GoneExact(s, w)
      && forall c :: c in w.gone ==> AllSettled(s, c)
  }

  lemma SweepKnowsNextUser(s: Bridge)
    requires SweepHolds(s)
    ensures NextUserPresent(s)
  {
  }

  // ----- steps of others -----

  /** A connection the sweep has removed is no longer registered. */
  lemma GoneIsNotRegistered(s: Bridge, w: Sweep, c: ConnId)
    requires SnapshotHolds(s, w) && Progress(s, w) && GoneExact(s, w) && c in w.gone
    ensures !(IsRegistered(s.table, s.conns[c].user, s.conns[c].device)
              && s.table[s.conns[c].user].at[s.conns[c].device] == c)
  {
    var u, d := s.conns[c].user, s.conns[c].device;
    assert IsRegistered(w.start, u, d);
    assert d in DevicesOn(w.start[u], w.stale);
    if w.user != Some(u) {
      assert SweptAt(s.table, w, u);
    }
  }

  ghost predicate Undisturbed(s: Bridge, s': Bridge) {
    && s'.table == s.table && s'.sweep == s.sweep
    && (forall c :: c in s.conns ==>
          && c in s'.conns && s'.conns[c].user == s.conns[c].user
          && s'.conns[c].device == s.conns[c].device && s'.conns[c].lastSeen == s.conns[c].lastSeen)
    && (forall p :: p in s.outcomes ==>
          p in s'.outcomes && (!s.outcomes[p].Pending? ==> !s'.outcomes[p].Pending?))
  }

  /** Nothing was added to the pending entries of `c`. */
  ghost predicate NoNewEntry(s: Bridge, s': Bridge, c: ConnId) {
    && c in s.conns && c in s'.conns
    && forall o :: o in s'.conns[c].pending ==>
         o in s.conns[c].pending && s'.conns[c].pending[o] == s.conns[c].pending[o]
  }

  lemma UndisturbedKeepsSweep(s: Bridge, s': Bridge)
    requires SweepHolds(s) && Undisturbed(s, s')
    requires s.sweep.Some? ==> forall c :: c in s.sweep.value.gone ==> NoNewEntry(s, s', c)
    ensures SweepHolds(s')
  {
    if s.sweep.Some? {
      var w := s.sweep.value;
      forall c | c in w.stale ensures Examined(s', w, c) == Examined(s, w, c) {
        assert c in w.seen;
      }
      forall c | c in w.gone ensures AllSettled(s', c) {
        assert AllSettled(s, c) && NoNewEntry(s, s', c);
      }
      forall u | u !in w.users && w.user != Some(u) ensures SweptAt(s'.table, w, u) {
        assert SweptAt(s.table, w, u);
      }
    }
  }

  lemma LaunchedKeepsSweep(s: Bridge, p: PushId, u: UserId, order: OrderId, c: ConnId)
    requires SweepHolds(s) && p !in s.outcomes && c in s.conns
    requires IsRegistered(s.table, s.conns[c].user, s.conns[c].device)
    requires s.table[s.conns[c].user].at[s.conns[c].device] == c
    ensures SweepHolds(Launched(s, p, u, order, c))
  {
    var s' := Launched(s, p, u, order, c);
    if s.sweep.Some? {
      var w := s.sweep.value;
      forall g | g in w.gone ensures NoNewEntry(s, s', g) {
        GoneIsNotRegistered(s, w, g);
      }
    }
    assert Undisturbed(s, s');
    UndisturbedKeepsSweep(s, s');
  }

  lemma CheckedKeepsSweep(s: Bridge, order: OrderId)
    requires SweepHolds(s)
    ensures SweepHolds(Checked(s, order))
  {
    var s' := Checked(s, order);
    assert Undisturbed(s, s') && s'.conns == s.conns;
    UndisturbedKeepsSweep(s, s');
  }

  lemma AtOnceKeepsSweep(s: Bridge, p: PushId, u: UserId, order: OrderId, r: PushResult)
    requires SweepHolds(s)
    ensures SweepHolds(AtOnce(s, p, u, order, r))
  {
    var s' := AtOnce(s, p, u, order, r);
    assert Undisturbed(s, s') && s'.conns == s.conns;
    UndisturbedKeepsSweep(s, s');
  }

  lemma PushBeginsKeepsSweep(s: Bridge, p: PushId, u: UserId, order: OrderId)
    requires Shape(s) && SweepHolds(s) && p !in s.outcomes
    ensures SweepHolds(PushBeginsStep(s, p, u, order))
  {
    var s0 := Checked(s, order);
    CheckedKeepsShape(s, order);
    CheckedKeepsSweep(s, order);
    if order != "" && order in s0.delivered {
      AtOnceKeepsSweep(s0, p, u, order, DuplicateSkipped(order));
    } else {
      PrimaryIsLive(s0, u);
      match Primary(s0, u)
      case Some(c) => LaunchedKeepsSweep(s0, p, u, order, c);
      case None => AtOnceKeepsSweep(s0, p, u, order, NoDevice);
    }
  }

  lemma PoppedKeepsSweep(s: Bridge, c: ConnId, order: OrderId)
    requires SweepHolds(s)
    ensures SweepHolds(Popped(s, c, order))
  {
    var s' := Popped(s, c, order);
    assert Undisturbed(s, s');
    UndisturbedKeepsSweep(s, s');
  }

  /** The connections and the sweep stay as they are; futures may be completed. */
  lemma SameConnsKeepSweep(s: Bridge, s': Bridge)
    requires SweepHolds(s)
    requires s'.table == s.table && s'.sweep == s.sweep && s'.conns == s.conns
    requires forall p :: p in s.outcomes ==>
               p in s'.outcomes && (!s.outcomes[p].Pending? ==> !s'.outcomes[p].Pending?)
    ensures SweepHolds(s')
  {
    assert Undisturbed(s, s');
    UndisturbedKeepsSweep(s, s');
  }

  lemma PushResumesKeepsSweep(s: Bridge, p: PushId, late: bool)
    requires SweepHolds(s) && Enabled(s, PushResumes(p, late))
    ensures SweepHolds(PushResumesStep(s, p, late))
  {
    if s.outcomes[p].Acked? && !late {
      SameConnsKeepSweep(s, ResumeAcked(s, p, s.outcomes[p].ack));
    } else {
      var c, o := s.pushes[p].conn.value, s.pushes[p].order;
      PoppedKeepsSweep(s, c, o);
      SameConnsKeepSweep(Popped(s, c, o), ResumeFailed(s, p));
    }
  }

  lemma SendRaisesKeepsSweep(s: Bridge, p: PushId)
    requires SweepHolds(s) && InPhase(s, p, true)
    ensures SweepHolds(SendRaisesStep(s, p))
  {
    var c, o := s.pushes[p].conn.value, s.pushes[p].order;
    PoppedKeepsSweep(s, c, o);
    SameConnsKeepSweep(Popped(s, c, o), SendRaisesStep(s, p));
  }

  /** Steps that may run while the sweep holds the lock, other than a push's start. */
  lemma OtherStepKeepsSweep(s: Bridge, l: Label)
    requires SweepHolds(s) && s.sweep.Some? && Enabled(s, l)
    requires !l.PushBegins? && !l.SweepAdvances?
    ensures SweepHolds(Apply(s, l))
  {
    match l
    case SendRaises(p) => SendRaisesKeepsSweep(s, p);
    case PushResumes(p, late) => PushResumesKeepsSweep(s, p, late);
    case AckDeadline(p) => DeadlineKeepsSweep(s, p);
    case SendCompletes(p) => SendCompletesKeepsSweep(s, p);
    case AckArrives(t, u, d, ack) => AckArrivesKeepsSweep(s, t, u, d, ack);
    case Tick(now) => SameConnsKeepSweep(s, s.(now := now));
  }

  lemma DeadlineKeepsSweep(s: Bridge, p: PushId)
    requires SweepHolds(s)
    ensures SweepHolds(Settled(s, {p}, Cancelled))
  {
    SameConnsKeepSweep(s, Settled(s, {p}, Cancelled));
  }

  lemma SendCompletesKeepsSweep(s: Bridge, p: PushId)
    requires SweepHolds(s) && p in s.pushes
    ensures SweepHolds(SendCompletesStep(s, p))
  {
    SameConnsKeepSweep(s, SendCompletesStep(s, p));
  }

  lemma AckArrivesKeepsSweep(s: Bridge, t: TaskId, u: UserId, d: DeviceId, ack: Ack)
    requires SweepHolds(s)
    ensures SweepHolds(AckArrivesStep(s, t, u, d, ack))
  {
    SameConnsKeepSweep(s, AckArrivesStep(s, t, u, d, ack));
  }

  // ----- the sweep's own steps -----

  lemma SweepBeginsHolds(s: Bridge, at: Time, users: seq<UserId>)
    requires Shape(s) && Enabled(s, SweepBegins(at, users))
    ensures SweepHolds(SweepBeginsStep(s, at, users))
  {
    var s' := SweepBeginsStep(s, at, users);
    var w := s'.sweep.value;
    forall u, d | IsRegistered(w.start, u, d)
      ensures w.start[u].at[d] in w.seen
    {
      assert KeysMatch(s, u, d);
    }
    forall u | u !in w.users && w.user != Some(u) ensures SweptAt(s'.table, w, u) {
      assert u !in s.table;
    }
  }

  lemma SweepEntersProgress(s: Bridge, w: Sweep)
    requires SweepHolds(s) && s.sweep == Some(w) && w.user.None? && w.users != []
    ensures Progress(SweepEntersUser(s, w), SweepEntersUser(s, w).sweep.value)
  {
    var s' := SweepEntersUser(s, w);
    var w' := s'.sweep.value;
    var u := w.users[0];
    assert u in w.users && WellOrdered(w.start[u]);
    assert DroppedOf(w', u) == {};
    DropNothing(w.start[u]);
    assert s'.table[u] == Drop(w'.start[u], DroppedOf(w', u));
    forall v | v !in w'.users && w'.user != Some(v) ensures SweptAt(s'.table, w', v) {
      assert v !in w.users && SweptAt(s.table, w, v);
    }
  }

  lemma SweepEntersGone(s: Bridge, w: Sweep)
    requires SweepHolds(s) && s.sweep == Some(w) && w.user.None? && w.users != []
    ensures GoneExact(SweepEntersUser(s, w), SweepEntersUser(s, w).sweep.value)
  {
    var s' := SweepEntersUser(s, w);
    var w' := s'.sweep.value;
    forall c | c in w.stale ensures Examined(s', w', c) == Examined(s, w, c) {
      assert c in w.seen;
      var u := s.conns[c].user;
      assert u in w.users <==> u == w.users[0] || u in w.users[1..];
      if u == w.users[0] {
        assert WellOrdered(w.start[u]);
        assert s.conns[c].device in w'.devices;
      }
    }
  }

  lemma SweepEntersHolds(s: Bridge, w: Sweep)
    requires SweepHolds(s) && s.sweep == Some(w) && w.user.None? && w.users != []
    ensures SweepHolds(SweepEntersUser(s, w))
  {
    var s' := SweepEntersUser(s, w);
    SweepEntersProgress(s, w);
    SweepEntersGone(s, w);
    forall c | c in w.gone ensures AllSettled(s', c) {
      assert AllSettled(s, c);
    }
  }

  lemma SweepLeavesHolds(s: Bridge, w: Sweep, u: UserId)
    requires Shape(s) && SweepHolds(s) && s.sweep == Some(w) && w.user == Some(u) && w.devices == []
    ensures SweepHolds(SweepLeavesUser(s, w, u))
  {
    var s' := SweepLeavesUser(s, w, u);
    var w' := s'.sweep.value;
    assert DroppedOf(w, u) == DevicesOn(w.start[u], w.stale);
    assert s.table[u] == Kept(w.start[u], w.stale);
    forall v | v !in w'.users && w'.user != Some(v) ensures SweptAt(s'.table, w', v) {
      if v != u {
        assert SweptAt(s.table, w, v);
      }
    }
    forall c | c in w.stale ensures Examined(s', w', c) == Examined(s, w, c) {
      assert c in w.seen;
    }
    forall c | c in w'.gone ensures AllSettled(s', c) {
      assert AllSettled(s, c);
    }
  }

  /** What the sweep looks up next is there: neither subscript can fail. */
  lemma SweepFindsDevice(s: Bridge, w: Sweep, u: UserId)
    requires SweepHolds(s) && s.sweep == Some(w) && w.user == Some(u) && w.devices != []
    ensures IsRegistered(s.table, u, w.devices[0])
    ensures s.table[u].at[w.devices[0]] == w.start[u].at[w.devices[0]]
    ensures s.table[u].at[w.devices[0]] in s.conns
  {
    var d := w.devices[0];
    assert d in w.devices && d in w.start[u].at;
    assert IsRegistered(w.start, u, d);
    assert d !in DroppedOf(w, u);
  }

  /** The head of the remaining devices joins the dropped ones exactly when it is stale. */
  lemma DroppedGrows(w: Sweep, w': Sweep, u: UserId, d: DeviceId)
    requires u in w.start && w.devices != [] && d == w.devices[0] && NoDuplicates(w.devices)
    requires d in w.start[u].at
    requires w'.start == w.start && w'.stale == w.stale && w'.devices == w.devices[1..]
    ensures DroppedOf(w', u) == if w.start[u].at[d] in w.stale then DroppedOf(w, u) + {d} else DroppedOf(w, u)
  {
    assert forall e :: e in w.devices <==> e == d || e in w'.devices;
    assert d !in w'.devices;
  }

  lemma SweepRemovesCurrent(s: Bridge, w: Sweep, w': Sweep, u: UserId, d: DeviceId)
    requires SnapshotHolds(s, w) && Progress(s, w) && w.user == Some(u) && w.devices != [] && d == w.devices[0]
    requires w.start[u].at[d] in w.stale
    requires w'.start == w.start && w'.stale == w.stale && w'.devices == w.devices[1..]
    ensures Drop(s.table[u], {d}) == Drop(w'.start[u], DroppedOf(w', u))
    ensures NoDuplicates(w'.devices) && forall e :: e in w'.devices ==> e in w.start[u].at
  {
    assert d in w.devices;
    DroppedGrows(w, w', u, d);
    DropTwice(w.start[u], DroppedOf(w, u), {d});
  }

  lemma SweptElsewhere(t: Table<ConnId>, t': Table<ConnId>, w: Sweep, w': Sweep, u: UserId)
    requires forall v :: v !in w.users && w.user != Some(v) ==> SweptAt(t, w, v)
    requires w' == w.(devices := w'.devices, removed := w'.removed, gone := w'.gone) && w.user == Some(u)
    requires u in t && u in t' && t' == t[u := t'[u]]
    ensures forall v :: v !in w'.users && w'.user != Some(v) ==> SweptAt(t', w', v)
  {
    forall v | v !in w'.users && w'.user != Some(v) ensures SweptAt(t', w', v) {
      assert SweptAt(t, w, v);
    }
  }

  lemma SweepRemovesProgress(s: Bridge, w: Sweep, u: UserId, d: DeviceId, c: ConnId)
    requires SweepHolds(s) && s.sweep == Some(w) && w.user == Some(u) && w.devices != [] && d == w.devices[0]
    requires d in w.start[u].at && c == w.start[u].at[d] && c in s.conns && c in w.stale
    ensures Progress(SweepRemoves(s, w, u, d, c), SweepRemoves(s, w, u, d, c).sweep.value)
  {
    var s' := SweepRemoves(s, w, u, d, c);
    var w' := s'.sweep.value;
    SweepRemovesCurrent(s, w, w', u, d);
    SweptElsewhere(s.table, s'.table, w, w', u);
  }

  /** Looking at one more device changes the verdict on the connection at that device only. */
  lemma ExaminesOneMore(s: Bridge, s': Bridge, w: Sweep, w': Sweep, u: UserId, d: DeviceId, e: ConnId)
    requires SnapshotHolds(s, w) && Progress(s, w)
    requires w.user == Some(u) && w.devices != [] && d == w.devices[0]
    requires w'.users == w.users && w'.user == w.user && w'.devices == w.devices[1..]
    requires s'.conns == s.conns && e in w.stale
    ensures Examined(s', w', e) <==> Examined(s, w, e) || e == w.start[u].at[d]
    ensures e == w.start[u].at[d] ==> !Examined(s, w, e)
  {
    assert d in w.devices && d in w.start[u].at && IsRegistered(w.start, u, d);
    assert e in w.seen;
    assert forall x :: x in w.devices <==> x == d || x in w'.devices;
    assert d !in w'.devices;
  }

  lemma SweepRemovesGone(s: Bridge, w: Sweep, u: UserId, d: DeviceId, c: ConnId)
    requires SweepHolds(s) && s.sweep == Some(w) && w.user == Some(u) && w.devices != [] && d == w.devices[0]
    requires d in w.start[u].at && c == w.start[u].at[d] && c in s.conns && c in w.stale
    ensures GoneExact(SweepRemoves(s, w, u, d, c), SweepRemoves(s, w, u, d, c).sweep.value)
  {
    var s' := SweepRemoves(s, w, u, d, c);
    var w' := s'.sweep.value;
    ExaminesOneMore(s, s', w, w', u, d, c);
    assert c !in w.gone && w'.gone == w.gone + {c} && w'.stale == w.stale;
    forall e ensures e in w'.gone <==> e in w.stale && Examined(s', w', e) {
      if e in w.stale {
        ExaminesOneMore(s, s', w, w', u, d, e);
      }
    }
  }

  lemma SweepRemovesHolds(s: Bridge, w: Sweep, u: UserId, d: DeviceId, c: ConnId)
    requires SweepHolds(s) && PendingOwned(s)
    requires s.sweep == Some(w) && w.user == Some(u) && w.devices != [] && d == w.devices[0]
    requires d in w.start[u].at && c == w.start[u].at[d] && c in s.conns && c in w.stale
    ensures SweepHolds(SweepRemoves(s, w, u, d, c))
  {
    var s' := SweepRemoves(s, w, u, d, c);
    var w' := s'.sweep.value;
    SweepRemovesProgress(s, w, u, d, c);
    SweepRemovesGone(s, w, u, d, c);
    forall e | e in w'.gone ensures AllSettled(s', e) {
      if e != c {
        assert AllSettled(s, e);
      } else {
        forall o | o in s.conns[c].pending ensures s.conns[c].pending[o] in s'.outcomes {
          assert Owned(s, c, o);
        }
      }
    }
  }

  lemma SweepSkipsHolds(s: Bridge, w: Sweep, u: UserId)
    requires SweepHolds(s) && s.sweep == Some(w) && w.user == Some(u) && w.devices != []
    requires w.devices[0] in w.start[u].at && w.start[u].at[w.devices[0]] !in w.stale
    ensures SweepHolds(s.(sweep := Some(w.(devices := w.devices[1..]))))
  {
    var w' := w.(devices := w.devices[1..]);
    var s' := s.(sweep := Some(w'));
    DroppedGrows(w, w', u, w.devices[0]);
    forall v | v !in w'.users && w'.user != Some(v) ensures SweptAt(s'.table, w', v) {
      assert SweptAt(s.table, w, v);
    }
    forall e | e in w.stale ensures Examined(s', w', e) == Examined(s, w, e) {
      ExaminesOneMore(s, s', w, w', u, w.devices[0], e);
    }
    forall e | e in w'.gone ensures AllSettled(s', e) {
      assert AllSettled(s, e);
    }
  }

  lemma SweepVisitsHolds(s: Bridge, w: Sweep, u: UserId)
    requires SweepHolds(s) && PendingOwned(s)
    requires s.sweep == Some(w) && w.user == Some(u) && w.devices != []
    ensures SweepHolds(SweepVisits(s, w, u))
  {
    SweepFindsDevice(s, w, u);
    var d := w.devices[0];
    var c := s.table[u].at[d];
    assert IsRegistered(w.start, u, d);
    if c in w.stale {
      SweepRemovesHolds(s, w, u, d, c);
    } else {
      SweepSkipsHolds(s, w, u);
    }
  }

  lemma StepKeepsSweep(s: Bridge, l: Label)
    requires Shape(s) && PendingOwned(s) && SweepHolds(s) && Enabled(s, l)
    ensures SweepHolds(Apply(s, l))
  {
    match l
    case SweepBegins(at, users) => SweepBeginsHolds(s, at, users);
    case SweepAdvances =>
      var w := s.sweep.value;
      match w.user {
        case None => if w.users != [] { SweepEntersHolds(s, w); }
        case Some(u) =>
          if w.devices == [] { SweepLeavesHolds(s, w, u); } else { SweepVisitsHolds(s, w, u); }
      }
    case PushBegins(p, u, order) => PushBeginsKeepsSweep(s, p, u, order);
    case _ => if s.sweep.Some? { OtherStepKeepsSweep(s, l); } else { NoSweepStaysSo(s, l); }
  }

  lemma NoSweepStaysSo(s: Bridge, l: Label)
    requires s.sweep.None? && Enabled(s, l) && !l.SweepBegins? && !l.PushBegins? && !l.SweepAdvances?
    ensures Apply(s, l).sweep.None?
  {
  }

  /**
   * The sweep is about to return. The registry is the one it started from minus exactly the
   * connections stale at the captured time, the survivors' last-seen times are untouched,
   * every future pending on a removed connection is completed, and the count is right.
   */
  lemma SweepIsExact(s: Bridge)
    requires SweepHolds(s) && s.sweep.Some? && s.sweep.value.user.None? && s.sweep.value.users == []
    ensures var w := s.sweep.value;
            && s.table == Swept(w.start, w.stale)
            && w.removed == |w.stale|
            && (forall c :: c in w.seen ==> c in s.conns && s.conns[c].lastSeen == w.seen[c])
            && (forall c :: c in w.stale ==> AllSettled(s, c))
            && SweepAdvancesStep(s) == s.(sweep := None)
  {
    var w := s.sweep.value;
    SweptEverywhere(s.table, w);
    assert w.gone == w.stale by {
      forall c | c in w.stale ensures c in w.gone {
        assert c in w.seen;
        assert Examined(s, w, c);
      }
    }
  }

  lemma SweptEverywhere(t: Table<ConnId>, w: Sweep)
    requires forall u :: u !in w.users && w.user != Some(u) ==> SweptAt(t, w, u)
    requires w.user.None? && w.users == []
    ensures t == Swept(w.start, w.stale)
  {
    var target := Swept(w.start, w.stale);
    forall u ensures (u in t <==> u in target) && (u in t ==> t[u] == target[u]) {
      assert u !in w.users && w.user != Some(u);
      assert SweptAt(t, w, u);
    }
  }
}
