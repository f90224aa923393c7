/**
 * Where successes come from, and what the pruned map of delivered orders remembers.
 */
module BridgeHistory {
  import opened Prelude
  import opened DeviceTable
  import opened BridgeProtocol
  import opened BridgeInvariants

  // ----- the delivered map against the history of marks -----

  ghost predicate MarkRemembered(s: Bridge, i: int)
    requires 0 <= i < |s.marks|
  {
    var m := s.marks[i];
    && m.at <= s.now
    && ((m.order in s.delivered && s.delivered[m.order] >= m.at) || s.now - m.at > DELIVERED_ORDER_TTL_SEC)
  }

  ghost predicate EntryFromMark(s: Bridge, o: OrderId)
    requires o in s.delivered
  {
    exists i :: 0 <= i < |s.marks| && s.marks[i].order == o && s.marks[i].at == s.delivered[o]
  }

  ghost predicate DeliveredFaithful(s: Bridge) {
    && (forall i :: 0 <= i < |s.marks| ==> MarkRemembered(s, i))
    && (forall o :: o in s.delivered ==> EntryFromMark(s, o))
  }

  lemma DeliveredFrame(s: Bridge, s': Bridge)
    requires DeliveredFaithful(s)
    requires s'.delivered == s.delivered && s'.marks == s.marks && s.now <= s'.now
    ensures DeliveredFaithful(s')
  {
    forall i | 0 <= i < |s'.marks| ensures MarkRemembered(s', i) {
      assert MarkRemembered(s, i);
    }
    forall o | o in s'.delivered ensures EntryFromMark(s', o) {
      assert EntryFromMark(s, o);
    }
  }

  lemma CheckedKeepsDelivered(s: Bridge, order: OrderId)
    requires DeliveredFaithful(s)
    ensures DeliveredFaithful(Checked(s, order))
  {
    var s' := Checked(s, order);
    forall i | 0 <= i < |s'.marks| ensures MarkRemembered(s', i) {
      assert MarkRemembered(s, i);
    }
    forall o | o in s'.delivered ensures EntryFromMark(s', o) {
      assert EntryFromMark(s, o);
    }
  }

  lemma MarkedKeepsDelivered(s: Bridge, order: OrderId, p: PushId)
    requires DeliveredFaithful(s)
    ensures DeliveredFaithful(Marked(s, order, p))
  {
    var s' := Marked(s, order, p);
    forall i | 0 <= i < |s'.marks| ensures MarkRemembered(s', i) {
      if i < |s.marks| {
        assert MarkRemembered(s, i);
      }
    }
    forall o | o in s'.delivered ensures EntryFromMark(s', o) {
      if o != order {
        assert EntryFromMark(s, o);
        var i :| 0 <= i < |s.marks| && s.marks[i].order == o && s.marks[i].at == s.delivered[o];
        assert s'.marks[i] == s.marks[i];
      } else {
        assert s'.marks[|s.marks|] == Mark(order, s.now, p);
      }
    }
  }

  lemma LaunchedKeepsDelivered(s: Bridge, p: PushId, u: UserId, order: OrderId, c: ConnId)
    requires DeliveredFaithful(s) && c in s.conns
    ensures DeliveredFaithful(Launched(s, p, u, order, c))
  {
    DeliveredFrame(s, Launched(s, p, u, order, c));
  }

  lemma AtOnceKeepsDelivered(s: Bridge, p: PushId, u: UserId, order: OrderId, r: PushResult)
    requires DeliveredFaithful(s)
    ensures DeliveredFaithful(AtOnce(s, p, u, order, r))
  {
    DeliveredFrame(s, AtOnce(s, p, u, order, r));
  }

  lemma PushBeginsKeepsDelivered(s: Bridge, p: PushId, u: UserId, order: OrderId)
    requires DeliveredFaithful(s)
    ensures DeliveredFaithful(PushBeginsStep(s, p, u, order))
  {
    var s0 := Checked(s, order);
    CheckedKeepsDelivered(s, order);
    if order != "" && order in s0.delivered {
      AtOnceKeepsDelivered(s0, p, u, order, DuplicateSkipped(order));
    } else {
      match Primary(s0, u)
      case Some(c) => if c in s0.conns { LaunchedKeepsDelivered(s0, p, u, order, c); }
      case None => AtOnceKeepsDelivered(s0, p, u, order, NoDevice);
    }
  }

  lemma ResumeAckedKeepsDelivered(s: Bridge, p: PushId, ack: Ack)
    requires DeliveredFaithful(s) && p in s.pushes
    ensures DeliveredFaithful(ResumeAcked(s, p, ack))
  {
    var order := if ack.id != "" then ack.id else s.pushes[p].order;
    var phase := Done(Acknowledged(order, AckOk(ack)));
    if AckOk(ack) && order != "" {
      MarkedKeepsDelivered(s, order, p);
      DeliveredFrame(Marked(s, order, p), WithPhase(Marked(s, order, p), p, phase));
    } else {
      DeliveredFrame(s, WithPhase(s, p, phase));
    }
  }

  lemma SweepAdvancesKeepsDelivered(s: Bridge)
    requires DeliveredFaithful(s) && s.sweep.Some?
    ensures DeliveredFaithful(SweepAdvancesStep(s))
  {
    var w := s.sweep.value;
    match w.user
    case None =>
      if w.users == [] { DeliveredFrame(s, s.(sweep := None)); }
      else { DeliveredFrame(s, SweepEntersUser(s, w)); }
    case Some(u) =>
      if w.devices == [] { DeliveredFrame(s, SweepLeavesUser(s, w, u)); } else { SweepVisitsKeepsDelivered(s, w, u); }
  }

  lemma SweepVisitsKeepsDelivered(s: Bridge, w: Sweep, u: UserId)
    requires DeliveredFaithful(s) && w.devices != []
    ensures DeliveredFaithful(SweepVisits(s, w, u))
  {
    SweepVisitsMarksNothing(s, w, u);
    DeliveredFrame(s, SweepVisits(s, w, u));
  }

  lemma SweepVisitsMarksNothing(s: Bridge, w: Sweep, u: UserId)
    requires w.devices != []
    ensures var s' := SweepVisits(s, w, u);
            s'.delivered == s.delivered && s'.marks == s.marks && s'.now == s.now
  {
  }

  /** Steps that neither mark nor prune. */
  lemma OtherStepKeepsDelivered(s: Bridge, l: Label)
    requires DeliveredFaithful(s) && Enabled(s, l)
    requires !l.PushBegins? && !l.PushResumes? && !l.SweepAdvances?
    ensures DeliveredFaithful(Apply(s, l))
  {
    match l
    case Tick(now) => DeliveredFrame(s, s.(now := now));
    case Register(u, d, c) => DeliveredFrame(s, RegisterStep(s, u, d, c));
    case Unregister(u, d) => DeliveredFrame(s, UnregisterStep(s, u, d));
    case Touch(u, d) => DeliveredFrame(s, TouchStep(s, u, d));
    case AckArrives(t, u, d, ack) => DeliveredFrame(s, AckArrivesStep(s, t, u, d, ack));
    case AckResumes(t) => AckResumesKeepsDelivered(s, t);
    case SendCompletes(p) => DeliveredFrame(s, SendCompletesStep(s, p));
    case SendRaises(p) => DeliveredFrame(s, SendRaisesStep(s, p));
    case SendFailureUnregisters(p) => DeliveredFrame(s, SendFailureUnregistersStep(s, p));
    case AckDeadline(p) => DeliveredFrame(s, Settled(s, {p}, Cancelled));
    case SweepBegins(at, users) => DeliveredFrame(s, SweepBeginsStep(s, at, users));
  }

  lemma AckResumesKeepsDelivered(s: Bridge, t: TaskId)
    requires DeliveredFaithful(s) && t in s.tasks
    ensures DeliveredFaithful(AckResumesStep(s, t))
  {
    DeliveredFrame(s, AckResumesStep(s, t));
  }

  lemma StepKeepsDelivered(s: Bridge, l: Label)
    requires DeliveredFaithful(s) && Enabled(s, l)
    ensures DeliveredFaithful(Apply(s, l))
  {
    match l
    case PushBegins(p, u, order) => PushBeginsKeepsDelivered(s, p, u, order);
    case PushResumes(p, late) =>
      if s.outcomes[p].Acked? && !late { ResumeAckedKeepsDelivered(s, p, s.outcomes[p].ack); }
      else { DeliveredFrame(s, ResumeFailed(s, p)); }
    case SweepAdvances => SweepAdvancesKeepsDelivered(s);
    case _ => OtherStepKeepsDelivered(s, l);
  }

  // ----- where successes come from -----

  /** A message with the push's own order id was handled for the push's own user and device. */
  ghost predicate HeardFor(s: Bridge, p: PushId, ack: Ack)
    requires p in s.pushes
  {
    var push := s.pushes[p];
    && push.order != "" && ack.id == push.order
    && push.conn.Some? && push.conn.value in s.conns
    && Heard(push.user, s.conns[push.conn.value].device, ack) in s.heard
  }

  ghost predicate TaskFaithful(s: Bridge, t: TaskId)
    requires t in s.tasks
  {
    var task := s.tasks[t];
    && task.conn in s.conns
    && s.conns[task.conn].user == task.user && s.conns[task.conn].device == task.device
    && Heard(task.user, task.device, task.ack) in s.heard
  }

  ghost predicate MarkedOrder(s: Bridge, o: OrderId) {
    exists i :: 0 <= i < |s.marks| && s.marks[i].order == o
  }

  ghost predicate ResultFaithful(s: Bridge, p: PushId)
    requires p in s.pushes
  {
    var push := s.pushes[p];
    match push.phase
    case Waiting(_) => push.sent
    case Done(Acknowledged(order, ok)) =>
      && push.sent && order == push.order
      && p in s.outcomes && s.outcomes[p].Acked? && ok == AckOk(s.outcomes[p].ack)
    case Done(DuplicateSkipped(order)) =>
      !push.sent && push.conn.None? && order == push.order && MarkedOrder(s, order)
    case Done(NoAck) => push.sent
    case Done(NoDevice) => !push.sent && push.conn.None?
    case _ => !push.sent
  }

  ghost predicate MarkFaithful(s: Bridge, i: int)
    requires 0 <= i < |s.marks|
  {
    var m := s.marks[i];
    m.push in s.pushes && s.pushes[m.push].phase == Done(Acknowledged(m.order, true))
  }

  ghost predicate OutcomeFaithful(s: Bridge, p: PushId)
    requires p in s.outcomes
  {
    p in s.pushes && (s.outcomes[p].Acked? ==> HeardFor(s, p, s.outcomes[p].ack))
  }

  ghost predicate Attributed(s: Bridge) {
    && (forall t :: t in s.tasks ==> TaskFaithful(s, t))
    && (forall p :: p in s.outcomes ==> OutcomeFaithful(s, p))
    && (forall p :: p in s.pushes ==> ResultFaithful(s, p))
    && (forall i :: 0 <= i < |s.marks| ==> MarkFaithful(s, i))
  }

  /** What a step may do to a push without making it succeed. */
  ghost predicate Moves(a: Push, b: Push) {
    || b == a
    || (&& b.user == a.user && b.order == a.order && b.conn == a.conn
        && !a.phase.Done?
        && ((b.phase == Done(SendFailure) && !b.sent) || (b.phase == Done(NoAck) && b.sent)
            || (b.phase.Waiting? && b.sent) || (b.phase.SendFailed? && !b.sent)))
  }

  ghost predicate Quiet(s: Bridge, s': Bridge) {
    && s'.marks == s.marks && s.heard <= s'.heard
    && s'.pushes.Keys == s.pushes.Keys
    && (forall p :: p in s.pushes ==> Moves(s.pushes[p], s'.pushes[p]))
    && s'.outcomes.Keys == s.outcomes.Keys
    && (forall p :: p in s.outcomes && (s.outcomes[p].Acked? || s'.outcomes[p].Acked?)
          ==> s'.outcomes[p] == s.outcomes[p])
  }

  lemma QuietKeepsAttributed(s: Bridge, s': Bridge)
    requires Attributed(s) && Quiet(s, s') && KeysKept(s, s')
    requires forall t :: t in s'.tasks ==> t in s.tasks && s'.tasks[t] == s.tasks[t]
    ensures Attributed(s')
  {
    forall t | t in s'.tasks ensures TaskFaithful(s', t) {
      assert TaskFaithful(s, t);
    }
    forall p | p in s'.outcomes ensures OutcomeFaithful(s', p) {
      assert OutcomeFaithful(s, p) && Moves(s.pushes[p], s'.pushes[p]);
    }
    forall p | p in s'.pushes ensures ResultFaithful(s', p) {
      assert ResultFaithful(s, p) && Moves(s.pushes[p], s'.pushes[p]);
    }
    forall i | 0 <= i < |s'.marks| ensures MarkFaithful(s', i) {
      assert MarkFaithful(s, i);
      assert Moves(s.pushes[s.marks[i].push], s'.pushes[s.marks[i].push]);
    }
  }

  lemma AckArrivesKeepsAttributed(s: Bridge, t: TaskId, u: UserId, d: DeviceId, ack: Ack)
    requires Shape(s) && Attributed(s) && t !in s.tasks
    ensures Attributed(AckArrivesStep(s, t, u, d, ack))
  {
    if IsRegistered(s.table, u, d) {
      assert KeysMatch(s, u, d);
      var heard := s.(heard := s.heard + {Heard(u, d, ack)});
      QuietKeepsAttributed(s, heard);
      var s' := AckArrivesStep(s, t, u, d, ack);
      forall t' | t' in s'.tasks ensures TaskFaithful(s', t') {
        assert t' != t ==> TaskFaithful(heard, t');
      }
      forall p | p in s'.outcomes ensures OutcomeFaithful(s', p) {
        assert OutcomeFaithful(heard, p);
      }
      forall p | p in s'.pushes ensures ResultFaithful(s', p) {
        assert ResultFaithful(heard, p);
      }
      forall i | 0 <= i < |s'.marks| ensures MarkFaithful(s', i) {
        assert MarkFaithful(heard, i);
      }
    }
  }

  /** Completing the future found under the ack's own id in the ack's own connection. */
  lemma AckCompletesKeepsAttributed(s: Bridge, t: TaskId, p: PushId)
    requires Attributed(s) && t in s.tasks && p in s.pushes && p in s.outcomes
    requires s.pushes[p].conn == Some(s.tasks[t].conn)
    requires s.pushes[p].order == s.tasks[t].ack.id && s.tasks[t].ack.id != ""
    requires PushWellFormed(s, p) && !s.pushes[p].phase.Done?
    ensures Attributed(Settled(s, {p}, Acked(s.tasks[t].ack)))
  {
    var s' := Settled(s, {p}, Acked(s.tasks[t].ack));
    assert TaskFaithful(s, t);
    forall t' | t' in s'.tasks ensures TaskFaithful(s', t') {
      assert TaskFaithful(s, t');
    }
    forall q | q in s'.outcomes ensures OutcomeFaithful(s', q) {
      assert OutcomeFaithful(s, q);
    }
    forall q | q in s'.pushes ensures ResultFaithful(s', q) {
      assert ResultFaithful(s, q);
    }
    forall i | 0 <= i < |s'.marks| ensures MarkFaithful(s', i) {
      assert MarkFaithful(s, i);
    }
  }

  lemma PoppedKeepsAttributed(s: Bridge, c: ConnId, order: OrderId)
    requires Attributed(s)
    ensures Attributed(Popped(s, c, order))
  {
    PoppedKeepsKeys(s, c, order);
    QuietKeepsAttributed(s, Popped(s, c, order));
  }

  lemma AckResumesKeepsAttributed(s: Bridge, t: TaskId)
    requires Attributed(s) && PendingOwned(s) && t in s.tasks
    ensures Attributed(AckResumesStep(s, t))
  {
    var task := s.tasks[t];
    var s0 := TouchStep(s, task.user, task.device);
    TouchKeepsAttributed(s, task.user, task.device);
    TouchKeepsPending(s, task.user, task.device);
    var pending := PendingOf(s0, task.conn);
    if task.ack.id in pending {
      var p := pending[task.ack.id];
      assert Owned(s0, task.conn, task.ack.id);
      var s1 := Popped(s0, task.conn, task.ack.id);
      PoppedKeepsPending(s0, task.conn, task.ack.id);
      PoppedKeepsAttributed(s0, task.conn, task.ack.id);
      AckCompletesKeepsAttributed(s1, t, p);
      QuietKeepsAttributed(Settled(s1, {p}, Acked(task.ack)), AckResumesStep(s, t));
    } else {
      QuietKeepsAttributed(s0, AckResumesStep(s, t));
    }
  }

  lemma NewPushKeepsAttributed(s: Bridge, s': Bridge, p: PushId)
    requires Attributed(s) && KeysKept(s, s') && p !in s.pushes && p !in s.outcomes
    requires s'.tasks == s.tasks && s'.heard == s.heard && s'.marks == s.marks
    requires p in s'.pushes && s'.pushes == s.pushes[p := s'.pushes[p]]
    requires s'.outcomes == s.outcomes || s'.outcomes == s.outcomes[p := Pending]
    requires ResultFaithful(s', p)
    ensures Attributed(s')
  {
    forall t | t in s'.tasks ensures TaskFaithful(s', t) {
      assert TaskFaithful(s, t);
    }
    forall q | q in s'.outcomes ensures OutcomeFaithful(s', q) {
      assert q != p ==> OutcomeFaithful(s, q);
    }
    forall q | q in s'.pushes ensures ResultFaithful(s', q) {
      assert q != p ==> ResultFaithful(s, q);
    }
    forall i | 0 <= i < |s'.marks| ensures MarkFaithful(s', i) {
      assert MarkFaithful(s, i);
    }
  }

  lemma LaunchedKeepsAttributed(s: Bridge, p: PushId, u: UserId, order: OrderId, c: ConnId)
    requires Attributed(s) && p !in s.pushes && p !in s.outcomes && c in s.conns
    ensures Attributed(Launched(s, p, u, order, c))
  {
    var s' := Launched(s, p, u, order, c);
    assert KeysKept(s, s');
    NewPushKeepsAttributed(s, s', p);
  }

  lemma AtOnceKeepsAttributed(s: Bridge, p: PushId, u: UserId, order: OrderId, r: PushResult)
    requires Attributed(s) && p !in s.pushes && p !in s.outcomes
    requires r.NoDevice? || (r == DuplicateSkipped(order) && MarkedOrder(s, order))
    ensures Attributed(AtOnce(s, p, u, order, r))
  {
    NewPushKeepsAttributed(s, AtOnce(s, p, u, order, r), p);
  }

  lemma CheckedKeepsAttributed(s: Bridge, order: OrderId)
    requires Attributed(s)
    ensures Attributed(Checked(s, order))
  {
    var s' := Checked(s, order);
    assert s'.pushes == s.pushes && s'.outcomes == s.outcomes && s'.conns == s.conns;
    assert s'.tasks == s.tasks && s'.heard == s.heard && s'.marks == s.marks;
    assert Quiet(s, s') && KeysKept(s, s');
    QuietKeepsAttributed(s, s');
  }

  lemma DeliveredIsMarked(s: Bridge, order: OrderId)
    requires DeliveredFaithful(s) && order in s.delivered
    ensures MarkedOrder(s, order)
  {
    assert EntryFromMark(s, order);
  }

  lemma PushBeginsKeepsAttributed(s: Bridge, p: PushId, u: UserId, order: OrderId)
    requires Shape(s) && Attributed(s) && DeliveredFaithful(s) && p !in s.pushes && p !in s.outcomes
    ensures Attributed(PushBeginsStep(s, p, u, order))
  {
    var s0 := Checked(s, order);
    CheckedKeepsShape(s, order);
    CheckedKeepsAttributed(s, order);
    if order != "" && order in s0.delivered {
      CheckedKeepsDelivered(s, order);
      DeliveredIsMarked(s0, order);
      AtOnceKeepsAttributed(s0, p, u, order, DuplicateSkipped(order));
    } else {
      PrimaryIsLive(s0, u);
      match Primary(s0, u)
      case Some(c) => LaunchedKeepsAttributed(s0, p, u, order, c);
      case None => AtOnceKeepsAttributed(s0, p, u, order, NoDevice);
    }
  }

  lemma ResumeAckedKeepsAttributed(s: Bridge, p: PushId)
    requires Attributed(s) && Enabled(s, PushResumes(p, false)) && s.outcomes[p].Acked?
    ensures Attributed(ResumeAcked(s, p, s.outcomes[p].ack))
  {
    var s' := ResumeAcked(s, p, s.outcomes[p].ack);
    assert ResultFaithful(s, p) && OutcomeFaithful(s, p);
    forall t | t in s'.tasks ensures TaskFaithful(s', t) {
      assert TaskFaithful(s, t);
    }
    forall q | q in s'.outcomes ensures OutcomeFaithful(s', q) {
      assert OutcomeFaithful(s, q);
    }
    forall q | q in s'.pushes ensures ResultFaithful(s', q) {
      ResumeAckedKeepsResult(s, p, q);
    }
    forall i | 0 <= i < |s'.marks| ensures MarkFaithful(s', i) {
      if i < |s.marks| {
        assert MarkFaithful(s, i);
      }
    }
  }

  lemma ResumeAckedKeepsResult(s: Bridge, p: PushId, q: PushId)
    requires Attributed(s) && Enabled(s, PushResumes(p, false)) && s.outcomes[p].Acked? && q in s.pushes
    ensures ResultFaithful(ResumeAcked(s, p, s.outcomes[p].ack), q)
  {
    var s' := ResumeAcked(s, p, s.outcomes[p].ack);
    assert ResultFaithful(s, q) && OutcomeFaithful(s, p);
    if q != p && s.pushes[q].phase.Done? && s.pushes[q].phase.result.DuplicateSkipped? {
      var i :| 0 <= i < |s.marks| && s.marks[i].order == s.pushes[q].order;
      assert s'.marks[i] == s.marks[i];
    }
  }

  lemma StepKeepsAttributed(s: Bridge, l: Label)
    requires Shape(s) && PendingOwned(s) && DeliveredFaithful(s) && Attributed(s) && Enabled(s, l)
    ensures Attributed(Apply(s, l))
  {
    match l
    case AckArrives(t, u, d, ack) => AckArrivesKeepsAttributed(s, t, u, d, ack);
    case AckResumes(t) => AckResumesKeepsAttributed(s, t);
    case PushBegins(p, u, order) => PushBeginsKeepsAttributed(s, p, u, order);
    case PushResumes(p, late) =>
      if s.outcomes[p].Acked? && !late { ResumeAckedKeepsAttributed(s, p); }
      else { ResumeFailedKeepsAttributed(s, p); }
    case SweepAdvances => SweepAdvancesKeepsAttributed(s);
    case SendRaises(p) => SendRaisesKeepsAttributed(s, p);
    case _ => OtherStepKeepsAttributed(s, l);
  }

  lemma ResumeFailedKeepsAttributed(s: Bridge, p: PushId)
    requires Attributed(s) && InPhase(s, p, false)
    ensures Attributed(ResumeFailed(s, p))
  {
    PoppedKeepsKeys(s, s.pushes[p].conn.value, s.pushes[p].order);
    QuietKeepsAttributed(s, ResumeFailed(s, p));
  }

  lemma SendRaisesKeepsAttributed(s: Bridge, p: PushId)
    requires Attributed(s) && InPhase(s, p, true)
    ensures Attributed(SendRaisesStep(s, p))
  {
    assert ResultFaithful(s, p);
    PoppedKeepsKeys(s, s.pushes[p].conn.value, s.pushes[p].order);
    QuietKeepsAttributed(s, SendRaisesStep(s, p));
  }

  /** Steps that can neither complete a future with an ack nor finish a push well. */
  lemma OtherStepKeepsAttributed(s: Bridge, l: Label)
    requires Attributed(s) && Enabled(s, l)
    requires l.Tick? || l.Register? || l.Unregister? || l.Touch? || l.SendCompletes?
          || l.SendFailureUnregisters? || l.AckDeadline? || l.SweepBegins?
    ensures Attributed(Apply(s, l))
  {
    match l
    case Register(u, d, c) => RegisterKeepsAttributed(s, u, d, c);
    case Unregister(u, d) => UnregisterKeepsAttributed(s, u, d);
    case Touch(u, d) => TouchKeepsAttributed(s, u, d);
    case SendCompletes(p) => SendCompletesKeepsAttributed(s, p);
    case SendFailureUnregisters(p) => SendFailureKeepsAttributed(s, p);
    case AckDeadline(p) => SettledKeepsAttributed(s, {p}, Cancelled);
    case SweepBegins(at, users) => QuietKeepsAttributed(s, SweepBeginsStep(s, at, users));
    case Tick(now) => QuietKeepsAttributed(s, s.(now := now));
  }

  lemma RegisterKeepsAttributed(s: Bridge, u: UserId, d: DeviceId, c: ConnId)
    requires Attributed(s) && c !in s.conns
    ensures Attributed(RegisterStep(s, u, d, c))
  {
    assert KeysKept(s, RegisterStep(s, u, d, c));
    QuietKeepsAttributed(s, RegisterStep(s, u, d, c));
  }

  lemma SendCompletesKeepsAttributed(s: Bridge, p: PushId)
    requires Attributed(s) && InPhase(s, p, true)
    ensures Attributed(SendCompletesStep(s, p))
  {
    QuietKeepsAttributed(s, SendCompletesStep(s, p));
  }

  lemma TouchKeepsAttributed(s: Bridge, u: UserId, d: DeviceId)
    requires Attributed(s)
    ensures Attributed(TouchStep(s, u, d))
  {
    TouchKeepsKeys(s, u, d);
    QuietKeepsAttributed(s, TouchStep(s, u, d));
  }

  lemma UnregisterKeepsAttributed(s: Bridge, u: UserId, d: DeviceId)
    requires Attributed(s)
    ensures Attributed(UnregisterStep(s, u, d))
  {
    var failed := if IsRegistered(s.table, u, d) then PendingOf(s, s.table[u].at[d]).Values else {};
    SettledKeepsAttributed(s, failed, Disconnected);
    var s0 := Settled(s, failed, Disconnected);
    QuietKeepsAttributed(s0, s0.(table := Unregistered(s.table, u, d)));
  }

  lemma SendFailureKeepsAttributed(s: Bridge, p: PushId)
    requires Attributed(s) && Enabled(s, SendFailureUnregisters(p))
    ensures Attributed(SendFailureUnregistersStep(s, p))
  {
    var d := s.conns[s.pushes[p].conn.value].device;
    UnregisterKeepsAttributed(s, s.pushes[p].user, d);
    QuietKeepsAttributed(UnregisterStep(s, s.pushes[p].user, d), SendFailureUnregistersStep(s, p));
  }

  lemma SettledKeepsAttributed(s: Bridge, ps: set<PushId>, o: Outcome)
    requires Attributed(s) && !o.Acked?
    ensures Attributed(Settled(s, ps, o))
  {
    QuietKeepsAttributed(s, Settled(s, ps, o));
  }

  lemma SweepRemovesKeepsAttributed(s: Bridge, w: Sweep, u: UserId, d: DeviceId, c: ConnId)
    requires Attributed(s) && w.devices != [] && c in s.conns && u in s.table
    ensures Attributed(SweepRemoves(s, w, u, d, c))
  {
    SettledKeepsAttributed(s, s.conns[c].pending.Values, StaleClosed);
    QuietKeepsAttributed(Settled(s, s.conns[c].pending.Values, StaleClosed), SweepRemoves(s, w, u, d, c));
  }

  lemma SweepVisitsKeepsAttributed(s: Bridge, w: Sweep, u: UserId)
    requires Attributed(s) && w.devices != []
    ensures Attributed(SweepVisits(s, w, u))
  {
    var d := w.devices[0];
    if IsRegistered(s.table, u, d) && s.table[u].at[d] in s.conns {
      SweepRemovesKeepsAttributed(s, w, u, d, s.table[u].at[d]);
    }
    QuietKeepsAttributed(s, s.(sweep := Some(w.(devices := w.devices[1..]))));
  }

  lemma TableKeepsAttributed(s: Bridge, table: Table<ConnId>, sweep: Option<Sweep>)
    requires Attributed(s)
    ensures Attributed(s.(table := table, sweep := sweep))
  {
    QuietKeepsAttributed(s, s.(table := table, sweep := sweep));
  }

  lemma SweepAdvancesKeepsAttributed(s: Bridge)
    requires Attributed(s) && s.sweep.Some?
    ensures Attributed(SweepAdvancesStep(s))
  {
    var w := s.sweep.value;
    match w.user
    case None =>
      if w.users == [] {
        TableKeepsAttributed(s, s.table, None);
      } else {
        TableKeepsAttributed(s, s.table, SweepEntersUser(s, w).sweep);
      }
    case Some(u) =>
      if w.devices == [] {
        TableKeepsAttributed(s, SweepLeavesUser(s, w, u).table, SweepLeavesUser(s, w, u).sweep);
      } else {
        SweepVisitsKeepsAttributed(s, w, u);
      }
  }
}
