/**
 * What the steps of the ingest protocol do, as whole states: a fresh request is stored,
 * placed and answered, a repeated one is answered with the row of the first, and the slot
 * is free again on every way out. Where `IngestTheorems` says what never happens, this
 * says what does.
 */
module IngestEffects {
  import opened Prelude
  import opened Trade
  import opened IdempotencyKey
  import opened IngestPipeline
  import opened IngestProtocol
  import opened IngestInvariants

  /** `h` has moved on to `p`, and nothing else. */
  function Moved(s: Ingest, h: HandlerId, p: Phase): map<HandlerId, Handler>
    requires At(s, h)
  {
    var me := s.handlers[h];
    s.handlers[h := Handler(me.worker, me.user, me.body, me.key, me.webhook, me.request, p)]
  }

  function SlotOf(s: Ingest, h: HandlerId): (WorkerId, UserId)
    requires At(s, h)
  {
    (s.handlers[h].worker, s.handlers[h].user)
  }

  // ----- one step at a time -----

  /** A request that finds its user's slot free on its worker holds it, with the key of its body. */
  lemma EnterEffect(s: Ingest, h: HandlerId, worker: WorkerId, u: UserId, body: Body, via: Option<WebhookId>, request: Request)
    requires Enabled(s, Arrive(h, worker, u, body, via, request)) && (worker, u) !in s.slots
    ensures var s1 := Apply(s, Arrive(h, worker, u, body, via, request));
            && Enabled(s1, Acquire(h))
            && Apply(s1, Acquire(h)) ==
               s.(handlers := s.handlers[h := Handler(worker, u, body, ResolveKey(u, body, via).value, via, request, Holding)],
                  slots := s.slots[(worker, u) := h])
  {
  }

  /** While the slot is taken, nobody else gets it. */
  lemma SlotIsExclusive(s: Ingest, h: HandlerId, g: HandlerId)
    requires Invariant(s) && At(s, h) && At(s, g) && InSlot(s.handlers[h].phase) && SlotOf(s, g) == SlotOf(s, h)
    ensures !Enabled(s, Acquire(g))
    ensures InSlot(s.handlers[g].phase) ==> g == h
  {
    assert HandlerOk(s, h) && HandlerOk(s, g);
  }

  /** With a fresh key and its webhook still there, the row is inserted, active as it was judged. */
  lemma FreshKeyEffect(s: Ingest, h: HandlerId, id: AlertId, active: bool)
    requires At(s, h) && s.handlers[h].phase.Holding? && id !in s.alerts
    requires !HasRow(s, s.handlers[h].user, s.handlers[h].key)
    requires s.handlers[h].webhook.Some? ==> s.handlers[h].webhook.value in s.webhooks
    ensures var s1 := Apply(s, Query(h));
            && Enabled(s1, Insert(h, id, active))
            && Apply(s1, Insert(h, id, active)) ==
               s.(handlers := Moved(s, h, Inserted(id)),
                  alerts := s.alerts[id := Row(s.handlers[h].user, s.handlers[h].key, s.handlers[h].webhook, active, h)])
  {
    var me := s.handlers[h];
    var s1 := Apply(s, Query(h));
    assert s1 == s.(handlers := Moved(s, h, Queried));
    RowsDecide(s, s1, me.user, me.key);
    assert Moved(s, h, Queried)[h := me.(phase := Inserted(id))] == Moved(s, h, Inserted(id));
  }

  /** A handler that has its row answers with it. */
  lemma AnswerEffect(s: Ingest, h: HandlerId)
    requires At(s, h) && (s.handlers[h].phase.Inserted? || s.handlers[h].phase.Called?)
    ensures Apply(s, Answer(h)) ==
            s.(handlers := Moved(s, h, Finished(Answered(s.handlers[h].phase.alert))), slots := s.slots - {SlotOf(s, h)})
  {
  }

  /** The order of an inserted row goes out once, as it was decided, and the handler answers with its row. */
  lemma PlacingEffect(s: Ingest, h: HandlerId, user: User, w: World, order: Order)
    requires At(s, h) && s.handlers[h].phase.Inserted? && s.handlers[h].phase.alert in s.alerts && user.id == s.handlers[h].user
    requires OrderOf(user, Judge(user, s.alerts[s.handlers[h].phase.alert].active, s.handlers[h].request, w), w) == Some(order)
    ensures var id := s.handlers[h].phase.alert;
            var s1 := Apply(s, Place(h, user, w));
            && Enabled(s1, Answer(h))
            && Apply(s1, Answer(h)) ==
               s.(handlers := Moved(s, h, Finished(Answered(id))), placed := s.placed + [Placed(h, id, user, w, order)],
                  slots := s.slots - {SlotOf(s, h)})
  {
    var id := s.handlers[h].phase.alert;
    AnswerEffect(Apply(s, Place(h, user, w)), h);
    assert Moved(s, h, Called(id))[h := s.handlers[h].(phase := Finished(Answered(id)))] == Moved(s, h, Finished(Answered(id)));
  }

  /** A key that has its row is answered with it, and nothing is stored or placed. */
  lemma KnownKeyEffect(s: Ingest, h: HandlerId, id: AlertId)
    requires UniqueKeys(s) && At(s, h) && s.handlers[h].phase.Holding? && IsRow(s, id, s.handlers[h].user, s.handlers[h].key)
    ensures Apply(s, Query(h)) == s.(handlers := Moved(s, h, Finished(Duplicated(id))), slots := s.slots - {SlotOf(s, h)})
  {
    assert IsRow(s, RowOf(s, s.handlers[h].user, s.handlers[h].key), s.handlers[h].user, s.handlers[h].key);
  }

  /** So is one whose row another worker inserted in the meantime, after the violation. */
  lemma LostRaceEffect(s: Ingest, h: HandlerId, id: AlertId, mine: AlertId, active: bool)
    requires UniqueKeys(s) && At(s, h) && s.handlers[h].phase.Queried? && mine !in s.alerts
    requires IsRow(s, id, s.handlers[h].user, s.handlers[h].key)
    ensures var s1 := Apply(s, Insert(h, mine, active));
            && Enabled(s1, Recover(h))
            && Apply(s1, Recover(h)) == s.(handlers := Moved(s, h, Finished(Duplicated(id))), slots := s.slots - {SlotOf(s, h)})
  {
    var me := s.handlers[h];
    var s1 := Apply(s, Insert(h, mine, active));
    assert s1 == s.(handlers := Moved(s, h, Integrity(UniqueIndex)));
    assert IsRow(s1, id, me.user, me.key);
    assert IsRow(s1, RowOf(s1, me.user, me.key), me.user, me.key);
    assert Moved(s, h, Integrity(UniqueIndex))[h := me.(phase := Finished(Duplicated(id)))] == Moved(s, h, Finished(Duplicated(id)));
  }

  /** A violation after the row was inserted is answered with that row; what was placed stays placed. */
  lemma LateFailureEffect(s: Ingest, h: HandlerId, id: AlertId)
    requires UniqueKeys(s) && At(s, h) && (s.handlers[h].phase.Inserted? || s.handlers[h].phase.Called?)
    requires IsRow(s, id, s.handlers[h].user, s.handlers[h].key)
    ensures var s1 := Apply(s, FailLate(h));
            && Enabled(s1, Recover(h))
            && Apply(s1, Recover(h)) == s.(handlers := Moved(s, h, Finished(Duplicated(id))), slots := s.slots - {SlotOf(s, h)})
  {
    var me := s.handlers[h];
    var s1 := Apply(s, FailLate(h));
    assert s1 == s.(handlers := Moved(s, h, Integrity(Late)));
    assert IsRow(s1, id, me.user, me.key);
    assert IsRow(s1, RowOf(s1, me.user, me.key), me.user, me.key);
    assert Moved(s, h, Integrity(Late))[h := me.(phase := Finished(Duplicated(id)))] == Moved(s, h, Finished(Duplicated(id)));
  }

  /** Dying frees the slot if it was held, and undoes nothing. */
  lemma DeathEffect(s: Ingest, h: HandlerId)
    requires Enabled(s, Die(h))
    ensures Apply(s, Die(h)) ==
            s.(handlers := Moved(s, h, Dead), slots := if s.handlers[h].phase.Arrived? then s.slots else s.slots - {SlotOf(s, h)})
  {
  }

  // ----- nothing is stuck -----

  /** A taken slot is held by a handler of its worker and user that is between entering and leaving. */
  ghost predicate SlotsLive(s: Ingest) {
    forall k :: k in s.slots ==> At(s, s.slots[k]) && InSlot(s.handlers[s.slots[k]].phase) && SlotOf(s, s.slots[k]) == k
  }

  lemma LeaveKeepsSlotsLive(s: Ingest, h: HandlerId, p: Phase)
    requires SlotsLive(s) && At(s, h)
    ensures SlotsLive(Leave(s, h, p))
  {
    var s' := Leave(s, h, p);
    forall k | k in s'.slots ensures At(s', s'.slots[k]) && InSlot(s'.handlers[s'.slots[k]].phase) && SlotOf(s', s'.slots[k]) == k {
      assert s.slots[k] != h;
    }
  }

  lemma StayKeepsSlotsLive(s: Ingest, s': Ingest, h: HandlerId, p: Phase)
    requires SlotsLive(s) && At(s, h) && InSlot(p) && s'.slots == s.slots && s'.handlers == Moved(s, h, p)
    ensures SlotsLive(s')
  {
    forall k | k in s'.slots ensures At(s', s'.slots[k]) && InSlot(s'.handlers[s'.slots[k]].phase) && SlotOf(s', s'.slots[k]) == k {
      assert At(s, s.slots[k]);
    }
  }

  lemma MoveKeepsSlotsLive(s: Ingest, l: Label)
    requires SlotsLive(s) && Enabled(s, l) && (l.Query? || l.Insert? || l.Place? || l.FailLate?)
    ensures SlotsLive(Apply(s, l))
  {
    var p := Apply(s, l).handlers[l.h].phase;
    if p.Finished? {
      LeaveKeepsSlotsLive(s, l.h, p);
    } else {
      StayKeepsSlotsLive(s, Apply(s, l), l.h, p);
    }
  }

  lemma EnteringKeepsSlotsLive(s: Ingest, l: Label)
    requires SlotsLive(s) && Enabled(s, l) && (l.Arrive? || l.Acquire?)
    ensures SlotsLive(Apply(s, l))
  {
    var s' := Apply(s, l);
    forall k | k in s'.slots ensures At(s', s'.slots[k]) && InSlot(s'.handlers[s'.slots[k]].phase) && SlotOf(s', s'.slots[k]) == k {
      assert k in s.slots ==> s.slots[k] != l.h;
    }
  }

  lemma StepKeepsSlotsLive(s: Ingest, l: Label)
    requires SlotsLive(s) && Enabled(s, l)
    ensures SlotsLive(Apply(s, l))
  {
    match l
    case Arrive(_, _, _, _, _, _) => EnteringKeepsSlotsLive(s, l);
    case Acquire(_) => EnteringKeepsSlotsLive(s, l);
    case Query(_) => MoveKeepsSlotsLive(s, l);
    case Insert(_, _, _) => MoveKeepsSlotsLive(s, l);
    case Place(_, _, _) => MoveKeepsSlotsLive(s, l);
    case FailLate(_) => MoveKeepsSlotsLive(s, l);
    case Answer(h) => LeaveKeepsSlotsLive(s, h, Apply(s, l).handlers[h].phase);
    case Recover(h) => LeaveKeepsSlotsLive(s, h, Apply(s, l).handlers[h].phase);
    case Die(h) => LeaveKeepsSlotsLive(s, h, Dead);
    case CreateWebhook(_, _) => WebhooksKeepSlotsLive(s, Apply(s, l));
    case DeleteWebhook(_) => WebhooksKeepSlotsLive(s, Apply(s, l));
  }

  lemma WebhooksKeepSlotsLive(s: Ingest, s': Ingest)
    requires SlotsLive(s) && s'.slots == s.slots && s'.handlers == s.handlers
    ensures SlotsLive(s')
  {
    forall k | k in s'.slots ensures At(s', s'.slots[k]) && InSlot(s'.handlers[s'.slots[k]].phase) && SlotOf(s', s'.slots[k]) == k {
      assert At(s, s.slots[k]);
    }
  }

  lemma {:induction false} RunKeepsSlotsLive(run: seq<Label>)
    ensures After(INIT, run).Some? ==> SlotsLive(After(INIT, run).value)
  {
    if run != [] {
      var before, last := run[..|run| - 1], run[|run| - 1];
      RunKeepsSlotsLive(before);
      if After(INIT, before).Some? && Enabled(After(INIT, before).value, last) {
        StepKeepsSlotsLive(After(INIT, before).value, last);
      }
    }
  }

  /**
   * Nothing is ever stuck. A handler on its way can take its next step, whatever the others
   * do, unless it waits for a slot; and then the slot's holder is on its way too. A slot is
   * never leaked.
   */
  lemma NobodyIsStuck(s: Ingest, h: HandlerId, unused: AlertId, active: bool)
    requires Reachable(s) && At(s, h) && unused !in s.alerts
    ensures match s.handlers[h].phase
            case Arrived =>
              || Enabled(s, Acquire(h))
              || exists g :: At(s, g) && g != h && SlotOf(s, g) == SlotOf(s, h) && InSlot(s.handlers[g].phase) && s.slots[SlotOf(s, h)] == g
            case Holding => Enabled(s, Query(h))
            case Queried => Enabled(s, Insert(h, unused, active))
            case Inserted(_) => Enabled(s, Answer(h)) && Enabled(s, FailLate(h))
            case Called(_) => Enabled(s, Answer(h)) && Enabled(s, FailLate(h))
            case Integrity(_) => Enabled(s, Recover(h))
            case Finished(_) => true
            case Dead => true
    ensures !s.handlers[h].phase.Finished? && !s.handlers[h].phase.Dead? ==> Enabled(s, Die(h))
  {
    var run :| After(INIT, run) == Some(s);
    RunKeepsSlotsLive(run);
    if s.handlers[h].phase.Arrived? && SlotOf(s, h) in s.slots {
      var g := s.slots[SlotOf(s, h)];
      assert At(s, g) && InSlot(s.handlers[g].phase) && SlotOf(s, g) == SlotOf(s, h);
    }
  }

  /** An inserted row may have its order placed, if there is one, as the world is at that moment. */
  lemma PlacingIsPossibleIff(s: Ingest, h: HandlerId, user: User, w: World)
    requires Reachable(s) && At(s, h) && s.handlers[h].phase.Inserted? && user.id == s.handlers[h].user
    ensures var id := s.handlers[h].phase.alert;
            && id in s.alerts
            && (Enabled(s, Place(h, user, w)) <==> OrderOf(user, Judge(user, s.alerts[id].active, s.handlers[h].request, w), w).Some?)
  {
    ReachableInvariant(s);
    assert HandlerOk(s, h);
  }

  /** Webhooks come and go, but one is kept while an alert refers to it, and a gone one never returns. */
  lemma WebhookEffect(s: Ingest, x: WebhookId, u: UserId, y: WebhookId)
    ensures Enabled(s, CreateWebhook(x, u)) <==> x !in s.webhooks && x !in s.gone
    ensures Enabled(s, DeleteWebhook(x)) <==> x in s.webhooks && !exists id :: id in s.alerts && s.alerts[id].webhook == Some(x)
    ensures Enabled(s, CreateWebhook(x, u)) ==> Apply(s, CreateWebhook(x, u)) == s.(webhooks := s.webhooks[x := u])
    ensures Enabled(s, DeleteWebhook(x)) ==>
              var s' := Apply(s, DeleteWebhook(x));
              && s' == s.(webhooks := s'.webhooks, gone := s.gone + {x})
              && (y in s'.webhooks <==> y in s.webhooks && y != x) && (y in s'.webhooks ==> s'.webhooks[y] == s.webhooks[y])
  {
  }

  // ----- two requests -----

  lemma Then(s: Ingest, run: seq<Label>, s': Ingest, l: Label)
    requires After(s, run) == Some(s') && Enabled(s', l)
    ensures After(s, run + [l]) == Some(Apply(s', l))
  {
    assert (run + [l])[..|run|] == run;
  }

  lemma ThenBoth(s: Ingest, run: seq<Label>, s': Ingest, l: Label, l': Label, s'': Ingest)
    requires After(s, run) == Some(s') && Enabled(s', l) && Enabled(Apply(s', l), l') && s'' == Apply(Apply(s', l), l')
    ensures After(s, run + [l] + [l']) == Some(s'')
  {
    Then(s, run, s', l);
    Then(s, run + [l], Apply(s', l), l');
  }

  lemma EnterRun(s: Ingest, h: HandlerId, worker: WorkerId, u: UserId, body: Body, via: Option<WebhookId>, request: Request)
    returns (run: seq<Label>, s': Ingest)
    requires Enabled(s, Arrive(h, worker, u, body, via, request)) && (worker, u) !in s.slots
    ensures After(s, run) == Some(s')
    ensures s' == s.(handlers := s.handlers[h := Handler(worker, u, body, ResolveKey(u, body, via).value, via, request, Holding)],
                     slots := s.slots[(worker, u) := h])
  {
    EnterEffect(s, h, worker, u, body, via, request);
    var arrive := Arrive(h, worker, u, body, via, request);
    s' := Apply(Apply(s, arrive), Acquire(h));
    run := [] + [arrive] + [Acquire(h)];
    ThenBoth(s, [], s, arrive, Acquire(h), s');
  }

  lemma RowsDecide(s: Ingest, s': Ingest, u: UserId, key: Key)
    requires s'.alerts == s.alerts
    ensures HasRow(s', u, key) <==> HasRow(s, u, key)
  {
    forall x ensures IsRow(s', x, u, key) <==> IsRow(s, x, u, key) {}
  }

  /** Undisturbed, a fresh request that every gate lets through is stored, placed and answered. */
  lemma FreshRequestIsServed(s: Ingest, h: HandlerId, worker: WorkerId, body: Body, via: Option<WebhookId>, request: Request,
                             id: AlertId, active: bool, user: User, w: World, order: Order)
    returns (run: seq<Label>, s': Ingest)
    requires Enabled(s, Arrive(h, worker, user.id, body, via, request)) && (worker, user.id) !in s.slots && id !in s.alerts
    requires !HasRow(s, user.id, ResolveKey(user.id, body, via).value)
    requires OrderOf(user, Judge(user, active, request, w), w) == Some(order)
    ensures After(s, run) == Some(s')
    ensures var key := ResolveKey(user.id, body, via).value;
            s' == s.(handlers := s.handlers[h := Handler(worker, user.id, body, key, via, request, Finished(Answered(id)))],
                     alerts := s.alerts[id := Row(user.id, key, via, active, h)],
                     placed := s.placed + [Placed(h, id, user, w, order)])
  {
    var u, key := user.id, ResolveKey(user.id, body, via).value;
    var run1, s1 := EnterRun(s, h, worker, u, body, via, request);
    RowsDecide(s, s1, u, key);
    run, s' := ServeRun(s, run1, s1, h, id, active, user, w, order);
    SlotComesAndGoes(s, s1, h, Handler(worker, u, body, key, via, request, Holding), Finished(Answered(id)));
  }

  lemma SlotComesAndGoes(s: Ingest, s': Ingest, h: HandlerId, me: Handler, p: Phase)
    requires s'.handlers == s.handlers[h := me] && (me.worker, me.user) !in s.slots && s'.slots == s.slots[(me.worker, me.user) := h]
    ensures s'.slots - {SlotOf(s', h)} == s.slots && Moved(s', h, p) == s.handlers[h := me.(phase := p)]
  {
  }

  lemma ServeRun(s: Ingest, run: seq<Label>, s': Ingest, h: HandlerId, id: AlertId, active: bool, user: User, w: World, order: Order)
    returns (run': seq<Label>, s'': Ingest)
    requires After(s, run) == Some(s')
    requires At(s', h) && s'.handlers[h].phase.Holding? && id !in s'.alerts && user.id == s'.handlers[h].user
    requires !HasRow(s', s'.handlers[h].user, s'.handlers[h].key)
    requires s'.handlers[h].webhook.Some? ==> s'.handlers[h].webhook.value in s'.webhooks
    requires OrderOf(user, Judge(user, active, s'.handlers[h].request, w), w) == Some(order)
    ensures After(s, run') == Some(s'')
    ensures var me := s'.handlers[h];
            s'' == s'.(handlers := Moved(s', h, Finished(Answered(id))),
                       alerts := s'.alerts[id := Row(me.user, me.key, me.webhook, active, h)],
                       placed := s'.placed + [Placed(h, id, user, w, order)],
                       slots := s'.slots - {SlotOf(s', h)})
  {
    var run2, s2 := StoreRun(s, run, s', h, id, active);
    run', s'' := PlaceRun(s, run2, s2, h, user, w, order);
    assert Moved(s2, h, Finished(Answered(id))) == Moved(s', h, Finished(Answered(id)));
  }

  lemma StoreRun(s: Ingest, run: seq<Label>, s': Ingest, h: HandlerId, id: AlertId, active: bool)
    returns (run': seq<Label>, s'': Ingest)
    requires After(s, run) == Some(s')
    requires At(s', h) && s'.handlers[h].phase.Holding? && id !in s'.alerts
    requires !HasRow(s', s'.handlers[h].user, s'.handlers[h].key)
    requires s'.handlers[h].webhook.Some? ==> s'.handlers[h].webhook.value in s'.webhooks
    ensures After(s, run') == Some(s'')
    ensures s'' == s'.(handlers := Moved(s', h, Inserted(id)),
                       alerts := s'.alerts[id := Row(s'.handlers[h].user, s'.handlers[h].key, s'.handlers[h].webhook, active, h)])
  {
    FreshKeyEffect(s', h, id, active);
    s'' := Apply(Apply(s', Query(h)), Insert(h, id, active));
    run' := run + [Query(h)] + [Insert(h, id, active)];
    ThenBoth(s, run, s', Query(h), Insert(h, id, active), s'');
  }

  lemma PlaceRun(s: Ingest, run: seq<Label>, s': Ingest, h: HandlerId, user: User, w: World, order: Order)
    returns (run': seq<Label>, s'': Ingest)
    requires After(s, run) == Some(s')
    requires At(s', h) && s'.handlers[h].phase.Inserted? && s'.handlers[h].phase.alert in s'.alerts && user.id == s'.handlers[h].user
    requires OrderOf(user, Judge(user, s'.alerts[s'.handlers[h].phase.alert].active, s'.handlers[h].request, w), w) == Some(order)
    ensures After(s, run') == Some(s'')
    ensures var id := s'.handlers[h].phase.alert;
            s'' == s'.(handlers := Moved(s', h, Finished(Answered(id))), placed := s'.placed + [Placed(h, id, user, w, order)],
                       slots := s'.slots - {SlotOf(s', h)})
  {
    PlacingEffect(s', h, user, w, order);
    s'' := Apply(Apply(s', Place(h, user, w)), Answer(h));
    run' := run + [Place(h, user, w)] + [Answer(h)];
    ThenBoth(s, run, s', Place(h, user, w), Answer(h), s'');
  }

  /** The same request once more, on any worker: it is answered with the first one's row. */
  lemma RepeatIsDuplicate(s: Ingest, h: HandlerId, worker: WorkerId, u: UserId, body: Body, via: Option<WebhookId>, request: Request,
                          id: AlertId)
    returns (run: seq<Label>, s': Ingest)
    requires Enabled(s, Arrive(h, worker, u, body, via, request)) && (worker, u) !in s.slots && UniqueKeys(s)
    requires IsRow(s, id, u, ResolveKey(u, body, via).value)
    ensures After(s, run) == Some(s')
    ensures s' == s.(handlers := s.handlers[h := Handler(worker, u, body, ResolveKey(u, body, via).value, via, request,
                                                         Finished(Duplicated(id)))])
  {
    var run1, s1 := EnterRun(s, h, worker, u, body, via, request);
    assert IsRow(s1, id, u, ResolveKey(u, body, via).value);
    KnownKeyEffect(s1, h, id);
    Then(s, run1, s1, Query(h));
    run, s' := run1 + [Query(h)], Apply(s1, Query(h));
    SlotComesAndGoes(s, s1, h, Handler(worker, u, body, ResolveKey(u, body, via).value, via, request, Holding), Finished(Duplicated(id)));
  }
}
