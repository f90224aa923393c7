/** What every run of the ingest protocol keeps, for any number of handlers, workers and deaths. */
module IngestTheorems {
  import opened Prelude
  import opened IdempotencyKey
  import opened IngestPipeline
  import opened IngestProtocol
  import opened IngestInvariants

  function UserOf(s: Ingest, i: nat): UserId
    requires i < |s.placed| && At(s, s.placed[i].handler)
  {
    s.handlers[s.placed[i].handler].user
  }

  function KeyOf(s: Ingest, i: nat): Key
    requires i < |s.placed| && At(s, s.placed[i].handler)
  {
    s.handlers[s.placed[i].handler].key
  }

  lemma PlacedByOwner(s: Ingest, i: nat)
    requires Reachable(s) && i < |s.placed|
    ensures Owns(s, s.placed[i].handler, s.placed[i].alert)
    ensures IsRow(s, s.placed[i].alert, UserOf(s, i), KeyOf(s, i))
  {
    ReachableInvariant(s);
    assert PlacedOk(s, i);
  }

  /** A broker placement method is called at most once per user and idempotency key. */
  lemma PlacedAtMostOnce(s: Ingest, i: nat, j: nat)
    requires Reachable(s) && i < |s.placed| && j < |s.placed|
    requires At(s, s.placed[i].handler) && At(s, s.placed[j].handler)
    requires UserOf(s, i) == UserOf(s, j) && KeyOf(s, i) == KeyOf(s, j)
    ensures i == j
  {
    ReachableInvariant(s);
    PlacedByOwner(s, i);
    PlacedByOwner(s, j);
  }

  /** Every order ever placed passed every gate, on an active subscription, and fits its request. */
  lemma GatesHeldAtPlacement(s: Ingest, i: nat)
    requires Reachable(s) && i < |s.placed|
    ensures var p := s.placed[i];
            && At(s, p.handler) && p.alert in s.alerts && s.alerts[p.alert].active && p.user.id == s.handlers[p.handler].user
            && AllGates(p.user, true, s.handlers[p.handler].request, p.world)
            && Raw(s.handlers[p.handler].request).Some?
            && OrderFits(p.user, Raw(s.handlers[p.handler].request).value, p.world, p.order)
  {
    ReachableInvariant(s);
    var p := s.placed[i];
    assert PlacedOk(s, i);
    OrderIffAllGates(p.user, s.alerts[p.alert].active, s.handlers[p.handler].request, p.world);
    OrdersFit(p.user, s.alerts[p.alert].active, s.handlers[p.handler].request, p.world);
  }

  /**
   * A handler that finishes without having inserted the row answers "duplicate" with the id
   * of the row that decides its key, under which any order for the key was placed. The one
   * exception is a handler whose webhook was deleted under it.
   */
  lemma LosersNameTheWinner(s: Ingest, h: HandlerId)
    requires Reachable(s) && At(s, h) && s.handlers[h].phase.Finished?
    requires forall id :: id in s.alerts ==> s.alerts[id].owner != h
    ensures var me := s.handlers[h];
            match me.phase.result
            case Duplicated(id) =>
              && IsRow(s, id, me.user, me.key)
              && (forall other :: IsRow(s, other, me.user, me.key) ==> other == id)
              && forall i: nat :: i < |s.placed| && At(s, s.placed[i].handler) && UserOf(s, i) == me.user && KeyOf(s, i) == me.key
                   ==> s.placed[i].alert == id
            case NoRow(cause) => cause == ForeignKey
            case Answered(_) => false
  {
    ReachableInvariant(s);
    assert HandlerOk(s, h);
    forall i: nat | i < |s.placed| ensures At(s, s.placed[i].handler) && IsRow(s, s.placed[i].alert, UserOf(s, i), KeyOf(s, i)) {
      PlacedByOwner(s, i);
    }
  }

  /**
   * Recovering from a violation of the unique index always finds the row, and it was
   * inserted on another worker; a later violation finds the handler's own row.
   */
  lemma RecoveryFindsRow(s: Ingest, h: HandlerId)
    requires Reachable(s) && At(s, h) && s.handlers[h].phase.Integrity? && s.handlers[h].phase.cause != ForeignKey
    ensures var me := s.handlers[h];
            && HasRow(s, me.user, me.key)
            && var id := RowOf(s, me.user, me.key);
            && RecoverStep(s, h).handlers[h].phase == Finished(Duplicated(id))
            && (if me.phase.cause == Late then s.alerts[id].owner == h
                else At(s, s.alerts[id].owner) && s.handlers[s.alerts[id].owner].worker != me.worker)
  {
    ReachableInvariant(s);
    var me := s.handlers[h];
    assert HandlerOk(s, h);
    RowAfterViolation(s, h);
    assert IsRow(s, RowOf(s, me.user, me.key), me.user, me.key);
  }

  lemma KeyNamesWebhook(s: Ingest, h: HandlerId, id: AlertId)
    requires Invariant(s) && At(s, h) && IsRow(s, id, s.handlers[h].user, s.handlers[h].key) && !s.handlers[h].body.Eterminal?
    ensures s.alerts[id].webhook == s.handlers[h].webhook
  {
    assert RowOk(s, id) && ArrivedRight(s, h) && ArrivedRight(s, s.alerts[id].owner);
    var me, owner := s.handlers[h], s.handlers[s.alerts[id].owner];
    KeysAgreeIff(me.user, me.body, me.webhook, owner.user, owner.body, owner.webhook);
  }

  /**
   * The RuntimeError, exactly: it is raised on a foreign-key violation that leaves the key
   * without a row. For any body but an eterminal envelope, whose key is not tied to its
   * webhook, that is every foreign-key violation.
   */
  lemma RuntimeErrorIff(s: Ingest, h: HandlerId)
    requires Reachable(s) && At(s, h) && s.handlers[h].phase.Integrity?
    ensures var me := s.handlers[h];
            var result := RecoverStep(s, h).handlers[h].phase.result;
            && (result.NoRow? <==> me.phase.cause == ForeignKey && !HasRow(s, me.user, me.key))
            && (!me.body.Eterminal? ==> (result.NoRow? <==> me.phase.cause == ForeignKey))
  {
    ReachableInvariant(s);
    var me := s.handlers[h];
    assert HandlerOk(s, h);
    if me.phase.cause != ForeignKey {
      RowAfterViolation(s, h);
    } else if HasRow(s, me.user, me.key) {
      var id := RowOf(s, me.user, me.key);
      assert RowOk(s, id);
      if !me.body.Eterminal? { KeyNamesWebhook(s, h, id); }
    }
  }

  /** With a single worker the slot alone decides: the unique index is never violated. */
  lemma OneWorkerNeverViolates(s: Ingest, h: HandlerId)
    requires Reachable(s) && At(s, h)
    requires forall g :: At(s, g) ==> s.handlers[g].worker == s.handlers[h].worker
    ensures s.handlers[h].phase != Integrity(UniqueIndex)
  {
    ReachableInvariant(s);
    assert HandlerOk(s, h);
  }

  // ----- after the winner is done -----

  /** The owner of the row will not place any more: it has, or it answered, or it died. */
  ghost predicate Decided(s: Ingest, id: AlertId) {
    id in s.alerts && At(s, s.alerts[id].owner) && !s.handlers[s.alerts[id].owner].phase.Inserted?
  }

  lemma StepKeepsDecided(s: Ingest, l: Label, id: AlertId)
    requires Invariant(s) && Enabled(s, l) && Decided(s, id)
    ensures Decided(Apply(s, l), id)
  {
    StepKeepsRow(s, l, id);
    assert RowOk(s, id);
    OnlyInsertInserts(s, l, s.alerts[id].owner);
  }

  lemma OnlyInsertInserts(s: Ingest, l: Label, h: HandlerId)
    requires Enabled(s, l) && At(s, h) && !s.handlers[h].phase.Inserted? && !s.handlers[h].phase.Queried?
    ensures At(Apply(s, l), h) && !Apply(s, l).handlers[h].phase.Inserted?
  {
  }

  ghost predicate Quiet(s: Ingest, s': Ingest, id: AlertId) {
    && |s.placed| <= |s'.placed|
    && forall i: nat :: |s.placed| <= i < |s'.placed| ==> s'.placed[i].alert != id
  }

  lemma StepIsQuiet(s: Ingest, l: Label, id: AlertId)
    requires Invariant(s) && Enabled(s, l) && Decided(s, id)
    ensures Quiet(s, Apply(s, l), id)
    ensures forall i: nat :: i < |s.placed| ==> Apply(s, l).placed[i] == s.placed[i]
  {
    if l.Place? {
      assert HandlerOk(s, l.h);
    } else {
      OnlyPlacePlaces(s, l);
    }
  }

  lemma OnlyPlacePlaces(s: Ingest, l: Label)
    requires Enabled(s, l) && !l.Place?
    ensures Apply(s, l).placed == s.placed
  {
  }

  lemma {:induction false} RunIsQuiet(s: Ingest, run: seq<Label>, id: AlertId)
    requires Invariant(s) && Decided(s, id) && After(s, run).Some?
    ensures Invariant(After(s, run).value) && Decided(After(s, run).value, id) && Quiet(s, After(s, run).value, id)
  {
    RunKeepsInvariant(s, run);
    if run != [] {
      var before, last := run[..|run| - 1], run[|run| - 1];
      RunIsQuiet(s, before, id);
      StepKeepsDecided(After(s, before).value, last, id);
      StepIsQuiet(After(s, before).value, last, id);
    }
  }

  /**
   * The row is the decision. Once its owner has answered, died or placed, no continuation
   * of the run, with whatever other handlers, places an order for its key.
   */
  lemma DecidedKeysStayQuiet(s: Ingest, run: seq<Label>, id: AlertId)
    requires Reachable(s) && Decided(s, id) && After(s, run).Some?
    ensures var s' := After(s, run).value;
            forall i: nat :: |s.placed| <= i < |s'.placed| && At(s', s'.placed[i].handler) ==>
              !(UserOf(s', i) == s.alerts[id].user && KeyOf(s', i) == s.alerts[id].key)
  {
    ReachableInvariant(s);
    RunIsQuiet(s, run, id);
    var s' := After(s, run).value;
    RunKeepsRow(s, run, id);
    forall i: nat | |s.placed| <= i < |s'.placed| && At(s', s'.placed[i].handler)
      ensures !(UserOf(s', i) == s.alerts[id].user && KeyOf(s', i) == s.alerts[id].key)
    {
      assert PlacedOk(s', i) && s'.placed[i].alert != id;
    }
  }

  lemma {:induction false} RunKeepsRow(s: Ingest, run: seq<Label>, id: AlertId)
    requires id in s.alerts && After(s, run).Some?
    ensures id in After(s, run).value.alerts && After(s, run).value.alerts[id] == s.alerts[id]
  {
    if run != [] {
      RunKeepsRow(s, run[..|run| - 1], id);
      StepKeepsRow(After(s, run[..|run| - 1]).value, run[|run| - 1], id);
    }
  }

  lemma StepKeepsRow(s: Ingest, l: Label, id: AlertId)
    requires Enabled(s, l) && id in s.alerts
    ensures id in Apply(s, l).alerts && Apply(s, l).alerts[id] == s.alerts[id]
  {
  }

  // ----- a run that ends in the RuntimeError -----

  lemma OneMore(run: seq<Label>, s: Ingest, l: Label)
    requires After(INIT, run) == Some(s) && Enabled(s, l)
    ensures After(INIT, run + [l]) == Some(Apply(s, l))
  {
    assert (run + [l])[..|run|] == run;
  }

  const BODY: Body := Plain("buy", "", "", None, "", "", "")

  /** A handler has looked its key up and found nothing; it arrived through a webhook. */
  lemma HandlerIsAboutToInsert(request: Request) returns (run: seq<Label>, s: Ingest)
    ensures After(INIT, run) == Some(s)
    ensures s.alerts == map[] && s.webhooks == map["w" := "u"]
    ensures s.handlers == map[0 := Handler(0, "u", BODY, Key(Some("w"), TextDigest("u", Message("buy", "", "", None))), Some("w"), request, Queried)]
  {
    var create, arrive := CreateWebhook("w", "u"), Arrive(0, 0, "u", BODY, Some("w"), request);
    OneMore([], INIT, create);
    var s1 := Apply(INIT, create);
    OneMore([] + [create], s1, arrive);
    var s2 := Apply(s1, arrive);
    OneMore([] + [create] + [arrive], s2, Acquire(0));
    var s3 := Apply(s2, Acquire(0));
    OneMore([] + [create] + [arrive] + [Acquire(0)], s3, Query(0));
    run, s := [] + [create] + [arrive] + [Acquire(0)] + [Query(0)], Apply(s3, Query(0));
  }

  /** The webhook is deleted between the handler's arrival and its insert. */
  lemma RuntimeErrorIsReachable(request: Request) returns (s: Ingest)
    ensures Reachable(s) && At(s, 0) && s.handlers[0].phase == Finished(NoRow(ForeignKey))
  {
    var run, s1 := HandlerIsAboutToInsert(request);
    OneMore(run, s1, DeleteWebhook("w"));
    var s2 := Apply(s1, DeleteWebhook("w"));
    OneMore(run + [DeleteWebhook("w")], s2, Insert(0, "a", true));
    var s3 := Apply(s2, Insert(0, "a", true));
    OneMore(run + [DeleteWebhook("w")] + [Insert(0, "a", true)], s3, Recover(0));
    s := Apply(s3, Recover(0));
    assert After(INIT, run + [DeleteWebhook("w")] + [Insert(0, "a", true)] + [Recover(0)]) == Some(s);
  }
}
