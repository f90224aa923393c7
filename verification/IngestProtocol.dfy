/**
 * Ingest as an at-most-once protocol. Handlers on several workers race on the same
 * idempotency key, interleave at every await and database call, and may die at any point.
 * Each worker's event loop has its own slot per user; the table with its unique index is shared.
 */
module IngestProtocol {
  import opened Prelude
  import opened Trade
  import opened IngestPipeline
  import opened IdempotencyKey

  type AlertId = string
  type HandlerId = nat
  type WorkerId = nat

  /** Which violation an IntegrityError came from; `Late` is any after the alert was inserted. */
  datatype Cause = UniqueIndex | ForeignKey | Late

  /** `NoRow` is the RuntimeError of `duplicate_response`. */
  datatype Result = Duplicated(alert: AlertId) | Answered(alert: AlertId) | NoRow(cause: Cause)

  datatype Phase =
    | Arrived
    | Holding
    | Queried
    | Inserted(alert: AlertId)
    | Called(alert: AlertId)
    | Integrity(cause: Cause)
    | Finished(result: Result)
    | Dead

  datatype Handler = Handler(
    worker: WorkerId, user: UserId, body: Body, key: Key, webhook: Option<WebhookId>, request: Request, phase: Phase)

  /** `owner`, the handler that inserted the row, is history. */
  datatype Row = Row(user: UserId, key: Key, webhook: Option<WebhookId>, active: bool, owner: HandlerId)

  /** A call of a broker placement method: history, with everything it was decided on. */
  datatype Placed = Placed(handler: HandlerId, alert: AlertId, user: User, world: World, order: Order)

  datatype Ingest = Ingest(
    alerts: map<AlertId, Row>,
    webhooks: map<WebhookId, UserId>,
    gone: set<WebhookId>,
    handlers: map<HandlerId, Handler>,
    slots: map<(WorkerId, UserId), HandlerId>,
    placed: seq<Placed>)

  const INIT: Ingest := Ingest(map[], map[], {}, map[], map[], [])

  datatype Label =
    | Arrive(h: HandlerId, worker: WorkerId, u: UserId, body: Body, via: Option<WebhookId>, request: Request)
    | Acquire(h: HandlerId)
    | Query(h: HandlerId)
    | Insert(h: HandlerId, id: AlertId, active: bool)
    | Place(h: HandlerId, user: User, w: World)
    | Answer(h: HandlerId)
    | FailLate(h: HandlerId)
    | Recover(h: HandlerId)
    | Die(h: HandlerId)
    | CreateWebhook(x: WebhookId, u: UserId)
    | DeleteWebhook(x: WebhookId)

  predicate InSlot(p: Phase) {
    p.Holding? || p.Queried? || p.Inserted? || p.Called? || p.Integrity?
  }

  predicate At(s: Ingest, h: HandlerId) {
    h in s.handlers
  }

  predicate IsRow(s: Ingest, id: AlertId, user: UserId, key: Key) {
    id in s.alerts && s.alerts[id].user == user && s.alerts[id].key == key
  }

  ghost predicate HasRow(s: Ingest, user: UserId, key: Key) {
    exists id :: IsRow(s, id, user, key)
  }

  ghost function RowOf(s: Ingest, user: UserId, key: Key): AlertId
    requires HasRow(s, user, key)
  {
    var id :| IsRow(s, id, user, key);
    id
  }

  function WithPhase(s: Ingest, h: HandlerId, p: Phase): Ingest
    requires At(s, h)
  {
    s.(handlers := s.handlers[h := s.handlers[h].(phase := p)])
  }

  /** Leaving the slot: the lock is released on every way out, cancellation included. */
  function Leave(s: Ingest, h: HandlerId, p: Phase): Ingest
    requires At(s, h)
  {
    var slot := (s.handlers[h].worker, s.handlers[h].user);
    WithPhase(s, h, p).(slots := if InSlot(s.handlers[h].phase) then s.slots - {slot} else s.slots)
  }

  // ----- steps -----

  ghost predicate Enabled(s: Ingest, l: Label) {
    match l
    case Arrive(h, _, u, body, via, _) =>
      && !At(s, h) && ResolveKey(u, body, via).Some?
      && (via.Some? ==> via.value in s.webhooks && s.webhooks[via.value] == u)
    case Acquire(h) => At(s, h) && s.handlers[h].phase.Arrived? && (s.handlers[h].worker, s.handlers[h].user) !in s.slots
    case Query(h) => At(s, h) && s.handlers[h].phase.Holding?
    case Insert(h, id, _) => At(s, h) && s.handlers[h].phase.Queried? && id !in s.alerts
    case Place(h, user, w) =>
      && At(s, h) && s.handlers[h].phase.Inserted? && s.handlers[h].phase.alert in s.alerts
      && user.id == s.handlers[h].user
      && OrderOf(user, Judge(user, s.alerts[s.handlers[h].phase.alert].active, s.handlers[h].request, w), w).Some?
    case Answer(h) => At(s, h) && (s.handlers[h].phase.Inserted? || s.handlers[h].phase.Called?)
    case FailLate(h) => At(s, h) && (s.handlers[h].phase.Inserted? || s.handlers[h].phase.Called?)
    case Recover(h) => At(s, h) && s.handlers[h].phase.Integrity?
    case Die(h) => At(s, h) && (s.handlers[h].phase.Arrived? || InSlot(s.handlers[h].phase))
    case CreateWebhook(x, _) => x !in s.webhooks && x !in s.gone
    case DeleteWebhook(x) => x in s.webhooks && forall id :: id in s.alerts ==> s.alerts[id].webhook != Some(x)
  }

  ghost function QueryStep(s: Ingest, h: HandlerId): Ingest
    requires At(s, h)
  {
    var me := s.handlers[h];
    if HasRow(s, me.user, me.key) then Leave(s, h, Finished(Duplicated(RowOf(s, me.user, me.key))))
    else WithPhase(s, h, Queried)
  }

  function Added(s: Ingest, h: HandlerId, id: AlertId, active: bool): Ingest
    requires At(s, h)
  {
    var me := s.handlers[h];
    WithPhase(s, h, Inserted(id)).(alerts := s.alerts[id := Row(me.user, me.key, me.webhook, active, h)])
  }

  /** The commit of the new row, or the violation that it runs into. */
  ghost function InsertStep(s: Ingest, h: HandlerId, id: AlertId, active: bool): Ingest
    requires At(s, h)
  {
    var me := s.handlers[h];
    if HasRow(s, me.user, me.key) then WithPhase(s, h, Integrity(UniqueIndex))
    else if me.webhook.Some? && me.webhook.value !in s.webhooks then WithPhase(s, h, Integrity(ForeignKey))
    else Added(s, h, id, active)
  }

  function PlaceStep(s: Ingest, h: HandlerId, user: User, w: World): Ingest
    requires At(s, h) && s.handlers[h].phase.Inserted? && s.handlers[h].phase.alert in s.alerts
    requires OrderOf(user, Judge(user, s.alerts[s.handlers[h].phase.alert].active, s.handlers[h].request, w), w).Some?
  {
    var me := s.handlers[h];
    var id := me.phase.alert;
    var order := OrderOf(user, Judge(user, s.alerts[id].active, me.request, w), w).value;
    WithPhase(s, h, Called(id)).(placed := s.placed + [Placed(h, id, user, w, order)])
  }

  ghost function RecoverStep(s: Ingest, h: HandlerId): Ingest
    requires At(s, h) && s.handlers[h].phase.Integrity?
  {
    var me := s.handlers[h];
    Leave(s, h, Finished(if HasRow(s, me.user, me.key) then Duplicated(RowOf(s, me.user, me.key)) else NoRow(me.phase.cause)))
  }

  ghost function Apply(s: Ingest, l: Label): Ingest
    requires Enabled(s, l)
  {
    match l
    case Arrive(h, worker, u, body, via, request) =>
      s.(handlers := s.handlers[h := Handler(worker, u, body, ResolveKey(u, body, via).value, via, request, Arrived)])
    case Acquire(h) => WithPhase(s, h, Holding).(slots := s.slots[(s.handlers[h].worker, s.handlers[h].user) := h])
    case Query(h) => QueryStep(s, h)
    case Insert(h, id, active) => InsertStep(s, h, id, active)
    case Place(h, user, w) => PlaceStep(s, h, user, w)
    case Answer(h) => Leave(s, h, Finished(Answered(s.handlers[h].phase.alert)))
    case FailLate(h) => WithPhase(s, h, Integrity(Late))
    case Recover(h) => RecoverStep(s, h)
    case Die(h) => Leave(s, h, Dead)
    case CreateWebhook(x, u) => s.(webhooks := s.webhooks[x := u])
    case DeleteWebhook(x) => s.(webhooks := s.webhooks - {x}, gone := s.gone + {x})
  }

  ghost function After(s: Ingest, run: seq<Label>): Option<Ingest> {
    if run == [] then Some(s)
    else
      var before := After(s, run[..|run| - 1]);
      var last := run[|run| - 1];
      if before.Some? && Enabled(before.value, last) then Some(Apply(before.value, last)) else None
  }

  ghost predicate Reachable(s: Ingest) {
    exists run :: After(INIT, run) == Some(s)
  }
}

/** The invariant of the protocol, one clause per kind of object. */
module IngestInvariants {
  import opened Prelude
  import opened Trade
  import opened IdempotencyKey
  import opened IngestPipeline
  import opened IngestProtocol

  ghost predicate Owns(s: Ingest, h: HandlerId, id: AlertId) {
    At(s, h) && IsRow(s, id, s.handlers[h].user, s.handlers[h].key) && s.alerts[id].owner == h
  }

  /** The owner of a row has got past inserting it. */
  predicate PastInsert(p: Phase) {
    p.Inserted? || p.Called? || p.Dead? || p == Integrity(Late) || (p.Finished? && (p.result.Answered? || p.result.Duplicated?))
  }

  ghost predicate RowOk(s: Ingest, id: AlertId)
    requires id in s.alerts
  {
    && Owns(s, s.alerts[id].owner, id) && PastInsert(s.handlers[s.alerts[id].owner].phase)
    && s.alerts[id].webhook == s.handlers[s.alerts[id].owner].webhook
    && (s.alerts[id].webhook.Some? ==> s.alerts[id].webhook.value in s.webhooks)
  }

  /** The key's row was inserted by a handler of another worker. */
  ghost predicate FromElsewhere(s: Ingest, h: HandlerId, id: AlertId)
    requires At(s, h)
  {
    id in s.alerts && At(s, s.alerts[id].owner) && s.handlers[s.alerts[id].owner].worker != s.handlers[h].worker
  }

  ghost predicate HandlerOk(s: Ingest, h: HandlerId)
    requires At(s, h)
  {
    var me := s.handlers[h];
    && (InSlot(me.phase) ==> (me.worker, me.user) in s.slots && s.slots[(me.worker, me.user)] == h)
    && match me.phase
       case Queried => forall id :: IsRow(s, id, me.user, me.key) ==> FromElsewhere(s, h, id)
       case Inserted(id) => Owns(s, h, id)
       case Called(id) => Owns(s, h, id)
       case Integrity(UniqueIndex) => exists id :: IsRow(s, id, me.user, me.key) && FromElsewhere(s, h, id)
       case Integrity(ForeignKey) => me.webhook.Some? && me.webhook.value in s.gone
       case Integrity(Late) => exists id :: Owns(s, h, id)
       case Finished(Duplicated(id)) => IsRow(s, id, me.user, me.key)
       case Finished(Answered(id)) => Owns(s, h, id)
       case Finished(NoRow(cause)) => cause == ForeignKey
       case _ => true
  }

  /** A handler's key is that of its body, and its webhook existed when it arrived. */
  ghost predicate ArrivedRight(s: Ingest, h: HandlerId)
    requires At(s, h)
  {
    var me := s.handlers[h];
    && ResolveKey(me.user, me.body, me.webhook) == Some(me.key)
    && (me.webhook.Some? ==> me.webhook.value in s.webhooks || me.webhook.value in s.gone)
  }

  ghost predicate PlacedOk(s: Ingest, i: nat)
    requires i < |s.placed|
  {
    var p := s.placed[i];
    && Owns(s, p.handler, p.alert) && p.user.id == s.handlers[p.handler].user
    && !s.handlers[p.handler].phase.Inserted?
    && OrderOf(p.user, Judge(p.user, s.alerts[p.alert].active, s.handlers[p.handler].request, p.world), p.world) == Some(p.order)
  }

  ghost predicate UniqueKeys(s: Ingest) {
    forall i, j :: i in s.alerts && j in s.alerts && s.alerts[i].user == s.alerts[j].user && s.alerts[i].key == s.alerts[j].key ==> i == j
  }

  ghost predicate PlacedOnce(s: Ingest) {
    forall i, j :: 0 <= i < j < |s.placed| ==> s.placed[i].alert != s.placed[j].alert
  }

  ghost predicate Invariant(s: Ingest) {
    && UniqueKeys(s)
    && (forall x :: x in s.webhooks ==> x !in s.gone)
    && (forall id :: id in s.alerts ==> RowOk(s, id))
    && (forall h :: At(s, h) ==> HandlerOk(s, h))
    && (forall h :: At(s, h) ==> ArrivedRight(s, h))
    && (forall i: nat :: i < |s.placed| ==> PlacedOk(s, i))
    && PlacedOnce(s)
  }

  // ----- steps of one handler that leave the tables alone -----

  /** Everything but `h`'s phase and slot is the same. */
  ghost predicate OnlyMoves(s: Ingest, s': Ingest, h: HandlerId) {
    && At(s, h) && At(s', h)
    && s'.alerts == s.alerts && s'.webhooks == s.webhooks && s'.gone == s.gone && s'.placed == s.placed
    && s'.handlers == s.handlers[h := s.handlers[h].(phase := s'.handlers[h].phase)]
  }

  /** No other handler loses its slot. */
  ghost predicate SlotsKept(s: Ingest, s': Ingest, h: HandlerId) {
    forall k :: k in s.slots && s.slots[k] != h ==> k in s'.slots && s'.slots[k] == s.slots[k]
  }

  lemma OthersStayOk(s: Ingest, s': Ingest, h: HandlerId, g: HandlerId)
    requires Invariant(s) && OnlyMoves(s, s', h) && SlotsKept(s, s', h)
    requires At(s', g) && g != h
    ensures HandlerOk(s', g)
  {
    assert At(s, g) && HandlerOk(s, g);
    assert forall id :: IsRow(s', id, s'.handlers[g].user, s'.handlers[g].key) <==> IsRow(s, id, s.handlers[g].user, s.handlers[g].key);
    assert forall id :: FromElsewhere(s', g, id) <==> FromElsewhere(s, g, id);
    assert forall id :: Owns(s', g, id) <==> Owns(s, g, id);
  }

  lemma MovesKeepRows(s: Ingest, s': Ingest, h: HandlerId)
    requires Invariant(s) && OnlyMoves(s, s', h)
    requires PastInsert(s.handlers[h].phase) ==> PastInsert(s'.handlers[h].phase)
    ensures forall id :: id in s'.alerts ==> RowOk(s', id)
  {
    forall id | id in s'.alerts ensures RowOk(s', id) { assert RowOk(s, id); }
  }

  lemma MovesKeepPlaced(s: Ingest, s': Ingest, h: HandlerId)
    requires Invariant(s) && OnlyMoves(s, s', h)
    requires s'.handlers[h].phase.Inserted? ==> s.handlers[h].phase.Inserted?
    ensures forall i: nat :: i < |s'.placed| ==> PlacedOk(s', i)
  {
    forall i: nat | i < |s'.placed| ensures PlacedOk(s', i) { assert PlacedOk(s, i); }
  }

  lemma MovesKeepInvariant(s: Ingest, s': Ingest, h: HandlerId)
    requires Invariant(s) && OnlyMoves(s, s', h) && SlotsKept(s, s', h)
    requires HandlerOk(s', h)
    requires PastInsert(s.handlers[h].phase) ==> PastInsert(s'.handlers[h].phase)
    requires s'.handlers[h].phase.Inserted? ==> s.handlers[h].phase.Inserted?
    ensures Invariant(s')
  {
    MovesKeepRows(s, s', h);
    MovesKeepPlaced(s, s', h);
    forall g | At(s', g) ensures HandlerOk(s', g) && ArrivedRight(s', g) {
      assert ArrivedRight(s, g);
      if g != h { OthersStayOk(s, s', h, g); }
    }
  }

  /** Two handlers of one user on one worker are never both inside the slot. */
  lemma SlotHolderIs(s: Ingest, g: HandlerId, h: HandlerId)
    requires Invariant(s) && At(s, g) && At(s, h) && InSlot(s.handlers[g].phase) && InSlot(s.handlers[h].phase)
    requires s.handlers[g].worker == s.handlers[h].worker && s.handlers[g].user == s.handlers[h].user
    ensures g == h
  {
    assert HandlerOk(s, g) && HandlerOk(s, h);
  }

  lemma LeaveKeepsInvariant(s: Ingest, h: HandlerId, p: Phase)
    requires Invariant(s) && At(s, h) && !InSlot(p)
    requires HandlerOk(Leave(s, h, p), h)
    requires PastInsert(s.handlers[h].phase) ==> PastInsert(p)
    ensures Invariant(Leave(s, h, p))
  {
    assert HandlerOk(s, h);
    MovesKeepInvariant(s, Leave(s, h, p), h);
  }

  lemma PhaseKeepsInvariant(s: Ingest, h: HandlerId, p: Phase)
    requires Invariant(s) && At(s, h)
    requires HandlerOk(WithPhase(s, h, p), h)
    requires PastInsert(s.handlers[h].phase) ==> PastInsert(p)
    requires !p.Inserted?
    ensures Invariant(WithPhase(s, h, p))
  {
    MovesKeepInvariant(s, WithPhase(s, h, p), h);
  }

  lemma AcquireKeepsInvariant(s: Ingest, h: HandlerId)
    requires Invariant(s) && Enabled(s, Acquire(h))
    ensures Invariant(Apply(s, Acquire(h)))
  {
    MovesKeepInvariant(s, Apply(s, Acquire(h)), h);
  }

  lemma QueryKeepsInvariant(s: Ingest, h: HandlerId)
    requires Invariant(s) && Enabled(s, Query(h))
    ensures Invariant(Apply(s, Query(h)))
  {
    var me := s.handlers[h];
    assert HandlerOk(s, h);
    if HasRow(s, me.user, me.key) {
      var id := RowOf(s, me.user, me.key);
      assert IsRow(Leave(s, h, Finished(Duplicated(id))), id, me.user, me.key);
      LeaveKeepsInvariant(s, h, Finished(Duplicated(id)));
    } else {
      assert forall id :: IsRow(WithPhase(s, h, Queried), id, me.user, me.key) ==> IsRow(s, id, me.user, me.key);
      PhaseKeepsInvariant(s, h, Queried);
    }
  }

  lemma AnswerKeepsInvariant(s: Ingest, h: HandlerId)
    requires Invariant(s) && Enabled(s, Answer(h))
    ensures Invariant(Apply(s, Answer(h)))
  {
    assert HandlerOk(s, h);
    var id := s.handlers[h].phase.alert;
    assert Owns(Leave(s, h, Finished(Answered(id))), h, id);
    LeaveKeepsInvariant(s, h, Finished(Answered(id)));
  }

  lemma FailLateKeepsInvariant(s: Ingest, h: HandlerId)
    requires Invariant(s) && Enabled(s, FailLate(h))
    ensures Invariant(Apply(s, FailLate(h)))
  {
    assert HandlerOk(s, h);
    assert Owns(WithPhase(s, h, Integrity(Late)), h, s.handlers[h].phase.alert);
    PhaseKeepsInvariant(s, h, Integrity(Late));
  }

  lemma RowAfterViolation(s: Ingest, h: HandlerId)
    requires Invariant(s) && At(s, h) && s.handlers[h].phase.Integrity? && !s.handlers[h].phase.cause.ForeignKey?
    ensures HasRow(s, s.handlers[h].user, s.handlers[h].key)
  {
    assert HandlerOk(s, h);
    if s.handlers[h].phase.cause.Late? {
      var id :| Owns(s, h, id);
      assert IsRow(s, id, s.handlers[h].user, s.handlers[h].key);
    }
  }

  lemma RecoveredKeepsInvariant(s: Ingest, h: HandlerId, id: AlertId)
    requires Invariant(s) && Enabled(s, Recover(h)) && IsRow(s, id, s.handlers[h].user, s.handlers[h].key)
    ensures Invariant(Leave(s, h, Finished(Duplicated(id))))
  {
    assert IsRow(Leave(s, h, Finished(Duplicated(id))), id, s.handlers[h].user, s.handlers[h].key);
    LeaveKeepsInvariant(s, h, Finished(Duplicated(id)));
  }

  lemma RecoverKeepsInvariant(s: Ingest, h: HandlerId)
    requires Invariant(s) && Enabled(s, Recover(h))
    ensures Invariant(Apply(s, Recover(h)))
  {
    var me := s.handlers[h];
    if HasRow(s, me.user, me.key) {
      RecoveredKeepsInvariant(s, h, RowOf(s, me.user, me.key));
    } else {
      if !me.phase.cause.ForeignKey? {
        RowAfterViolation(s, h);
      }
      LeaveKeepsInvariant(s, h, Finished(NoRow(me.phase.cause)));
    }
  }

  // ----- inserting -----

  ghost predicate Insertable(s: Ingest, h: HandlerId, id: AlertId) {
    && At(s, h) && s.handlers[h].phase.Queried? && id !in s.alerts
    && !HasRow(s, s.handlers[h].user, s.handlers[h].key)
    && (s.handlers[h].webhook.Some? ==> s.handlers[h].webhook.value in s.webhooks)
  }

  lemma AddedKeepsFacts(s: Ingest, h: HandlerId, id: AlertId, active: bool, g: HandlerId, x: AlertId)
    requires Invariant(s) && Insertable(s, h, id) && At(s, g) && g != h
    ensures var s', other := Added(s, h, id, active), s.handlers[g];
            && (IsRow(s, x, other.user, other.key) ==> IsRow(s', x, other.user, other.key))
            && (Owns(s, g, x) ==> Owns(s', g, x))
            && (FromElsewhere(s, g, x) ==> FromElsewhere(s', g, x))
  {
  }

  lemma AddedIsElsewhere(s: Ingest, h: HandlerId, id: AlertId, active: bool, g: HandlerId)
    requires Invariant(s) && Insertable(s, h, id) && At(s, g) && g != h
    requires s.handlers[g].phase.Queried? && IsRow(Added(s, h, id, active), id, s.handlers[g].user, s.handlers[g].key)
    ensures FromElsewhere(Added(s, h, id, active), g, id)
  {
    if s.handlers[g].worker == s.handlers[h].worker {
      SlotHolderIs(s, g, h);
    }
  }

  lemma AddedOthersOk(s: Ingest, h: HandlerId, id: AlertId, active: bool, g: HandlerId)
    requires Invariant(s) && Insertable(s, h, id) && At(s, g) && g != h
    ensures HandlerOk(Added(s, h, id, active), g)
  {
    var s', other := Added(s, h, id, active), s.handlers[g];
    assert HandlerOk(s, g);
    forall x { AddedKeepsFacts(s, h, id, active, g, x); }
    if other.phase.Queried? {
      forall x | IsRow(s', x, other.user, other.key) ensures FromElsewhere(s', g, x) {
        if x == id { AddedIsElsewhere(s, h, id, active, g); } else { assert IsRow(s, x, other.user, other.key); }
      }
    }
  }

  lemma AddedRowOk(s: Ingest, h: HandlerId, id: AlertId, active: bool, x: AlertId)
    requires Invariant(s) && Insertable(s, h, id) && x in Added(s, h, id, active).alerts
    ensures RowOk(Added(s, h, id, active), x)
  {
    if x != id {
      assert RowOk(s, x);
    }
  }

  lemma AddedKeysUnique(s: Ingest, h: HandlerId, id: AlertId, active: bool)
    requires Invariant(s) && Insertable(s, h, id)
    ensures UniqueKeys(Added(s, h, id, active))
  {
    assert forall x :: x in s.alerts ==> !IsRow(s, x, s.handlers[h].user, s.handlers[h].key);
  }

  lemma AddedPlacedOk(s: Ingest, h: HandlerId, id: AlertId, active: bool, i: nat)
    requires Invariant(s) && Insertable(s, h, id) && i < |s.placed|
    ensures PlacedOk(Added(s, h, id, active), i)
  {
    assert PlacedOk(s, i);
    assert !IsRow(s, s.placed[i].alert, s.handlers[h].user, s.handlers[h].key);
    assert s.placed[i].handler != h;
  }

  lemma AddedKeepsInvariant(s: Ingest, h: HandlerId, id: AlertId, active: bool)
    requires Invariant(s) && Insertable(s, h, id)
    ensures Invariant(Added(s, h, id, active))
  {
    var s' := Added(s, h, id, active);
    AddedKeysUnique(s, h, id, active);
    forall x | x in s'.alerts ensures RowOk(s', x) { AddedRowOk(s, h, id, active, x); }
    forall g | At(s', g) ensures HandlerOk(s', g) {
      assert HandlerOk(s, g);
      if g != h { AddedOthersOk(s, h, id, active, g); }
    }
    forall g | At(s', g) ensures ArrivedRight(s', g) { assert ArrivedRight(s, g); }
    forall i: nat | i < |s'.placed| ensures PlacedOk(s', i) { AddedPlacedOk(s, h, id, active, i); }
  }

  lemma InsertKeepsInvariant(s: Ingest, h: HandlerId, id: AlertId, active: bool)
    requires Invariant(s) && Enabled(s, Insert(h, id, active))
    ensures Invariant(InsertStep(s, h, id, active))
  {
    var me := s.handlers[h];
    var s' := InsertStep(s, h, id, active);
    assert HandlerOk(s, h);
    if HasRow(s, me.user, me.key) {
      var x := RowOf(s, me.user, me.key);
      assert FromElsewhere(s, h, x);
      assert IsRow(s', x, me.user, me.key) && FromElsewhere(s', h, x);
      PhaseKeepsInvariant(s, h, Integrity(UniqueIndex));
    } else if me.webhook.Some? && me.webhook.value !in s.webhooks {
      assert ArrivedRight(s, h);
      PhaseKeepsInvariant(s, h, Integrity(ForeignKey));
    } else {
      AddedKeepsInvariant(s, h, id, active);
    }
  }

  // ----- placing -----

  lemma PlaceKeepsInvariant(s: Ingest, h: HandlerId, user: User, w: World)
    requires Invariant(s) && Enabled(s, Place(h, user, w))
    ensures Invariant(PlaceStep(s, h, user, w))
  {
    var s' := PlaceStep(s, h, user, w);
    var id := s.handlers[h].phase.alert;
    var moved := WithPhase(s, h, Called(id));
    assert HandlerOk(s, h);
    assert Owns(moved, h, id);
    PhaseKeepsInvariant(s, h, Called(id));
    assert s' == moved.(placed := s'.placed);
    AppendedPlacedOk(s, h, user, w);
    forall g | At(s', g) ensures HandlerOk(s', g) { PlacedIrrelevant(moved, s', g); }
    forall g | At(s', g) ensures ArrivedRight(s', g) { assert ArrivedRight(moved, g); }
    forall x | x in s'.alerts ensures RowOk(s', x) { assert RowOk(moved, x); }
  }

  lemma PlacedIrrelevant(s: Ingest, s': Ingest, g: HandlerId)
    requires s' == s.(placed := s'.placed) && At(s, g) && HandlerOk(s, g)
    ensures HandlerOk(s', g)
  {
    assert forall id :: FromElsewhere(s', g, id) <==> FromElsewhere(s, g, id);
    assert forall id :: Owns(s', g, id) <==> Owns(s, g, id);
    assert forall id, u, k :: IsRow(s', id, u, k) <==> IsRow(s, id, u, k);
  }

  /** Only the owner of a row places for it, and only once: it was about to, so it had not yet. */
  lemma AppendedPlacedOk(s: Ingest, h: HandlerId, user: User, w: World)
    requires Invariant(s) && Enabled(s, Place(h, user, w))
    ensures var s' := PlaceStep(s, h, user, w);
            PlacedOnce(s') && forall i: nat :: i < |s'.placed| ==> PlacedOk(s', i)
  {
    var s' := PlaceStep(s, h, user, w);
    forall i: nat | i < |s.placed| ensures PlacedOk(s', i) && s.placed[i].alert != s.handlers[h].phase.alert {
      EarlierPlacedOk(s, h, user, w, i);
    }
    NewPlacedOk(s, h, user, w);
  }

  lemma EarlierPlacedOk(s: Ingest, h: HandlerId, user: User, w: World, i: nat)
    requires Invariant(s) && Enabled(s, Place(h, user, w)) && i < |s.placed|
    ensures PlacedOk(PlaceStep(s, h, user, w), i) && s.placed[i].alert != s.handlers[h].phase.alert
  {
    assert HandlerOk(s, h) && PlacedOk(s, i);
  }

  lemma NewPlacedOk(s: Ingest, h: HandlerId, user: User, w: World)
    requires Invariant(s) && Enabled(s, Place(h, user, w))
    ensures PlacedOk(PlaceStep(s, h, user, w), |s.placed|)
  {
    assert HandlerOk(s, h);
    assert Owns(PlaceStep(s, h, user, w), h, s.handlers[h].phase.alert);
  }

  // ----- arrivals and webhooks -----

  lemma ArriveKeepsInvariant(s: Ingest, l: Label)
    requires Invariant(s) && Enabled(s, l) && l.Arrive?
    ensures Invariant(Apply(s, l))
  {
    var s' := Apply(s, l);
    AddingKeepsRows(s, s');
    forall g | At(s', g) ensures HandlerOk(s', g) && ArrivedRight(s', g) {
      if g != l.h { AddingIrrelevant(s, s', g); }
    }
  }

  /** More handlers, or other webhooks, change nothing about rows and placements. */
  lemma AddingKeepsRows(s: Ingest, s': Ingest)
    requires Invariant(s) && s'.alerts == s.alerts && s'.placed == s.placed
    requires forall k :: At(s, k) ==> At(s', k) && s'.handlers[k] == s.handlers[k]
    requires forall x :: x in s.webhooks && x !in s'.webhooks ==> forall id :: id in s.alerts ==> s.alerts[id].webhook != Some(x)
    ensures forall x :: x in s'.alerts ==> RowOk(s', x)
    ensures forall i: nat :: i < |s'.placed| ==> PlacedOk(s', i)
  {
    forall x | x in s'.alerts ensures RowOk(s', x) { assert RowOk(s, x); }
    forall i: nat | i < |s'.placed| ensures PlacedOk(s', i) { assert PlacedOk(s, i); }
  }

  lemma AddingIrrelevant(s: Ingest, s': Ingest, g: HandlerId)
    requires Invariant(s) && At(s, g)
    requires s'.alerts == s.alerts && s'.slots == s.slots && s.gone <= s'.gone
    requires forall x :: x in s.webhooks ==> x in s'.webhooks || x in s'.gone
    requires forall k :: At(s, k) ==> At(s', k) && s'.handlers[k] == s.handlers[k]
    ensures HandlerOk(s', g) && ArrivedRight(s', g)
  {
    assert HandlerOk(s, g) && ArrivedRight(s, g);
    assert forall id, u, k :: IsRow(s', id, u, k) <==> IsRow(s, id, u, k);
    assert forall id :: FromElsewhere(s, g, id) ==> FromElsewhere(s', g, id);
    assert forall id :: Owns(s, g, id) ==> Owns(s', g, id);
  }

  lemma CreateKeepsInvariant(s: Ingest, x: WebhookId, u: UserId)
    requires Invariant(s) && Enabled(s, CreateWebhook(x, u))
    ensures Invariant(s.(webhooks := s.webhooks[x := u]))
  {
    WebhooksKeepInvariant(s, s.(webhooks := s.webhooks[x := u]));
  }

  lemma DeleteKeepsInvariant(s: Ingest, x: WebhookId)
    requires Invariant(s) && Enabled(s, DeleteWebhook(x))
    ensures Invariant(s.(webhooks := s.webhooks - {x}, gone := s.gone + {x}))
  {
    WebhooksKeepInvariant(s, s.(webhooks := s.webhooks - {x}, gone := s.gone + {x}));
  }

  lemma WebhooksKeepInvariant(s: Ingest, s': Ingest)
    requires Invariant(s) && s' == s.(webhooks := s'.webhooks, gone := s'.gone) && s.gone <= s'.gone
    requires forall x :: x in s'.webhooks ==> x !in s'.gone
    requires forall x :: x in s.webhooks ==> x in s'.webhooks || x in s'.gone
    requires forall x :: x in s.webhooks && x !in s'.webhooks ==> forall id :: id in s.alerts ==> s.alerts[id].webhook != Some(x)
    ensures Invariant(s')
  {
    AddingKeepsRows(s, s');
    forall g | At(s', g) ensures HandlerOk(s', g) && ArrivedRight(s', g) { AddingIrrelevant(s, s', g); }
  }

  // ----- runs -----

  lemma StepKeepsInvariant(s: Ingest, l: Label)
    requires Invariant(s) && Enabled(s, l)
    ensures Invariant(Apply(s, l))
  {
    match l
    case Arrive(_, _, _, _, _, _) => ArriveKeepsInvariant(s, l);
    case Acquire(h) => AcquireKeepsInvariant(s, h);
    case Query(h) => QueryKeepsInvariant(s, h);
    case Insert(h, id, active) => InsertKeepsInvariant(s, h, id, active);
    case Place(h, user, w) => PlaceKeepsInvariant(s, h, user, w);
    case Answer(h) => AnswerKeepsInvariant(s, h);
    case FailLate(h) => FailLateKeepsInvariant(s, h);
    case Recover(h) => RecoverKeepsInvariant(s, h);
    case Die(h) => LeaveKeepsInvariant(s, h, Dead);
    case CreateWebhook(x, u) => CreateKeepsInvariant(s, x, u);
    case DeleteWebhook(x) => DeleteKeepsInvariant(s, x);
  }

  lemma {:induction false} RunKeepsInvariant(s: Ingest, run: seq<Label>)
    requires Invariant(s)
    ensures After(s, run).Some? ==> Invariant(After(s, run).value)
  {
    if run != [] {
      var before, last := run[..|run| - 1], run[|run| - 1];
      RunKeepsInvariant(s, before);
      if After(s, before).Some? && Enabled(After(s, before).value, last) {
        StepKeepsInvariant(After(s, before).value, last);
      }
    }
  }

  lemma ReachableInvariant(s: Ingest)
    requires Reachable(s)
    ensures Invariant(s)
  {
    var run :| After(INIT, run) == Some(s);
    RunKeepsInvariant(INIT, run);
  }
}
