/**
 * The device bridge as a step machine. Every step is a stretch of code between two
 * awaits, so a run is an interleaving of pushes, incoming acks, registrations, timeouts
 * and stale sweeps. Only a sweep keeps the registry's lock across an await; the other
 * users of the lock need it free for one step.
 *
 * Connections and ack futures are objects that outlive their place in the registry, so
 * they are kept under reference numbers. A push creates one future and shares its number.
 */
module BridgeProtocol {
  import opened Prelude
  import opened DeviceTable

  const STALE_CONNECTION_SEC: Time := 90.0
  const ORDER_ACK_TIMEOUT_SEC: Time := 25.0
  const DELIVERED_ORDER_TTL_SEC: Time := 3600.0

  type ConnId = nat
  type PushId = nat
  type TaskId = nat

  /** An ack message: its id as text ("" when missing), and the two flags it may carry. */
  datatype Ack = Ack(id: OrderId, ok: Option<bool>, success: Option<bool>)

  predicate AckOk(ack: Ack) {
    if ack.ok.Some? then ack.ok.value else ack.success.GetOr(true)
  }

  datatype Outcome = Pending | Acked(ack: Ack) | Disconnected | StaleClosed | Cancelled

  datatype Conn = Conn(user: UserId, device: DeviceId, lastSeen: Time, pending: map<OrderId, PushId>)

  datatype PushResult =
    | NoDevice
    | DuplicateSkipped(order: OrderId)
    | Acknowledged(order: OrderId, ok: bool)
    | SendFailure
    | NoAck

  predicate Success(r: PushResult) {
    r.DuplicateSkipped? || (r.Acknowledged? && r.ok)
  }

  datatype Phase = Sending | SendFailed | Waiting(since: Time) | Done(result: PushResult)

  datatype Push = Push(user: UserId, order: OrderId, conn: Option<ConnId>, sent: bool, phase: Phase)

  /** An ack handler that has looked up its connection and awaits the registry's lock. */
  datatype AckTask = AckTask(user: UserId, device: DeviceId, conn: ConnId, ack: Ack)

  datatype Mark = Mark(order: OrderId, at: Time, push: PushId)

  /** A message handled for a device: history only. */
  datatype Heard = Heard(user: UserId, device: DeviceId, ack: Ack)

  /**
   * A stale sweep in progress. `at` is the time it captured, `users` and `devices` what is
   * left of the snapshots it iterates over. The rest is history: the table and last-seen
   * times it started from, the connections stale at `at`, and those removed so far.
   */
  datatype Sweep = Sweep(
    at: Time, users: seq<UserId>, user: Option<UserId>, devices: seq<DeviceId>, removed: nat,
    start: Table<ConnId>, seen: map<ConnId, Time>, stale: set<ConnId>, gone: set<ConnId>)

  datatype Bridge = Bridge(
    now: Time,
    table: Table<ConnId>,
    conns: map<ConnId, Conn>,
    pushes: map<PushId, Push>,
    outcomes: map<PushId, Outcome>,
    completions: map<PushId, nat>,
    tasks: map<TaskId, AckTask>,
    delivered: map<OrderId, Time>,
    sweep: Option<Sweep>,
    marks: seq<Mark>,
    heard: set<Heard>)

  function Init(now: Time): Bridge {
    Bridge(now, map[], map[], map[], map[], map[], map[], map[], None, [], {})
  }

  datatype Label =
    | Tick(now: Time)
    | Register(u: UserId, d: DeviceId, c: ConnId)
    | Unregister(u: UserId, d: DeviceId)
    | Touch(u: UserId, d: DeviceId)
    | AckArrives(t: TaskId, u: UserId, d: DeviceId, ack: Ack)
    | AckResumes(t: TaskId)
    | PushBegins(p: PushId, u: UserId, order: OrderId)
    | SendCompletes(p: PushId)
    | SendRaises(p: PushId)
    | SendFailureUnregisters(p: PushId)
    | AckDeadline(p: PushId)
    | PushResumes(p: PushId, late: bool)
    | SweepBegins(at: Time, users: seq<UserId>)
    | SweepAdvances

  // ----- futures -----

  /** `if not future.done()`: complete it, counting the completion. */
  function Settled(s: Bridge, ps: set<PushId>, o: Outcome): Bridge {
    s.(outcomes := map q | q in s.outcomes ::
           if q in ps && s.outcomes[q].Pending? then o else s.outcomes[q],
       completions := map q | q in s.completions ::
           if q in ps && q in s.outcomes && s.outcomes[q].Pending?
           then s.completions[q] + 1 else s.completions[q])
  }

  function PendingOf(s: Bridge, c: ConnId): map<OrderId, PushId> {
    if c in s.conns then s.conns[c].pending else map[]
  }

  /** `conn.pending_acks.pop(order, None)` */
  function Popped(s: Bridge, c: ConnId, order: OrderId): Bridge {
    if c in s.conns then
      s.(conns := s.conns[c := s.conns[c].(pending := s.conns[c].pending - {order})])
    else s
  }

  // ----- registry operations -----

  function LastSeen(s: Bridge, u: UserId): map<DeviceId, Time> {
    map d | d in DevicesOf(s.table, u).at && s.table[u].at[d] in s.conns
      :: s.conns[s.table[u].at[d]].lastSeen
  }

  function RegisterStep(s: Bridge, u: UserId, d: DeviceId, c: ConnId): Bridge {
    s.(table := Registered(s.table, u, d, c), conns := s.conns[c := Conn(u, d, s.now, map[])])
  }

  function UnregisterStep(s: Bridge, u: UserId, d: DeviceId): Bridge {
    var failed := if IsRegistered(s.table, u, d) then PendingOf(s, s.table[u].at[d]).Values else {};
    Settled(s, failed, Disconnected).(table := Unregistered(s.table, u, d))
  }

  function TouchStep(s: Bridge, u: UserId, d: DeviceId): Bridge {
    if IsRegistered(s.table, u, d) && s.table[u].at[d] in s.conns then
      var c := s.table[u].at[d];
      s.(conns := s.conns[c := s.conns[c].(lastSeen := s.now)])
    else s
  }

  function Pruned(delivered: map<OrderId, Time>, now: Time): map<OrderId, Time> {
    map o | o in delivered && !(now - delivered[o] > DELIVERED_ORDER_TTL_SEC) :: delivered[o]
  }

  // ----- incoming acks -----

  function AckArrivesStep(s: Bridge, t: TaskId, u: UserId, d: DeviceId, ack: Ack): Bridge {
    if IsRegistered(s.table, u, d) then
      s.(tasks := s.tasks[t := AckTask(u, d, s.table[u].at[d], ack)],
         heard := s.heard + {Heard(u, d, ack)})
    else s
  }

  function AckResumesStep(s: Bridge, t: TaskId): Bridge
    requires t in s.tasks
  {
    var task := s.tasks[t];
    var s0 := TouchStep(s, task.user, task.device);
    var pending := PendingOf(s0, task.conn);
    var s1 :=
      if task.ack.id in pending
      then Settled(Popped(s0, task.conn, task.ack.id), {pending[task.ack.id]}, Acked(task.ack))
      else s0;
    s1.(tasks := s1.tasks - {t})
  }

  // ----- pushes -----

  /** `_primary_connection`: the connection of the last-seen device, first of the latest. */
  function Primary(s: Bridge, u: UserId): Option<ConnId> {
    if HasOnline(s.table, u) then
      var d := FirstLatest(s.table[u].order, LastSeen(s, u));
      if d in s.table[u].at then Some(s.table[u].at[d]) else None
    else None
  }

  /** The ack future, and its entry unless the order has no id. */
  function Launched(s: Bridge, p: PushId, u: UserId, order: OrderId, c: ConnId): Bridge
    requires c in s.conns
  {
    s.(pushes := s.pushes[p := Push(u, order, Some(c), false, Sending)],
       outcomes := s.outcomes[p := Pending],
       completions := s.completions[p := 0],
       conns := if order == "" then s.conns
                else s.conns[c := s.conns[c].(pending := s.conns[c].pending[order := p])])
  }

  function AtOnce(s: Bridge, p: PushId, u: UserId, order: OrderId, r: PushResult): Bridge {
    s.(pushes := s.pushes[p := Push(u, order, None, false, Done(r))])
  }

  /** `order_id and self.was_order_delivered(order_id)` prunes before it answers. */
  function Checked(s: Bridge, order: OrderId): Bridge {
    if order != "" then s.(delivered := Pruned(s.delivered, s.now)) else s
  }

  function PushBeginsStep(s: Bridge, p: PushId, u: UserId, order: OrderId): Bridge {
    var s0 := Checked(s, order);
    if order != "" && order in s0.delivered then AtOnce(s0, p, u, order, DuplicateSkipped(order))
    else
      match Primary(s0, u)
      case Some(c) => if c in s0.conns then Launched(s0, p, u, order, c) else s0
      case None => AtOnce(s0, p, u, order, NoDevice)
  }

  function WithPhase(s: Bridge, p: PushId, phase: Phase): Bridge
    requires p in s.pushes
  {
    s.(pushes := s.pushes[p := s.pushes[p].(phase := phase)])
  }

  function SendCompletesStep(s: Bridge, p: PushId): Bridge
    requires p in s.pushes
  {
    s.(pushes := s.pushes[p := s.pushes[p].(sent := true, phase := Waiting(s.now))])
  }

  function SendRaisesStep(s: Bridge, p: PushId): Bridge
    requires p in s.pushes && s.pushes[p].conn.Some?
  {
    WithPhase(Popped(s, s.pushes[p].conn.value, s.pushes[p].order), p, SendFailed)
  }

  function SendFailureUnregistersStep(s: Bridge, p: PushId): Bridge
    requires p in s.pushes && s.pushes[p].conn.Some? && s.pushes[p].conn.value in s.conns
  {
    var d := s.conns[s.pushes[p].conn.value].device;
    WithPhase(UnregisterStep(s, s.pushes[p].user, d), p, Done(SendFailure))
  }

  /** `mark_order_delivered`, with the mark remembered. */
  function Marked(s: Bridge, order: OrderId, p: PushId): Bridge {
    s.(delivered := s.delivered[order := s.now], marks := s.marks + [Mark(order, s.now, p)])
  }

  function ResumeAcked(s: Bridge, p: PushId, ack: Ack): Bridge
    requires p in s.pushes
  {
    var order := if ack.id != "" then ack.id else s.pushes[p].order;
    var s0 := if AckOk(ack) && order != "" then Marked(s, order, p) else s;
    WithPhase(s0, p, Done(Acknowledged(order, AckOk(ack))))
  }

  function ResumeFailed(s: Bridge, p: PushId): Bridge
    requires p in s.pushes && s.pushes[p].conn.Some?
  {
    WithPhase(Popped(s, s.pushes[p].conn.value, s.pushes[p].order), p, Done(NoAck))
  }

  /** `late`: the deadline passed between the future's completion and this resumption. */
  function PushResumesStep(s: Bridge, p: PushId, late: bool): Bridge
    requires p in s.pushes && s.pushes[p].conn.Some? && p in s.outcomes
  {
    if s.outcomes[p].Acked? && !late then ResumeAcked(s, p, s.outcomes[p].ack) else ResumeFailed(s, p)
  }

  // ----- stale sweep -----

  function LiveSeen(s: Bridge): map<ConnId, Time> {
    map c | c in s.conns && IsRegistered(s.table, s.conns[c].user, s.conns[c].device)
            && s.table[s.conns[c].user].at[s.conns[c].device] == c
      :: s.conns[c].lastSeen
  }

  function StaleAmong(seen: map<ConnId, Time>, at: Time): set<ConnId> {
    set c | c in seen && at - seen[c] > STALE_CONNECTION_SEC
  }

  function SweepBeginsStep(s: Bridge, at: Time, users: seq<UserId>): Bridge {
    var seen := LiveSeen(s);
    s.(sweep := Some(Sweep(at, users, None, [], 0, s.table, seen, StaleAmong(seen, at), {})))
  }

  /** `for user_id in list(self._connections)`, then the snapshot of that user's devices. */
  function SweepEntersUser(s: Bridge, w: Sweep): Bridge
    requires w.users != []
  {
    s.(sweep := Some(w.(user := Some(w.users[0]), users := w.users[1..],
                        devices := DevicesOf(s.table, w.users[0]).order)))
  }

  function SweepLeavesUser(s: Bridge, w: Sweep, u: UserId): Bridge {
    s.(table := if HasOnline(s.table, u) then s.table else s.table - {u},
       sweep := Some(w.(user := None)))
  }

  /** Removes one stale connection; the closing of its socket is awaited after this step. */
  function SweepRemoves(s: Bridge, w: Sweep, u: UserId, d: DeviceId, c: ConnId): Bridge
    requires w.devices != [] && c in s.conns && u in s.table
  {
    Settled(s, s.conns[c].pending.Values, StaleClosed).(
      table := s.table[u := Drop(s.table[u], {d})],
      sweep := Some(w.(devices := w.devices[1..], removed := w.removed + 1, gone := w.gone + {c})))
  }

  function SweepVisits(s: Bridge, w: Sweep, u: UserId): Bridge
    requires w.devices != []
  {
    var d := w.devices[0];
    if IsRegistered(s.table, u, d) && s.table[u].at[d] in s.conns
       && w.at - s.conns[s.table[u].at[d]].lastSeen > STALE_CONNECTION_SEC
    then SweepRemoves(s, w, u, d, s.table[u].at[d])
    else s.(sweep := Some(w.(devices := w.devices[1..])))
  }

  /** One turn of the sweep's nested loops, or its end. */
  function SweepAdvancesStep(s: Bridge): Bridge
    requires s.sweep.Some?
  {
    var w := s.sweep.value;
    match w.user
    case None => if w.users == [] then s.(sweep := None) else SweepEntersUser(s, w)
    case Some(u) => if w.devices == [] then SweepLeavesUser(s, w, u) else SweepVisits(s, w, u)
  }

  // ----- runs -----

  predicate InPhase(s: Bridge, p: PushId, sending: bool) {
    && p in s.pushes && p in s.outcomes
    && s.pushes[p].conn.Some? && s.pushes[p].conn.value in s.conns
    && (if sending then s.pushes[p].phase.Sending? else s.pushes[p].phase.Waiting?)
  }

  predicate DeadlinePassed(s: Bridge, p: PushId)
    requires p in s.pushes && s.pushes[p].phase.Waiting?
  {
    s.now - s.pushes[p].phase.since >= ORDER_ACK_TIMEOUT_SEC
  }

  /** Which steps may happen next. `s.sweep.None?` says that the registry's lock is free. */
  ghost predicate Enabled(s: Bridge, l: Label) {
    match l
    case Tick(now) => s.now <= now
    case Register(_, _, c) => s.sweep.None? && c !in s.conns
    case Unregister(_, _) => s.sweep.None?
    case Touch(_, _) => s.sweep.None?
    case AckArrives(t, _, _, _) => t !in s.tasks
    case AckResumes(t) => s.sweep.None? && t in s.tasks
    case PushBegins(p, _, _) => p !in s.pushes && p !in s.outcomes
    case SendCompletes(p) => InPhase(s, p, true)
    case SendRaises(p) => InPhase(s, p, true)
    case SendFailureUnregisters(p) =>
      && s.sweep.None? && p in s.pushes && s.pushes[p].phase.SendFailed?
      && s.pushes[p].conn.Some? && s.pushes[p].conn.value in s.conns
    case AckDeadline(p) => InPhase(s, p, false) && DeadlinePassed(s, p)
    case PushResumes(p, late) =>
      InPhase(s, p, false) && !s.outcomes[p].Pending? && (late ==> DeadlinePassed(s, p))
    case SweepBegins(at, users) =>
      && s.sweep.None? && at <= s.now
      && NoDuplicates(users) && forall u :: u in users <==> u in s.table
    case SweepAdvances => s.sweep.Some?
  }

  ghost function Apply(s: Bridge, l: Label): Bridge
    requires Enabled(s, l)
  {
    match l
    case Tick(now) => s.(now := now)
    case Register(u, d, c) => RegisterStep(s, u, d, c)
    case Unregister(u, d) => UnregisterStep(s, u, d)
    case Touch(u, d) => TouchStep(s, u, d)
    case AckArrives(t, u, d, ack) => AckArrivesStep(s, t, u, d, ack)
    case AckResumes(t) => AckResumesStep(s, t)
    case PushBegins(p, u, order) => PushBeginsStep(s, p, u, order)
    case SendCompletes(p) => SendCompletesStep(s, p)
    case SendRaises(p) => SendRaisesStep(s, p)
    case SendFailureUnregisters(p) => SendFailureUnregistersStep(s, p)
    case AckDeadline(p) => Settled(s, {p}, Cancelled)
    case PushResumes(p, late) => PushResumesStep(s, p, late)
    case SweepBegins(at, users) => SweepBeginsStep(s, at, users)
    case SweepAdvances => SweepAdvancesStep(s)
  }

  /** The state after a run, if every step of it could happen. */
  ghost function After(now: Time, run: seq<Label>): Option<Bridge> {
    if run == [] then Some(Init(now))
    else
      var before := After(now, run[..|run| - 1]);
      var last := run[|run| - 1];
      if before.Some? && Enabled(before.value, last) then Some(Apply(before.value, last)) else None
  }

  ghost predicate Reachable(s: Bridge) {
    exists now, run :: After(now, run) == Some(s)
  }
}
