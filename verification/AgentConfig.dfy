/** Agent settings: the stored overrides, what they resolve to, and the cache in front of them. */
module AgentConfig {
  import opened Prelude
  import opened Trade

  const CACHE_TTL_SEC: Time := 30.0
  const MODEL_MAX_LEN: nat := 200

  type AgentKey = string

  datatype Row = Row(
    model: Option<string>, system: Option<string>, template: Option<string>, updatedAt: Option<Time>, updatedBy: Option<string>)

  datatype Resolved = Resolved(
    key: AgentKey, model: string, system: string, template: string,
    modelOverridden: bool, systemOverridden: bool, templateOverridden: bool,
    updatedAt: Option<Time>, updatedBy: Option<string>)

  /** The model of the settings, and the built-in prompts. */
  datatype Defaults = Defaults(model: string, system: AgentKey -> string, template: AgentKey -> string)

  function BlankToNone(value: Option<string>): Option<string> {
    if value.None? || Strip(value.value) == "" then None else Some(Strip(value.value))
  }

  function Resolve(defaults: Defaults, key: AgentKey, row: Option<Row>): Resolved {
    var stored := row.GetOr(Row(None, None, None, None, None));
    var model, system, template := BlankToNone(stored.model), BlankToNone(stored.system), BlankToNone(stored.template);
    Resolved(key, model.GetOr(defaults.model), system.GetOr(defaults.system(key)), template.GetOr(defaults.template(key)),
             model.Some?, system.Some?, template.Some?, stored.updatedAt, stored.updatedBy)
  }

  function Truncate(text: string): string {
    if |text| <= MODEL_MAX_LEN then text else text[..MODEL_MAX_LEN]
  }

  /** A new value for one field: cleared, kept, or the stripped text, blank meaning none. */
  function Edited(stored: Option<string>, clear: bool, value: Option<string>): Option<string> {
    if clear then None else if value.None? then stored else BlankToNone(value)
  }

  /** The arguments of an update. */
  datatype Edit = Edit(
    model: Option<string>, system: Option<string>, template: Option<string>, author: Option<string>,
    clearModel: bool, clearSystem: bool, clearTemplate: bool)

  function Reset(author: Option<string>): Edit {
    Edit(None, None, None, author, true, true, true)
  }

  function Updated(row: Option<Row>, e: Edit, now: Time): Row {
    var stored := row.GetOr(Row(None, None, None, None, None));
    var model := Edited(stored.model, e.clearModel, e.model);
    Row(if !e.clearModel && e.model.Some? && model.Some? then Some(Truncate(model.value)) else model,
        Edited(stored.system, e.clearSystem, e.system), Edited(stored.template, e.clearTemplate, e.template), Some(now), e.author)
  }

  function RowAt(rows: map<AgentKey, Row>, key: AgentKey): Option<Row> {
    if key in rows then Some(rows[key]) else None
  }

  /** Resetting brings back the defaults, whatever was stored. */
  lemma ResetResolvesToDefaults(defaults: Defaults, key: AgentKey, row: Option<Row>, author: Option<string>, now: Time)
    ensures Resolve(defaults, key, Some(Updated(row, Reset(author), now)))
         == Resolve(defaults, key, None).(updatedAt := Some(now), updatedBy := author)
  {
  }

  lemma {:induction false} StripLeftTwice(s: string)
    ensures StripLeft(StripLeft(s)) == StripLeft(s)
    ensures StripLeft(s) != "" ==> !IsSpace(StripLeft(s)[0])
  {
    if s != "" && IsSpace(s[0]) {
      StripLeftTwice(s[1..]);
    }
  }

  lemma {:induction false} StripRightKeepsHead(s: string)
    requires s != "" && !IsSpace(s[0])
    ensures StripRight(s) != "" && StripRight(s)[0] == s[0]
    decreases |s|
  {
    if IsSpace(s[|s| - 1]) {
      StripRightKeepsHead(s[..|s| - 1]);
    }
  }

  lemma {:induction false} StripRightTwice(s: string)
    ensures StripRight(StripRight(s)) == StripRight(s)
    decreases |s|
  {
    if s != "" && IsSpace(s[|s| - 1]) {
      StripRightTwice(s[..|s| - 1]);
    }
  }

  lemma StripTwice(s: string)
    ensures Strip(Strip(s)) == Strip(s)
  {
    StripLeftTwice(s);
    var t := StripLeft(s);
    if t != "" {
      StripRightKeepsHead(t);
    }
    StripRightTwice(t);
  }

  /** What is written is what is read back: a nonblank override wins, up to blanks at its ends. */
  lemma OverrideIsReadBack(defaults: Defaults, key: AgentKey, row: Option<Row>, e: Edit, now: Time)
    ensures var r := Resolve(defaults, key, Some(Updated(row, e, now)));
            && r.updatedAt == Some(now) && r.updatedBy == e.author
            && (!e.clearSystem && e.system.Some? ==>
                  r.systemOverridden == (Strip(e.system.value) != "") &&
                  r.system == if Strip(e.system.value) != "" then Strip(e.system.value) else defaults.system(key))
            && (!e.clearTemplate && e.template.Some? ==>
                  r.templateOverridden == (Strip(e.template.value) != "") &&
                  r.template == if Strip(e.template.value) != "" then Strip(e.template.value) else defaults.template(key))
            && (!e.clearModel && e.model.Some? && |Strip(e.model.value)| <= MODEL_MAX_LEN ==>
                  r.modelOverridden == (Strip(e.model.value) != "") &&
                  r.model == if Strip(e.model.value) != "" then Strip(e.model.value) else defaults.model)
  {
    if e.system.Some? { StripTwice(e.system.value); }
    if e.template.Some? { StripTwice(e.template.value); }
    if e.model.Some? { StripTwice(e.model.value); }
  }

  /** What a field holds after an edit: nothing when cleared or set to blanks, the stripped text, or what it held. */
  ghost predicate EditedTo(before: Option<string>, clear: bool, value: Option<string>, after: Option<string>) {
    && (clear ==> after == None)
    && (!clear && value.None? ==> after == before)
    && (!clear && value.Some? && AllBlank(value.value) ==> after == None)
    && (!clear && value.Some? && !AllBlank(value.value) ==> after == Some(Strip(value.value)))
  }

  /** An update edits each field on its own, and keeps at most 200 characters of a model. */
  lemma EditsAreIndependent(row: Row, e: Edit, now: Time)
    ensures var after := Updated(Some(row), e, now);
            && EditedTo(row.system, e.clearSystem, e.system, after.system)
            && EditedTo(row.template, e.clearTemplate, e.template, after.template)
            && (if !e.clearModel && e.model.Some? && |Strip(e.model.value)| > 200
                then after.model == Some(Strip(e.model.value)[..200])
                else EditedTo(row.model, e.clearModel, e.model, after.model))
            && after.updatedAt == Some(now) && after.updatedBy == e.author
    ensures Updated(None, e, now) == Updated(Some(Row(None, None, None, None, None)), e, now)
  {
    if e.model.Some? { BlankIff(e.model.value); }
    if e.system.Some? { BlankIff(e.system.value); }
    if e.template.Some? { BlankIff(e.template.value); }
  }

  /** A field in force: the stored text, or the built-in one when it is missing or blank. */
  ghost predicate InForce(stored: Option<string>, builtIn: string, text: string, overridden: bool) {
    && (overridden <==> stored.Some? && !AllBlank(stored.value))
    && text == if overridden then Strip(stored.value) else builtIn
  }

  /** Each setting resolves on its own, and without a row all of them are built in. */
  lemma SettingsInForce(defaults: Defaults, key: AgentKey, row: Row)
    ensures var r := Resolve(defaults, key, Some(row));
            && r.key == key && r.updatedAt == row.updatedAt && r.updatedBy == row.updatedBy
            && InForce(row.model, defaults.model, r.model, r.modelOverridden)
            && InForce(row.system, defaults.system(key), r.system, r.systemOverridden)
            && InForce(row.template, defaults.template(key), r.template, r.templateOverridden)
    ensures Resolve(defaults, key, None) ==
            Resolved(key, defaults.model, defaults.system(key), defaults.template(key), false, false, false, None, None)
  {
    if row.model.Some? { BlankIff(row.model.value); }
    if row.system.Some? { BlankIff(row.system.value); }
    if row.template.Some? { BlankIff(row.template.value); }
  }

  /** The field-by-field edit, in the order the fields are written. */
  method EditRow(stored: Option<Row>, e: Edit, now: Time) returns (row: Row)
    ensures row == Updated(stored, e, now)
  {
    row := stored.GetOr(Row(None, None, None, None, None));
    if e.clearModel {
      row := row.(model := None);
    } else if e.model.Some? {
      var cleaned := Strip(e.model.value);
      row := row.(model := if cleaned == "" then None else Some(Truncate(cleaned)));
    }
    if e.clearSystem {
      row := row.(system := None);
    } else if e.system.Some? {
      var cleaned := Strip(e.system.value);
      row := row.(system := if cleaned == "" then None else Some(cleaned));
    }
    if e.clearTemplate {
      row := row.(template := None);
    } else if e.template.Some? {
      var cleaned := Strip(e.template.value);
      row := row.(template := if cleaned == "" then None else Some(cleaned));
    }
    row := row.(updatedBy := e.author, updatedAt := Some(now));
  }

  datatype Entry = Entry(stamp: Time, value: Resolved)

  /** The module's cache and the table, with every call running to its end undisturbed. */
  class AgentConfigs {
    const defaults: Defaults
    var rows: map<AgentKey, Row>
    var cache: map<AgentKey, Entry>

    constructor (defaults: Defaults, rows: map<AgentKey, Row>)
      ensures this.defaults == defaults && this.rows == rows && cache == map[] && Fresh()
    {
      this.defaults, this.rows, cache := defaults, rows, map[];
    }

    /** Everything cached is what the table resolves to now. */
    ghost predicate Fresh()
      reads this
    {
      forall key :: key in cache ==> cache[key].value == Resolve(defaults, key, RowAt(rows, key))
    }

    predicate Hit(key: AgentKey, now: Time)
      reads this
    {
      key in cache && now - cache[key].stamp < CACHE_TTL_SEC
    }

    method Invalidate(key: Option<AgentKey>)
      modifies this`cache
      ensures cache == if key.Some? then old(cache) - {key.value} else map[]
      ensures old(Fresh()) ==> Fresh()
    {
      if key.None? {
        cache := map[];
        return;
      }
      cache := cache - {key.value};
    }

    /** With a fresh cache and a session, a read always tells what the table resolves to. */
    method Get(hasSession: bool, key: AgentKey, now: Time) returns (r: Resolved)
      modifies this`cache
      ensures old(Fresh()) && hasSession ==> Fresh() && r == Resolve(defaults, key, RowAt(rows, key))
      ensures r == if old(Hit(key, now)) then old(cache)[key].value
                   else Resolve(defaults, key, if hasSession then RowAt(rows, key) else None)
      ensures cache == if old(Hit(key, now)) then old(cache) else old(cache)[key := Entry(now, r)]
    {
      if key in cache {
        var cached := cache[key];
        if now - cached.stamp < CACHE_TTL_SEC {
          return cached.value;
        }
      }
      var row := None;
      if hasSession {
        row := RowAt(rows, key);
      }
      r := Resolve(defaults, key, row);
      cache := cache[key := Entry(now, r)];
    }

    /** Back to the defaults, whatever was stored. */
    method ResetToDefaults(key: AgentKey, author: Option<string>, now: Time) returns (r: Resolved)
      modifies this
      ensures rows.Keys == old(rows).Keys + {key} && forall k :: k in old(rows) && k != key ==> rows[k] == old(rows)[k]
      ensures cache == old(cache) - {key}
      ensures r == Resolve(defaults, key, None).(updatedAt := Some(now), updatedBy := author)
      ensures r == Resolve(defaults, key, RowAt(rows, key))
      ensures old(Fresh()) ==> Fresh()
    {
      ResetResolvesToDefaults(defaults, key, RowAt(rows, key), author, now);
      r := Update(key, Reset(author), now);
    }

    method Update(key: AgentKey, e: Edit, now: Time) returns (r: Resolved)
      modifies this
      ensures rows == old(rows)[key := Updated(RowAt(old(rows), key), e, now)]
      ensures cache == old(cache) - {key}
      ensures r == Resolve(defaults, key, RowAt(rows, key))
      ensures old(Fresh()) ==> Fresh()
    {
      var row := EditRow(RowAt(rows, key), e, now);
      rows := rows[key := row];
      Invalidate(Some(key));
      r := Resolve(defaults, key, Some(row));
    }
  }
}

/**
 * The same cache under threads and outside writers: a read looks at the clock and the cache,
 * fetches the row, and stores the result in three separate steps, with any others between.
 */
module AgentConfigRaces {
  import opened Prelude
  import opened AgentConfig

  type ReaderId = nat

  datatype Phase =
    | Looked
    | Fetched(value: Resolved)
    | Done(end: Time, value: Resolved)

  /** `start` is the reading of the clock at the beginning of the call. */
  datatype Reader = Reader(key: AgentKey, hasSession: bool, start: Time, phase: Phase)

  /** The table as it was from a moment on, until the next moment. */
  datatype Moment = Moment(at: Time, rows: map<AgentKey, Row>)

  /** `timeline` is history. */
  datatype Config = Config(
    defaults: Defaults, now: Time, rows: map<AgentKey, Row>, cache: map<AgentKey, Entry>,
    readers: map<ReaderId, Reader>, timeline: seq<Moment>)

  function Init(defaults: Defaults, now: Time, rows: map<AgentKey, Row>): Config {
    Config(defaults, now, rows, map[], map[], [Moment(now, rows)])
  }

  datatype Label =
    | Tick(now: Time)
    | Begin(r: ReaderId, key: AgentKey, hasSession: bool)
    | Fetch(r: ReaderId)
    | Store(r: ReaderId)
    | Write(key: AgentKey, row: Option<Row>)
    | Invalidate(keys: set<AgentKey>)

  predicate Enabled(s: Config, l: Label) {
    match l
    case Tick(now) => s.now <= now
    case Begin(r, _, _) => r !in s.readers
    case Fetch(r) => r in s.readers && s.readers[r].phase.Looked?
    case Store(r) => r in s.readers && s.readers[r].phase.Fetched?
    case Write(_, _) => true
    case Invalidate(_) => true
  }

  function BeginStep(s: Config, r: ReaderId, key: AgentKey, hasSession: bool): Config {
    var hit := key in s.cache && s.now - s.cache[key].stamp < CACHE_TTL_SEC;
    s.(readers := s.readers[r := Reader(key, hasSession, s.now, if hit then Done(s.now, s.cache[key].value) else Looked)])
  }

  function FetchStep(s: Config, r: ReaderId): Config
    requires r in s.readers
  {
    var me := s.readers[r];
    var value := Resolve(s.defaults, me.key, if me.hasSession then RowAt(s.rows, me.key) else None);
    s.(readers := s.readers[r := me.(phase := Fetched(value))])
  }

  function StoreStep(s: Config, r: ReaderId): Config
    requires r in s.readers && s.readers[r].phase.Fetched?
  {
    var me := s.readers[r];
    s.(cache := s.cache[me.key := Entry(me.start, me.phase.value)],
       readers := s.readers[r := me.(phase := Done(s.now, me.phase.value))])
  }

  function WriteStep(s: Config, key: AgentKey, row: Option<Row>): Config {
    var rows := if row.Some? then s.rows[key := row.value] else s.rows - {key};
    s.(rows := rows, timeline := s.timeline + [Moment(s.now, rows)])
  }

  function Apply(s: Config, l: Label): Config
    requires Enabled(s, l)
  {
    match l
    case Tick(now) => s.(now := now)
    case Begin(r, key, hasSession) => BeginStep(s, r, key, hasSession)
    case Fetch(r) => FetchStep(s, r)
    case Store(r) => StoreStep(s, r)
    case Write(key, row) => WriteStep(s, key, row)
    case Invalidate(keys) => s.(cache := s.cache - keys)
  }

  function After(s: Config, run: seq<Label>): Option<Config> {
    if run == [] then Some(s)
    else
      var before := After(s, run[..|run| - 1]);
      var last := run[|run| - 1];
      if before.Some? && Enabled(before.value, last) then Some(Apply(before.value, last)) else None
  }

  ghost predicate Reachable(s: Config) {
    exists now, rows, run :: After(Init(s.defaults, now, rows), run) == Some(s)
  }

  // ----- what the steps do -----

  /** A read is served from the cache exactly for 30 s, and then leaves the cache alone. */
  lemma BeginEffect(s: Config, r: ReaderId, key: AgentKey, hasSession: bool)
    ensures var s' := BeginStep(s, r, key, hasSession);
            && s' == s.(readers := s'.readers) && s'.readers.Keys == s.readers.Keys + {r}
            && (forall g :: g in s.readers && g != r ==> s'.readers[g] == s.readers[g])
            && s'.readers[r].key == key && (s'.readers[r].hasSession <==> hasSession) && s'.readers[r].start == s.now
            && if key in s.cache && s.now - s.cache[key].stamp < 30.0
               then s'.readers[r].phase == Done(s.now, s.cache[key].value) else s'.readers[r].phase == Looked
  {
  }

  /** Its other two steps, undisturbed, are the rest of `AgentConfigs.Get`. */
  lemma UndisturbedRead(s: Config, r: ReaderId, key: AgentKey, hasSession: bool)
    requires r !in s.readers && !(key in s.cache && s.now - s.cache[key].stamp < CACHE_TTL_SEC)
    ensures var s1 := Apply(s, Begin(r, key, hasSession));
            Enabled(s1, Fetch(r)) && Enabled(Apply(s1, Fetch(r)), Store(r))
    ensures var value := Resolve(s.defaults, key, if hasSession && key in s.rows then Some(s.rows[key]) else None);
            var s' := Apply(Apply(Apply(s, Begin(r, key, hasSession)), Fetch(r)), Store(r));
            && s' == s.(readers := s'.readers, cache := s.cache[key := Entry(s.now, value)])
            && s'.readers == s.readers[r := Reader(key, hasSession, s.now, Done(s.now, value))]
  {
  }

  /** A writer changes one row, and reaches no cache; that takes an invalidation, of the keys it names. */
  lemma WriteEffect(s: Config, key: AgentKey, row: Option<Row>, keys: set<AgentKey>, other: AgentKey)
    ensures var s' := Apply(s, Write(key, row));
            && s' == s.(rows := s'.rows, timeline := s'.timeline)
            && (if row.Some? then key in s'.rows && s'.rows[key] == row.value else key !in s'.rows)
            && (other != key ==> (other in s'.rows <==> other in s.rows) && (other in s.rows ==> s'.rows[other] == s.rows[other]))
    ensures var s' := Apply(s, Invalidate(keys));
            && s' == s.(cache := s'.cache) && (other in s'.cache <==> other in s.cache && other !in keys)
            && (other in s'.cache ==> s'.cache[other] == s.cache[other])
  {
  }

  /** No step waits for another: a reader's next one, and any write or invalidation, is always possible. */
  lemma NobodyWaits(s: Config, r: ReaderId, key: AgentKey, hasSession: bool, row: Option<Row>, keys: set<AgentKey>, later: Time)
    requires s.now <= later
    ensures if r !in s.readers then Enabled(s, Begin(r, key, hasSession))
            else match s.readers[r].phase
                 case Looked => Enabled(s, Fetch(r))
                 case Fetched(_) => Enabled(s, Store(r))
                 case Done(_, _) => true
    ensures Enabled(s, Write(key, row)) && Enabled(s, Invalidate(keys)) && Enabled(s, Tick(later))
    ensures Apply(s, Tick(later)) == s.(now := later)
  {
  }

  // ----- where a value comes from -----

  /** `rows` was the table at time `t`. */
  ghost predicate WasTable(timeline: seq<Moment>, t: Time, rows: map<AgentKey, Row>) {
    exists i :: 0 <= i < |timeline| && timeline[i].rows == rows && timeline[i].at <= t
                && (i + 1 < |timeline| ==> t <= timeline[i + 1].at)
  }

  ghost predicate ReadAt(s: Config, key: AgentKey, value: Resolved, t: Time) {
    exists rows :: WasTable(s.timeline, t, rows) && value == Resolve(s.defaults, key, RowAt(rows, key))
  }

  /** What the table resolved to at some instant from `low` to `high`. */
  ghost predicate Sourced(s: Config, key: AgentKey, value: Resolved, low: Time, high: Time) {
    exists t :: low <= t <= high && ReadAt(s, key, value, t)
  }

  ghost predicate IsBlind(s: Config, g: ReaderId, key: AgentKey) {
    g in s.readers && !s.readers[g].hasSession && s.readers[g].key == key
  }

  /** The defaults, as a read without a session begun from `low` to `high` leaves them. */
  ghost predicate LeftBlind(s: Config, key: AgentKey, value: Resolved, low: Time, high: Time) {
    && value == Resolve(s.defaults, key, None)
    && exists g :: IsBlind(s, g, key) && low <= s.readers[g].start <= high
  }

  ghost predicate From(s: Config, key: AgentKey, value: Resolved, low: Time, high: Time) {
    Sourced(s, key, value, low, high) || LeftBlind(s, key, value, low, high)
  }

  ghost predicate EntryOk(s: Config, key: AgentKey)
    requires key in s.cache
  {
    From(s, key, s.cache[key].value, s.cache[key].stamp, s.now)
  }

  ghost predicate ReaderOk(s: Config, r: ReaderId)
    requires r in s.readers
  {
    var me := s.readers[r];
    && me.start <= s.now
    && match me.phase
       case Looked => true
       case Fetched(value) => From(s, me.key, value, me.start, s.now)
       case Done(end, value) => exists low :: me.start - CACHE_TTL_SEC < low && From(s, me.key, value, low, end)
  }

  ghost predicate TimelineOk(s: Config) {
    && s.timeline != [] && s.timeline[|s.timeline| - 1].rows == s.rows
    && forall i :: 0 <= i < |s.timeline| ==> s.timeline[i].at <= s.now
  }

  ghost predicate Invariant(s: Config) {
    && TimelineOk(s)
    && (forall key :: key in s.cache ==> EntryOk(s, key))
    && (forall r :: r in s.readers ==> ReaderOk(s, r))
  }

  /** The past does not change. */
  ghost predicate Continues(s: Config, s': Config) {
    && s'.defaults == s.defaults && s.now <= s'.now
    && (forall g :: g in s.readers ==>
          g in s'.readers && s'.readers[g] == s.readers[g].(phase := s'.readers[g].phase))
    && (s'.timeline == s.timeline || (s'.now == s.now && |s'.timeline| == |s.timeline| + 1 && s.timeline < s'.timeline
                                      && s'.timeline[|s.timeline|].at == s.now))
  }

  lemma WasTableStays(s: Config, s': Config, t: Time, rows: map<AgentKey, Row>)
    requires Continues(s, s') && t <= s.now && WasTable(s.timeline, t, rows)
    ensures WasTable(s'.timeline, t, rows)
  {
    var i :| 0 <= i < |s.timeline| && s.timeline[i].rows == rows && s.timeline[i].at <= t
             && (i + 1 < |s.timeline| ==> t <= s.timeline[i + 1].at);
    assert s'.timeline[i] == s.timeline[i];
    assert i + 1 < |s.timeline| ==> s'.timeline[i + 1] == s.timeline[i + 1];
  }

  lemma SourcedStays(s: Config, s': Config, key: AgentKey, value: Resolved, low: Time, high: Time, high': Time)
    requires Continues(s, s') && high <= s.now && high <= high' && Sourced(s, key, value, low, high)
    ensures Sourced(s', key, value, low, high')
  {
    var t :| low <= t <= high && ReadAt(s, key, value, t);
    var rows :| WasTable(s.timeline, t, rows) && value == Resolve(s.defaults, key, RowAt(rows, key));
    WasTableStays(s, s', t, rows);
    assert ReadAt(s', key, value, t);
  }

  lemma FromStays(s: Config, s': Config, key: AgentKey, value: Resolved, low: Time, high: Time, high': Time)
    requires Continues(s, s') && high <= s.now && high <= high' && From(s, key, value, low, high)
    ensures From(s', key, value, low, high')
  {
    if Sourced(s, key, value, low, high) {
      SourcedStays(s, s', key, value, low, high, high');
    } else {
      var g :| IsBlind(s, g, key) && low <= s.readers[g].start <= high;
      assert IsBlind(s', g, key);
    }
  }

  lemma EntryStays(s: Config, s': Config, key: AgentKey)
    requires Continues(s, s') && key in s.cache && EntryOk(s, key) && key in s'.cache && s'.cache[key] == s.cache[key]
    ensures EntryOk(s', key)
  {
    FromStays(s, s', key, s.cache[key].value, s.cache[key].stamp, s.now, s'.now);
  }

  ghost predicate EndsInTime(s: Config, r: ReaderId)
    requires r in s.readers
  {
    s.readers[r].phase.Done? ==> s.readers[r].phase.end <= s.now
  }

  lemma ReaderStays(s: Config, s': Config, r: ReaderId)
    requires Continues(s, s') && r in s.readers && ReaderOk(s, r) && EndsInTime(s, r)
    requires r in s'.readers && s'.readers[r] == s.readers[r]
    ensures ReaderOk(s', r)
  {
    var me := s.readers[r];
    match me.phase
    case Looked =>
    case Fetched(value) => FromStays(s, s', me.key, value, me.start, s.now, s'.now);
    case Done(end, value) =>
      var low :| me.start - CACHE_TTL_SEC < low && From(s, me.key, value, low, end);
      FromStays(s, s', me.key, value, low, end, end);
  }

  ghost predicate Ok(s: Config) {
    Invariant(s) && forall r :: r in s.readers ==> EndsInTime(s, r)
  }

  lemma CurrentIsRead(s: Config, key: AgentKey)
    requires TimelineOk(s)
    ensures ReadAt(s, key, Resolve(s.defaults, key, RowAt(s.rows, key)), s.now)
  {
    var i := |s.timeline| - 1;
    assert s.timeline[i].rows == s.rows && s.timeline[i].at <= s.now;
    assert WasTable(s.timeline, s.now, s.rows);
  }

  /** A step that adds or moves at most reader `r` and leaves the cache alone. */
  lemma QuietStepKeepsOk(s: Config, s': Config, r: ReaderId)
    requires Ok(s) && Continues(s, s') && TimelineOk(s')
    requires forall key :: key in s'.cache ==> key in s.cache && s'.cache[key] == s.cache[key]
    requires forall g :: g in s'.readers && g != r ==> g in s.readers && s'.readers[g] == s.readers[g]
    requires r in s'.readers ==> ReaderOk(s', r) && EndsInTime(s', r)
    ensures Ok(s')
  {
    forall key | key in s'.cache ensures EntryOk(s', key) {
      EntryStays(s, s', key);
    }
    forall g | g in s'.readers ensures ReaderOk(s', g) && EndsInTime(s', g) {
      if g != r { ReaderStays(s, s', g); }
    }
  }

  lemma PlainStepKeepsOk(s: Config, s': Config)
    requires Ok(s) && Continues(s, s') && TimelineOk(s') && s'.readers == s.readers
    requires forall key :: key in s'.cache ==> key in s.cache && s'.cache[key] == s.cache[key]
    ensures Ok(s')
  {
    forall key | key in s'.cache ensures EntryOk(s', key) {
      EntryStays(s, s', key);
    }
    forall g | g in s'.readers ensures ReaderOk(s', g) && EndsInTime(s', g) {
      ReaderStays(s, s', g);
    }
  }

  lemma BeginKeepsOk(s: Config, r: ReaderId, key: AgentKey, hasSession: bool)
    requires Ok(s) && r !in s.readers
    ensures Ok(BeginStep(s, r, key, hasSession))
  {
    var s' := BeginStep(s, r, key, hasSession);
    if s'.readers[r].phase.Done? {
      var entry := s.cache[key];
      assert EntryOk(s, key);
      FromStays(s, s', key, entry.value, entry.stamp, s.now, s.now);
      assert s.now - CACHE_TTL_SEC < entry.stamp && From(s', key, entry.value, entry.stamp, s.now);
    }
    QuietStepKeepsOk(s, s', r);
  }

  lemma FetchKeepsOk(s: Config, r: ReaderId)
    requires Ok(s) && Enabled(s, Fetch(r))
    ensures Ok(FetchStep(s, r))
  {
    var s' := FetchStep(s, r);
    var me := s.readers[r];
    var value := s'.readers[r].phase.value;
    assert ReaderOk(s, r);
    if me.hasSession {
      CurrentIsRead(s', me.key);
      assert Sourced(s', me.key, value, me.start, s.now);
    } else {
      assert IsBlind(s', r, me.key);
    }
    QuietStepKeepsOk(s, s', r);
  }

  lemma StoreKeepsEntries(s: Config, r: ReaderId)
    requires Ok(s) && Enabled(s, Store(r))
    ensures var s' := StoreStep(s, r); forall key :: key in s'.cache ==> EntryOk(s', key)
  {
    var s' := StoreStep(s, r);
    var me := s.readers[r];
    assert ReaderOk(s, r);
    FromStays(s, s', me.key, me.phase.value, me.start, s.now, s.now);
    forall key | key in s'.cache ensures EntryOk(s', key) {
      if key != me.key { EntryStays(s, s', key); }
    }
  }

  lemma StoreKeepsReaders(s: Config, r: ReaderId)
    requires Ok(s) && Enabled(s, Store(r))
    ensures var s' := StoreStep(s, r); forall g :: g in s'.readers ==> ReaderOk(s', g) && EndsInTime(s', g)
  {
    var s' := StoreStep(s, r);
    var me := s.readers[r];
    assert ReaderOk(s, r);
    FromStays(s, s', me.key, me.phase.value, me.start, s.now, s.now);
    assert me.start - CACHE_TTL_SEC < me.start && From(s', me.key, me.phase.value, me.start, s.now);
    forall g | g in s'.readers ensures ReaderOk(s', g) && EndsInTime(s', g) {
      if g != r { ReaderStays(s, s', g); }
    }
  }

  lemma StoreKeepsOk(s: Config, r: ReaderId)
    requires Ok(s) && Enabled(s, Store(r))
    ensures Ok(StoreStep(s, r))
  {
    StoreKeepsEntries(s, r);
    StoreKeepsReaders(s, r);
  }

  lemma StepKeepsOk(s: Config, l: Label)
    requires Ok(s) && Enabled(s, l)
    ensures Ok(Apply(s, l))
  {
    match l
    case Tick(_) => PlainStepKeepsOk(s, Apply(s, l));
    case Begin(r, key, hasSession) => BeginKeepsOk(s, r, key, hasSession);
    case Fetch(r) => FetchKeepsOk(s, r);
    case Store(r) => StoreKeepsOk(s, r);
    case Write(_, _) => PlainStepKeepsOk(s, Apply(s, l));
    case Invalidate(_) => PlainStepKeepsOk(s, Apply(s, l));
  }

  lemma {:induction false} RunKeepsOk(s: Config, run: seq<Label>)
    requires Ok(s)
    ensures After(s, run).Some? ==> Ok(After(s, run).value)
  {
    if run != [] {
      var before, last := run[..|run| - 1], run[|run| - 1];
      RunKeepsOk(s, before);
      if After(s, before).Some? && Enabled(After(s, before).value, last) {
        StepKeepsOk(After(s, before).value, last);
      }
    }
  }

  /**
   * Bounded staleness, for every interleaving of readers, writers and invalidations: what a
   * read returns is what the table resolved to at some instant less than 30 s before the
   * read began, or later; or else it is the defaults, left by a read without a session that
   * began less than 30 s before.
   */
  lemma ReadsAreRecent(s: Config, r: ReaderId)
    requires Reachable(s) && r in s.readers && s.readers[r].phase.Done?
    ensures var me := s.readers[r];
            || (exists t :: me.start - CACHE_TTL_SEC < t <= me.phase.end && ReadAt(s, me.key, me.phase.value, t))
            || (&& me.phase.value == Resolve(s.defaults, me.key, None)
                && exists g :: IsBlind(s, g, me.key) && me.start - CACHE_TTL_SEC < s.readers[g].start <= me.phase.end)
  {
    var now, rows, run :| After(Init(s.defaults, now, rows), run) == Some(s);
    RunKeepsOk(Init(s.defaults, now, rows), run);
    assert ReaderOk(s, r);
    var me := s.readers[r];
    var low :| me.start - CACHE_TTL_SEC < low && From(s, me.key, me.phase.value, low, me.phase.end);
    if Sourced(s, me.key, me.phase.value, low, me.phase.end) {
      var t :| low <= t <= me.phase.end && ReadAt(s, me.key, me.phase.value, t);
    } else {
      var g :| IsBlind(s, g, me.key) && low <= s.readers[g].start <= me.phase.end;
    }
  }

  // ----- when the cache agrees with the table -----

  function Current(s: Config, key: AgentKey): Resolved {
    Resolve(s.defaults, key, RowAt(s.rows, key))
  }

  /** No write to the key and no read of it without a session. */
  predicate Calm(run: seq<Label>, key: AgentKey) {
    forall i :: 0 <= i < |run| ==> !(run[i].Write? && run[i].key == key) && !(run[i].Begin? && run[i].key == key && !run[i].hasSession)
  }

  predicate CacheAgrees(s: Config, key: AgentKey) {
    key in s.cache ==> s.cache[key].value == Current(s, key)
  }

  /** A reader on its way to storing something else: it has fetched it, or will fetch the defaults. */
  predicate WillDisagree(s: Config, key: AgentKey, r: ReaderId)
    requires r in s.readers
  {
    var me := s.readers[r];
    && me.key == key
    && ((me.phase.Fetched? && me.phase.value != Current(s, key))
        || (me.phase.Looked? && !me.hasSession && Resolve(s.defaults, key, None) != Current(s, key)))
  }

  predicate NoneInFlight(s: Config, key: AgentKey) {
    forall r :: r in s.readers ==> !WillDisagree(s, key, r)
  }

  /** Every read of the key that began after `s` has returned the current settings. */
  predicate NewReadsAgree(s: Config, s': Config, key: AgentKey) {
    forall r :: r in s'.readers && r !in s.readers && s'.readers[r].key == key && s'.readers[r].phase.Done? ==>
      s'.readers[r].phase.value == Current(s', key)
  }

  lemma CalmStepAgrees(s0: Config, s: Config, l: Label, key: AgentKey)
    requires Enabled(s, l) && Calm([l], key) && CacheAgrees(s, key) && NoneInFlight(s, key) && NewReadsAgree(s0, s, key)
    ensures CacheAgrees(Apply(s, l), key) && NoneInFlight(Apply(s, l), key) && NewReadsAgree(s0, Apply(s, l), key)
    ensures Current(Apply(s, l), key) == Current(s, key)
  {
    assert [l][0] == l;
    var s' := Apply(s, l);
    assert RowAt(s'.rows, key) == RowAt(s.rows, key);
    forall r | r in s'.readers ensures !WillDisagree(s', key, r) {
      if r in s.readers { assert !WillDisagree(s, key, r); }
    }
    if l.Store? { assert !WillDisagree(s, key, l.r); }
  }

  lemma {:induction false} CalmRunAgrees(s: Config, run: seq<Label>, key: AgentKey)
    requires CacheAgrees(s, key) && NoneInFlight(s, key) && Calm(run, key) && After(s, run).Some?
    ensures var s' := After(s, run).value;
            CacheAgrees(s', key) && NoneInFlight(s', key) && NewReadsAgree(s, s', key) && Current(s', key) == Current(s, key)
  {
    if run != [] {
      var before, last := run[..|run| - 1], run[|run| - 1];
      CalmRunAgrees(s, before, key);
      assert Calm([last], key) by { assert run[|run| - 1] == last; }
      CalmStepAgrees(s, After(s, before).value, last, key);
    }
  }

  ghost predicate KeepsAgreeing(s: Config, key: AgentKey) {
    forall run :: Calm(run, key) && After(s, run).Some? ==> CacheAgrees(After(s, run).value, key)
  }

  lemma FetchedIsStored(s: Config, key: AgentKey, r: ReaderId)
    requires r in s.readers && s.readers[r].key == key && s.readers[r].phase.Fetched?
    requires s.readers[r].phase.value != Current(s, key)
    ensures !KeepsAgreeing(s, key)
  {
    var run := [Store(r)];
    assert run[..0] == [];
    assert After(s, run) == Some(StoreStep(s, r));
    assert Calm(run, key) && !CacheAgrees(After(s, run).value, key);
  }

  lemma BlindWillStore(s: Config, key: AgentKey, r: ReaderId)
    requires r in s.readers && s.readers[r].key == key && s.readers[r].phase.Looked? && !s.readers[r].hasSession
    requires Resolve(s.defaults, key, None) != Current(s, key)
    ensures !KeepsAgreeing(s, key)
  {
    var s1 := FetchStep(s, r);
    var run := [Fetch(r), Store(r)];
    assert run[..1] == [Fetch(r)] && [Fetch(r)][..0] == [];
    assert After(s, [Fetch(r)]) == Some(s1);
    assert After(s, run) == Some(StoreStep(s1, r));
    assert Calm(run, key) && !CacheAgrees(After(s, run).value, key);
  }

  /**
   * Exact agreement, exactly when: with the key's entry dropped, as an update leaves it, the
   * cache agrees with the table through every calm continuation, whatever other readers do,
   * if and only if no reader of the key holds, or without a session is about to fetch,
   * something else. Then every read begun from there on returns the current settings.
   */
  lemma AgreesIffNoneInFlight(s: Config, key: AgentKey)
    requires key !in s.cache
    ensures KeepsAgreeing(s, key) <==> NoneInFlight(s, key)
    ensures NoneInFlight(s, key) ==>
              forall run :: Calm(run, key) && After(s, run).Some? ==> NewReadsAgree(s, After(s, run).value, key)
  {
    if NoneInFlight(s, key) {
      forall run | Calm(run, key) && After(s, run).Some?
        ensures CacheAgrees(After(s, run).value, key) && NewReadsAgree(s, After(s, run).value, key)
      {
        CalmRunAgrees(s, run, key);
      }
    } else {
      var r :| r in s.readers && WillDisagree(s, key, r);
      if s.readers[r].phase.Fetched? {
        FetchedIsStored(s, key, r);
      } else {
        BlindWillStore(s, key, r);
      }
    }
  }

  // ----- runs that end in disagreement -----

  lemma OneMore(s0: Config, run: seq<Label>, s: Config, l: Label)
    requires After(s0, run) == Some(s) && Enabled(s, l)
    ensures After(s0, run + [l]) == Some(Apply(s, l))
  {
    assert (run + [l])[..|run|] == run;
  }

  /**
   * A read that fetched before an update and stores after it puts the old settings back,
   * although the update did invalidate the cache.
   */
  lemma RacingReadUndoesInvalidation(defaults: Defaults, row: Row) returns (s: Config)
    ensures Reachable(s) && s.defaults == defaults && (forall r :: r in s.readers ==> s.readers[r].hasSession) && RowAt(s.rows, "parse") == Some(row)
    ensures "parse" in s.cache && s.cache["parse"].value == Resolve(defaults, "parse", None)
    ensures s.now - s.cache["parse"].stamp < CACHE_TTL_SEC
  {
    var s0 := Init(defaults, 0.0, map[]);
    OneMore(s0, [], s0, Begin(0, "parse", true));
    var s1 := Apply(s0, Begin(0, "parse", true));
    OneMore(s0, [] + [Begin(0, "parse", true)], s1, Fetch(0));
    var s2 := Apply(s1, Fetch(0));
    var run2 := [] + [Begin(0, "parse", true)] + [Fetch(0)];
    OneMore(s0, run2, s2, Write("parse", Some(row)));
    var s3 := Apply(s2, Write("parse", Some(row)));
    OneMore(s0, run2 + [Write("parse", Some(row))], s3, Invalidate({"parse"}));
    var s4 := Apply(s3, Invalidate({"parse"}));
    OneMore(s0, run2 + [Write("parse", Some(row))] + [Invalidate({"parse"})], s4, Store(0));
    s := Apply(s4, Store(0));
    assert After(Init(s.defaults, 0.0, map[]), run2 + [Write("parse", Some(row))] + [Invalidate({"parse"})] + [Store(0)]) == Some(s);
  }

  /** A read without a session leaves the defaults in the cache for readers that have one. */
  lemma ReadWithoutSessionPollutes(defaults: Defaults, row: Row) returns (s: Config)
    ensures Reachable(s) && s.defaults == defaults && RowAt(s.rows, "parse") == Some(row)
    ensures 1 in s.readers && s.readers[1].hasSession && s.readers[1].phase.Done?
    ensures s.readers[1].phase.value == Resolve(defaults, "parse", None)
  {
    var s0 := Init(defaults, 0.0, map["parse" := row]);
    OneMore(s0, [], s0, Begin(0, "parse", false));
    var s1 := Apply(s0, Begin(0, "parse", false));
    OneMore(s0, [] + [Begin(0, "parse", false)], s1, Fetch(0));
    var s2 := Apply(s1, Fetch(0));
    var run2 := [] + [Begin(0, "parse", false)] + [Fetch(0)];
    OneMore(s0, run2, s2, Store(0));
    var s3 := Apply(s2, Store(0));
    OneMore(s0, run2 + [Store(0)], s3, Begin(1, "parse", true));
    s := Apply(s3, Begin(1, "parse", true));
    assert After(Init(s.defaults, 0.0, map["parse" := row]), run2 + [Store(0)] + [Begin(1, "parse", true)]) == Some(s);
  }
}
