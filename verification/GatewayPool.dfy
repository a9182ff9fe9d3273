/** The gateway's dynamic connection pool as a state machine: one step per critical section of the
    pool's mutex, interleaved with connection state changes that do not take the mutex.

    The allocation heap does not appear here.  A step allocates from the least record in
    (priority, load, id), found by looking at all of them; the ConnectionPool class shows that the
    heap makes the same choice. */
module GatewayPool {
  import opened IndexedHeap
  import opened Allocation
  import opened Network
  import opened Options

  const ACTIVE: nat := 0
  const CONNECTING: nat := 1
  const UNAVAILABLE: nat := 2

  /** maxConns <= 0 means no limit. */
  datatype Config = Config(minConns: nat, targetSessions: nat, maxSessions: nat, maxConns: int, idleTimeout: int)

  /** seen is history: the state the record's priority was last computed from. */
  datatype Meta = Meta(state: ConnState, idleSince: Option<int>, seen: ConnState)

  /** A handle stands for one SessionBinding; handles maps it to the connection it points at.  The
      last three fields are the gauges the pool publishes. */
  datatype Pool = Pool(
    table: Table<Meta>,
    nextId: nat,
    bindings: map<SessionKey, nat>,
    handles: map<nat, Option<Conn>>,
    nextHandle: nat,
    closed: bool,
    pendingDials: int,
    sessionsRouted: int,
    active: int,
    connecting: int)

  /** dials counts the startDial tasks that have not yet reached their critical section; cleared
      holds once Shutdown has emptied the pool. */
  datatype World = World(pool: Pool, live: map<Conn, ConnState>, dials: nat, cleared: bool)

  // ---------------------------------------------------------------------------------------------
  // Reading: priorities, selection and the connection states seen without the mutex
  // ---------------------------------------------------------------------------------------------

  function Priority(cfg: Config, load: nat, state: ConnState): nat {
    if load >= cfg.maxSessions then UNAVAILABLE
    else match state
      case Active => ACTIVE
      case Connecting => CONNECTING
      case Closed => UNAVAILABLE
  }

  ghost predicate Selects(p: Pool, id: nat) {
    IsLeast(p.table.items, id) && p.table.items[id].priority != UNAVAILABLE
  }

  ghost predicate SelectsNone(p: Pool) {
    forall id :: id in p.table.items ==> p.table.items[id].priority == UNAVAILABLE
  }

  // ---------------------------------------------------------------------------------------------
  // Writing: the effect of each helper that runs under the mutex
  // ---------------------------------------------------------------------------------------------

  function Gauge(state: ConnState, which: ConnState): int {
    if state == which then 1 else 0
  }

  function AddBinding(p: Pool, key: SessionKey): Pool {
    p.(bindings := p.bindings[key := p.nextHandle],
       handles := p.handles[p.nextHandle := None],
       nextHandle := p.nextHandle + 1)
  }

  function AttachTo(cfg: Config, p: Pool, key: SessionKey, id: nat, seen: ConnState): Pool
    requires id in p.table.items && key in p.bindings
  {
    var item := p.table.items[id];
    p.(table := Attach(p.table, key, id, Priority(cfg, item.load + 1, seen), item.body.meta.(idleSince := None, seen := seen)),
       handles := p.handles[p.bindings[key] := Some(item.body.conn)],
       sessionsRouted := p.sessionsRouted + 1)
  }

  function DetachKey(cfg: Config, p: Pool, key: SessionKey, seen: ConnState, now: int): Pool
    requires key in p.table.routes && p.table.routes[key] in p.table.items
    requires p.table.items[p.table.routes[key]].load > 0
  {
    var item := p.table.items[p.table.routes[key]];
    var meta := item.body.meta.(idleSince := if item.load == 1 then Some(now) else item.body.meta.idleSince, seen := seen);
    p.(table := Detach(p.table, key, Priority(cfg, item.load - 1, seen), meta),
       sessionsRouted := p.sessionsRouted - 1)
  }

  /** Records the state in the item and moves the gauges with it. */
  function SetState(p: Pool, id: nat, state: ConnState): Pool
    requires id in p.table.items
  {
    var item := p.table.items[id];
    p.(table := Touch(p.table, id, item.priority, item.body.meta.(state := state)),
       active := p.active - Gauge(item.body.meta.state, Active) + Gauge(state, Active),
       connecting := p.connecting - Gauge(item.body.meta.state, Connecting) + Gauge(state, Connecting))
  }

  function Refresh(cfg: Config, p: Pool, id: nat, seen: ConnState): Pool
    requires id in p.table.items
  {
    var item := p.table.items[id];
    p.(table := Touch(p.table, id, Priority(cfg, item.load, seen), item.body.meta.(seen := seen)))
  }

  function NewItem(cfg: Config, id: nat, conn: Conn, first: ConnState, second: ConnState): Entry<Meta> {
    Item(id, Priority(cfg, 0, second), 0, Body(conn, {}, Meta(first, None, second)))
  }

  function AddItem(p: Pool, item: Entry<Meta>): Pool {
    p.(table := Insert(p.table, item), nextId := item.id,
       active := p.active + Gauge(item.body.meta.state, Active),
       connecting := p.connecting + Gauge(item.body.meta.state, Connecting))
  }

  /** Clears the handles of the given sessions. */
  function Unpoint(bindings: map<SessionKey, nat>, handles: map<nat, Option<Conn>>, keys: set<SessionKey>): map<nat, Option<Conn>> {
    var gone := set k | k in keys && k in bindings :: bindings[k];
    map h | h in handles :: if h in gone then None else handles[h]
  }

  function RemoveItem(p: Pool, id: nat): Pool
    requires id in p.table.items
  {
    var item := p.table.items[id];
    p.(table := Drop(p.table, id),
       handles := Unpoint(p.bindings, p.handles, item.body.sessions),
       sessionsRouted := p.sessionsRouted - |item.body.sessions|,
       active := p.active - Gauge(item.body.meta.state, Active),
       connecting := p.connecting - Gauge(item.body.meta.state, Connecting))
  }

  predicate CanDial(cfg: Config, p: Pool) {
    && p.pendingDials <= 0
    && !p.closed
    && !(cfg.maxConns > 0 && |p.table.connections| + p.pendingDials >= cfg.maxConns)
  }

  ghost predicate CanScale(cfg: Config, p: Pool) {
    && CanDial(cfg, p)
    && exists id :: Selects(p, id) && p.table.items[id].priority == ACTIVE && p.table.items[id].load >= cfg.targetSessions
  }

  function Reserve(p: Pool, started: bool): Pool {
    if started then p.(pendingDials := p.pendingDials + 1) else p
  }

  function StartsNeeded(cfg: Config, p: Pool): nat {
    var have := |p.table.connections| + p.pendingDials;
    if have < cfg.minConns then cfg.minConns - have else 0
  }

  predicate Idle(cfg: Config, item: Entry<Meta>, now: int) {
    item.load == 0 && item.body.meta.idleSince.Some? && now - item.body.meta.idleSince.value >= cfg.idleTimeout
  }

  function InState(items: map<nat, Entry<Meta>>, state: ConnState): set<nat> {
    set id | id in items && items[id].body.meta.state == state
  }

  function Emptied(p: Pool): Pool {
    p.(table := Table(map[], map[], map[]),
       bindings := map[],
       handles := Unpoint(p.bindings, p.handles, p.bindings.Keys),
       sessionsRouted := p.sessionsRouted - |p.table.routes|,
       active := p.active - |InState(p.table.items, Active)|,
       connecting := p.connecting - |InState(p.table.items, Connecting)|)
  }

  // ---------------------------------------------------------------------------------------------
  // Steps
  // ---------------------------------------------------------------------------------------------

  datatype Choice = Choice(key: SessionKey, id: nat, seen: ConnState)

  /** Attaches waiting sessions one by one, each to the record selected at that moment. */
  ghost predicate Assigns(cfg: Config, p: Pool, live: map<Conn, ConnState>, live': map<Conn, ConnState>,
                          work: seq<Choice>, p': Pool)
    decreases |work|
  {
    if work == [] then p' == p
    else
      var c := work[0];
      && c.key in p.bindings && c.key !in p.table.routes && Selects(p, c.id)
      && Sees(live, live', p.table.items[c.id].body.conn, c.seen)
      && Assigns(cfg, AttachTo(cfg, p, c.key, c.id, c.seen), live, live', work[1..], p')
  }

  /** Nobody waits while some record could take a session. */
  ghost predicate Settled(p: Pool) {
    p.bindings.Keys <= p.table.routes.Keys || SelectsNone(p)
  }

  ghost predicate AssignsPending(cfg: Config, p: Pool, live: map<Conn, ConnState>, live': map<Conn, ConnState>, p': Pool) {
    Settled(p') && exists work :: Assigns(cfg, p, live, live', work, p')
  }

  ghost predicate Reaps(cfg: Config, p: Pool, now: int, ids: seq<nat>, p': Pool)
    decreases |ids|
  {
    if ids == [] then p' == p
    else
      && ids[0] in p.table.items && |p.table.connections| > cfg.minConns && Idle(cfg, p.table.items[ids[0]], now)
      && Reaps(cfg, RemoveItem(p, ids[0]), now, ids[1..], p')
  }

  ghost predicate BindStep(cfg: Config, p: Pool, live: map<Conn, ConnState>, live': map<Conn, ConnState>,
                           key: SessionKey, started: bool, p': Pool) {
    if key in p.bindings then p' == p && !started
    else
      var q := AddBinding(p, key);
      if SelectsNone(q) then
        started == CanDial(cfg, q) && p' == Reserve(q, started)
      else
        exists id, seen ::
          && Selects(q, id) && Sees(live, live', q.table.items[id].body.conn, seen)
          && var r := AttachTo(cfg, q, key, id, seen);
             && started == (r.table.items[id].priority == ACTIVE && CanScale(cfg, r))
             && p' == Reserve(r, started)
  }

  /** A key already bound is reported active when its handle points at an active connection. */
  ghost predicate AnswersActive(p: Pool, live: map<Conn, ConnState>, live': map<Conn, ConnState>, key: SessionKey, ok: bool)
    requires key in p.bindings
  {
    var h := p.bindings[key];
    if h !in p.handles || p.handles[h].None? then !ok
    else exists seen :: Sees(live, live', p.handles[h].value, seen) && ok == (seen == Active)
  }

  ghost predicate TryBindStep(cfg: Config, p: Pool, live: map<Conn, ConnState>, live': map<Conn, ConnState>,
                              key: SessionKey, ok: bool, started: bool, p': Pool) {
    if key in p.bindings then p' == p && !started && AnswersActive(p, live, live', key, ok)
    else if SelectsNone(p) then
      !ok && started == CanDial(cfg, p) && p' == Reserve(p, started)
    else
      exists id, first, seen ::
        && Selects(p, id)
        && Sees(live, live', p.table.items[id].body.conn, first) && Sees(live, live', p.table.items[id].body.conn, seen)
        && ok == (p.table.items[id].priority == ACTIVE && first == Active)
        && if !ok then p' == p && !started
           else
             var r := AttachTo(cfg, AddBinding(p, key), key, id, seen);
             started == CanScale(cfg, r) && p' == Reserve(r, started)
  }

  ghost predicate UnbindStep(cfg: Config, p: Pool, live: map<Conn, ConnState>, live': map<Conn, ConnState>,
                             key: SessionKey, now: int, p': Pool) {
    var q := p.(bindings := p.bindings - {key});
    if key !in p.table.routes then p' == q
    else
      exists seen ::
        && p.table.routes[key] in p.table.items && p.table.items[p.table.routes[key]].load > 0
        && Sees(live, live', p.table.items[p.table.routes[key]].body.conn, seen)
        && AssignsPending(cfg, DetachKey(cfg, q, key, seen, now), live, live', p')
  }

  ghost predicate SyncStep(cfg: Config, p: Pool, live: map<Conn, ConnState>, live': map<Conn, ConnState>,
                           conn: Conn, p': Pool) {
    if conn !in p.table.connections then p' == p
    else
      var id := p.table.connections[conn];
      exists first, second ::
        && id in p.table.items && Sees(live, live', conn, first) && Sees(live, live', conn, second)
        && var q := SetState(p, id, first);
           if first == Closed then AssignsPending(cfg, RemoveItem(q, id), live, live', p')
           else p' == Refresh(cfg, q, id, second)
  }

  ghost predicate DialStep(cfg: Config, p: Pool, live: map<Conn, ConnState>, live': map<Conn, ConnState>,
                           conn: Conn, p': Pool) {
    var q := p.(pendingDials := p.pendingDials - 1);
    if p.closed then p' == q
    else
      exists first, second ::
        && conn !in p.table.connections && Sees(live, live', conn, first) && Sees(live, live', conn, second)
        && AssignsPending(cfg, AddItem(q, NewItem(cfg, q.nextId + 1, conn, first, second)), live, live', p')
  }

  /** Reaping visits every record once, so it ends at the minimum or with no idle record left. */
  ghost predicate CleanupStep(cfg: Config, p: Pool, now: int, p': Pool) {
    && (exists ids :: Reaps(cfg, p, now, ids, p'))
    && (|p'.table.connections| <= cfg.minConns || forall id :: id in p'.table.items ==> !Idle(cfg, p'.table.items[id], now))
  }

  datatype Op =
    | Bind(key: SessionKey, started: bool)
    | TryBind(key: SessionKey, ok: bool, started: bool)
    | Unbind(key: SessionKey, now: int)
    | Sync(conn: Conn)
    | DialFails
    | DialEnds(conn: Conn)
    | StartMin
    | Cleanup(now: int)
    | MarkClosed
    | Empty
    | Environment

  ghost predicate PoolStep(cfg: Config, p: Pool, live: map<Conn, ConnState>, live': map<Conn, ConnState>, op: Op, p': Pool) {
    match op
    case Bind(key, started) => BindStep(cfg, p, live, live', key, started, p')
    case TryBind(key, ok, started) => TryBindStep(cfg, p, live, live', key, ok, started, p')
    case Unbind(key, now) => UnbindStep(cfg, p, live, live', key, now, p')
    case Sync(conn) => SyncStep(cfg, p, live, live', conn, p')
    case DialFails => p' == p.(pendingDials := p.pendingDials - 1)
    case DialEnds(conn) => DialStep(cfg, p, live, live', conn, p')
    case StartMin => p' == p.(pendingDials := p.pendingDials + StartsNeeded(cfg, p))
    case Cleanup(now) => CleanupStep(cfg, p, now, p')
    case MarkClosed => p' == p.(closed := true)
    case Empty => p.closed && p' == Emptied(p)
    case Environment => p' == p
  }

  /** startDial tasks begun and ended by an operation. */
  function DialsAfter(cfg: Config, w: World, op: Op): int {
    match op
    case Bind(_, started) => w.dials + if started then 1 else 0
    case TryBind(_, _, started) => w.dials + if started then 1 else 0
    case StartMin => w.dials + StartsNeeded(cfg, w.pool)
    case DialFails => w.dials - 1
    case DialEnds(_) => w.dials - 1
    case _ => w.dials
  }

  ghost predicate Step(cfg: Config, w: World, op: Op, w': World) {
    && Evolves(w.live, w'.live)
    && PoolStep(cfg, w.pool, w.live, w'.live, op, w'.pool)
    && w'.dials == DialsAfter(cfg, w, op)
    && w'.cleared == (w.cleared || op.Empty?)
  }

  ghost predicate Init(w: World) {
    && w.pool == Pool(Table(map[], map[], map[]), 0, map[], map[], 0, false, 0, 0, 0, 0)
    && w.dials == 0 && !w.cleared
  }

  /** A run: states ws, the i-th operation leading from ws[i] to ws[i + 1]. */
  ghost predicate Run(cfg: Config, ws: seq<World>, ops: seq<Op>) {
    && |ws| == |ops| + 1 && Init(ws[0])
    && forall i :: 0 <= i < |ops| ==> Step(cfg, ws[i], ops[i], ws[i + 1])
  }
}
