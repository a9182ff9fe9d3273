/** What every run of the gateway pool keeps: the agreement of its tables, the session cap, the
    published gauges, the dial budget, and that nobody waits while capacity is free. */
module GatewayPoolSafety {
  import opened IndexedHeap
  import opened Allocation
  import opened Network
  import opened Options
  import opened GatewayPool

  // ---------------------------------------------------------------------------------------------
  // The invariant
  // ---------------------------------------------------------------------------------------------

  /** The cap holds.  The priority of a record with room says which state it was last computed from, and
      that state is Closed only if the connection is closed for good; a full record is Unavailable.  A
      record with sessions carries no idle mark. */
  ghost predicate ItemFits(cfg: Config, nextId: nat, live: map<Conn, ConnState>, item: Entry<Meta>) {
    && item.id <= nextId
    && item.load <= cfg.maxSessions
    && (item.load < cfg.maxSessions ==>
          && (item.priority == 0 <==> item.body.meta.seen == Active)
          && (item.priority == 1 <==> item.body.meta.seen == Connecting)
          && (item.priority == 2 <==> item.body.meta.seen == Closed))
    && (item.load == cfg.maxSessions ==> item.priority == 2)
    && item.body.conn in live
    && (item.body.meta.seen == Closed ==> live[item.body.conn] == Closed)
    && (item.load > 0 ==> item.body.meta.idleSince.None?)
  }

  ghost predicate Fits(cfg: Config, p: Pool, live: map<Conn, ConnState>) {
    forall id :: id in p.table.items ==> ItemFits(cfg, p.nextId, live, p.table.items[id])
  }

  /** Where the handle of a bound key should point: at its route's connection, or nowhere. */
  ghost function Target(p: Pool, key: SessionKey): Option<Conn> {
    if key in p.table.routes && p.table.routes[key] in p.table.items
    then Some(p.table.items[p.table.routes[key]].body.conn) else None
  }

  ghost predicate Pointed(p: Pool) {
    && p.table.routes.Keys <= p.bindings.Keys
    && (forall k :: k in p.bindings ==> p.bindings[k] < p.nextHandle && p.bindings[k] in p.handles)
    && (forall k, k' :: k in p.bindings && k' in p.bindings && p.bindings[k] == p.bindings[k'] ==> k == k')
    && (forall k :: k in p.bindings ==> p.handles[p.bindings[k]] == Target(p, k))
  }

  ghost predicate Counted(p: Pool) {
    && p.sessionsRouted == |p.table.routes|
    && p.active == |InState(p.table.items, Active)|
    && p.connecting == |InState(p.table.items, Connecting)|
  }

  ghost predicate Core(cfg: Config, p: Pool, live: map<Conn, ConnState>) {
    Agrees(p.table) && Fits(cfg, p, live) && Pointed(p) && Counted(p)
  }

  ghost predicate Budgeted(cfg: Config, w: World) {
    && w.pool.pendingDials == w.dials
    && (cfg.maxConns > 0 ==>
          |w.pool.table.connections| + w.dials <= if cfg.minConns > cfg.maxConns then cfg.minConns else cfg.maxConns)
  }

  ghost predicate Inv(cfg: Config, w: World) {
    && Core(cfg, w.pool, w.live)
    && Settled(w.pool)
    && Budgeted(cfg, w)
    && (w.cleared ==> w.pool.closed && w.pool.table == Table(map[], map[], map[]))
  }

  // ---------------------------------------------------------------------------------------------
  // Each helper keeps the core
  // ---------------------------------------------------------------------------------------------

  lemma LivelyEvolves(cfg: Config, p: Pool, live: map<Conn, ConnState>, live': map<Conn, ConnState>)
    requires Core(cfg, p, live) && Evolves(live, live')
    ensures Core(cfg, p, live')
  {
  }

  lemma AddBindingCore(cfg: Config, p: Pool, live: map<Conn, ConnState>, key: SessionKey)
    requires Core(cfg, p, live) && key !in p.bindings
    ensures Core(cfg, AddBinding(p, key), live)
  {
  }

  lemma GaugeInsert(items: map<nat, Entry<Meta>>, id: nat, item: Entry<Meta>, state: ConnState)
    requires id !in items
    ensures |InState(items[id := item], state)| == |InState(items, state)| + Gauge(item.body.meta.state, state)
  {
    if item.body.meta.state == state {
      assert InState(items[id := item], state) == InState(items, state) + {id};
    } else {
      assert InState(items[id := item], state) == InState(items, state);
    }
  }

  lemma GaugeRemove(items: map<nat, Entry<Meta>>, id: nat, state: ConnState)
    requires id in items
    ensures |InState(items - {id}, state)| == |InState(items, state)| - Gauge(items[id].body.meta.state, state)
  {
    GaugeInsert(items - {id}, id, items[id], state);
    assert (items - {id})[id := items[id]] == items;
  }

  lemma GaugeOverwrite(items: map<nat, Entry<Meta>>, id: nat, item: Entry<Meta>, state: ConnState)
    requires id in items
    ensures |InState(items[id := item], state)|
         == |InState(items, state)| - Gauge(items[id].body.meta.state, state) + Gauge(item.body.meta.state, state)
  {
    GaugeRemove(items, id, state);
    GaugeInsert(items - {id}, id, item, state);
    assert (items - {id})[id := item] == items[id := item];
  }

  lemma AttachPointed(cfg: Config, p: Pool, key: SessionKey, id: nat, seen: ConnState)
    requires Pointed(p) && Keyed(p.table) && Routed(p.table)
    requires key in p.bindings && key !in p.table.routes && id in p.table.items
    ensures Pointed(AttachTo(cfg, p, key, id, seen))
  {
    var q := AttachTo(cfg, p, key, id, seen);
    forall k | k in q.bindings ensures q.handles[q.bindings[k]] == Target(q, k) {
      assert k != key ==> Target(q, k) == Target(p, k);
    }
  }

  lemma AttachCounted(cfg: Config, p: Pool, key: SessionKey, id: nat, seen: ConnState)
    requires Counted(p) && key in p.bindings && key !in p.table.routes && id in p.table.items
    ensures Counted(AttachTo(cfg, p, key, id, seen))
  {
    var q := AttachTo(cfg, p, key, id, seen);
    assert q.table.routes.Keys == p.table.routes.Keys + {key};
    GaugeOverwrite(p.table.items, id, q.table.items[id], Active);
    GaugeOverwrite(p.table.items, id, q.table.items[id], Connecting);
  }

  lemma FitsOverwrite(cfg: Config, p: Pool, q: Pool, live: map<Conn, ConnState>, id: nat)
    requires Fits(cfg, p, live) && id in p.table.items && id in q.table.items && q.nextId == p.nextId
    requires q.table.items == p.table.items[id := q.table.items[id]]
    requires ItemFits(cfg, p.nextId, live, p.table.items[id]) ==> ItemFits(cfg, q.nextId, live, q.table.items[id])
    ensures Fits(cfg, q, live)
  {
    hide ItemFits;
  }

  lemma AttachCore(cfg: Config, p: Pool, live: map<Conn, ConnState>, key: SessionKey, id: nat, seen: ConnState)
    requires Core(cfg, p, live) && key in p.bindings && key !in p.table.routes && Selects(p, id)
    requires seen == Closed ==> live[p.table.items[id].body.conn] == Closed
    ensures Core(cfg, AttachTo(cfg, p, key, id, seen), live)
  {
    var q := AttachTo(cfg, p, key, id, seen);
    FitsOverwrite(cfg, p, q, live, id);
    hide Fits, Pointed, Counted;
    assert Agrees(q.table) by {
      AttachAgrees(p.table, key, id, q.table.items[id].priority, q.table.items[id].body.meta);
    }
    AttachPointed(cfg, p, key, id, seen);
    AttachCounted(cfg, p, key, id, seen);
  }

  /** Unbind's first half: the binding goes and, if it was routed, so does the route. */
  function Unbound(cfg: Config, p: Pool, key: SessionKey, seen: ConnState, now: int): Pool
    requires key in p.table.routes && p.table.routes[key] in p.table.items
    requires p.table.items[p.table.routes[key]].load > 0
  {
    DetachKey(cfg, p.(bindings := p.bindings - {key}), key, seen, now)
  }

  lemma UnboundPointed(cfg: Config, p: Pool, key: SessionKey, seen: ConnState, now: int)
    requires Pointed(p) && Agrees(p.table) && key in p.table.routes && p.table.items[p.table.routes[key]].load > 0
    ensures Pointed(Unbound(cfg, p, key, seen, now))
  {
    var q := Unbound(cfg, p, key, seen, now);
    forall k | k in q.bindings ensures q.handles[q.bindings[k]] == Target(q, k) {
      assert k in p.bindings && Target(q, k) == Target(p, k);
    }
  }

  lemma UnboundCounted(cfg: Config, p: Pool, key: SessionKey, seen: ConnState, now: int)
    requires Counted(p) && Agrees(p.table) && key in p.table.routes && p.table.items[p.table.routes[key]].load > 0
    ensures Counted(Unbound(cfg, p, key, seen, now))
  {
    var q := Unbound(cfg, p, key, seen, now);
    var id := p.table.routes[key];
    assert p.table.routes.Keys == q.table.routes.Keys + {key};
    GaugeOverwrite(p.table.items, id, q.table.items[id], Active);
    GaugeOverwrite(p.table.items, id, q.table.items[id], Connecting);
  }

  lemma UnboundCore(cfg: Config, p: Pool, live: map<Conn, ConnState>, key: SessionKey, seen: ConnState, now: int)
    requires Core(cfg, p, live) && key in p.table.routes && p.table.items[p.table.routes[key]].load > 0
    requires seen == Closed ==> live[p.table.items[p.table.routes[key]].body.conn] == Closed
    ensures Core(cfg, Unbound(cfg, p, key, seen, now), live)
  {
    var q := Unbound(cfg, p, key, seen, now);
    var id := p.table.routes[key];
    FitsOverwrite(cfg, p, q, live, id);
    hide Fits, Pointed, Counted;
    assert Agrees(q.table) by {
      DetachAgrees(p.table, key, q.table.items[id].priority, q.table.items[id].body.meta);
    }
    UnboundPointed(cfg, p, key, seen, now);
    UnboundCounted(cfg, p, key, seen, now);
  }

  /** Dropping a binding that has no route. */
  lemma ForgetCore(cfg: Config, p: Pool, live: map<Conn, ConnState>, key: SessionKey)
    requires Core(cfg, p, live) && key !in p.table.routes
    ensures Core(cfg, p.(bindings := p.bindings - {key}), live)
  {
    var q := p.(bindings := p.bindings - {key});
    forall k | k in q.bindings ensures q.handles[q.bindings[k]] == Target(q, k) {
      assert Target(q, k) == Target(p, k);
    }
  }

  lemma TouchPointed(p: Pool, q: Pool, id: nat)
    requires Pointed(p) && id in p.table.items && id in q.table.items
    requires q.table.items == p.table.items[id := q.table.items[id]]
    requires q.table.items[id].body.conn == p.table.items[id].body.conn
    requires q.table.routes == p.table.routes
    requires q.bindings == p.bindings && q.handles == p.handles && q.nextHandle == p.nextHandle
    ensures Pointed(q)
  {
    forall k | k in q.bindings ensures q.handles[q.bindings[k]] == Target(q, k) {
      assert Target(q, k) == Target(p, k);
    }
  }

  lemma SetStateCore(cfg: Config, p: Pool, live: map<Conn, ConnState>, id: nat, state: ConnState)
    requires Core(cfg, p, live) && id in p.table.items
    ensures Core(cfg, SetState(p, id, state), live)
  {
    hide Agrees, Pointed, InState;
    var q := SetState(p, id, state);
    assert Agrees(q.table) by {
      TouchAgrees(p.table, id, q.table.items[id].priority, q.table.items[id].body.meta);
    }
    TouchPointed(p, q, id);
    GaugeOverwrite(p.table.items, id, q.table.items[id], Active);
    GaugeOverwrite(p.table.items, id, q.table.items[id], Connecting);
  }

  lemma RefreshCore(cfg: Config, p: Pool, live: map<Conn, ConnState>, id: nat, seen: ConnState)
    requires Core(cfg, p, live) && id in p.table.items
    requires seen == Closed ==> live[p.table.items[id].body.conn] == Closed
    ensures Core(cfg, Refresh(cfg, p, id, seen), live)
  {
    hide Agrees, Pointed, InState;
    var q := Refresh(cfg, p, id, seen);
    assert Agrees(q.table) by {
      TouchAgrees(p.table, id, q.table.items[id].priority, q.table.items[id].body.meta);
    }
    TouchPointed(p, q, id);
    GaugeOverwrite(p.table.items, id, q.table.items[id], Active);
    GaugeOverwrite(p.table.items, id, q.table.items[id], Connecting);
  }

  lemma AddItemPointed(p: Pool, item: Entry<Meta>)
    requires Pointed(p) && Routed(p.table) && item.id !in p.table.items
    ensures Pointed(AddItem(p, item))
  {
    var q := AddItem(p, item);
    forall k | k in q.bindings ensures q.handles[q.bindings[k]] == Target(q, k) {
      assert Target(q, k) == Target(p, k);
    }
  }

  lemma AddItemCore(cfg: Config, p: Pool, live: map<Conn, ConnState>, conn: Conn, first: ConnState, second: ConnState)
    requires Core(cfg, p, live) && conn !in p.table.connections && conn in live
    requires second == Closed ==> live[conn] == Closed
    ensures Core(cfg, AddItem(p, NewItem(cfg, p.nextId + 1, conn, first, second)), live)
  {
    var item := NewItem(cfg, p.nextId + 1, conn, first, second);
    var q := AddItem(p, item);
    AddItemFits(cfg, p, live, item);
    hide Fits, Pointed;
    assert Agrees(q.table) by {
      InsertAgrees(p.table, item);
    }
    AddItemPointed(p, item);
    GaugeInsert(p.table.items, item.id, item, Active);
    GaugeInsert(p.table.items, item.id, item, Connecting);
  }

  lemma AddItemFits(cfg: Config, p: Pool, live: map<Conn, ConnState>, item: Entry<Meta>)
    requires Fits(cfg, p, live) && Keyed(p.table) && item.id == p.nextId + 1 && ItemFits(cfg, item.id, live, item)
    ensures item.id !in p.table.items && Fits(cfg, AddItem(p, item), live)
  {
    forall id | id in p.table.items ensures id <= p.nextId && ItemFits(cfg, item.id, live, p.table.items[id]) {
      assert ItemFits(cfg, p.nextId, live, p.table.items[id]);
    }
    hide ItemFits;
  }

  lemma RemovePointed(p: Pool, id: nat)
    requires Pointed(p) && Agrees(p.table) && id in p.table.items
    ensures Pointed(RemoveItem(p, id))
  {
    var q := RemoveItem(p, id);
    DropAgrees(p.table, id);
    forall k | k in q.bindings ensures q.handles[q.bindings[k]] == Target(q, k) {
      assert k in q.table.routes ==> Target(q, k) == Target(p, k);
    }
  }

  lemma RemoveCounts(t: Table<Meta>, id: nat)
    requires Routed(t) && id in t.items
    ensures |Drop(t, id).routes| == |t.routes| - |t.items[id].body.sessions|
    ensures |InState(Drop(t, id).items, Active)| == |InState(t.items, Active)| - Gauge(t.items[id].body.meta.state, Active)
    ensures |InState(Drop(t, id).items, Connecting)|
         == |InState(t.items, Connecting)| - Gauge(t.items[id].body.meta.state, Connecting)
  {
    DropRoutes(t, id);
    GaugeRemove(t.items, id, Active);
    GaugeRemove(t.items, id, Connecting);
  }

  lemma RemoveCore(cfg: Config, p: Pool, live: map<Conn, ConnState>, id: nat)
    requires Core(cfg, p, live) && id in p.table.items
    ensures Core(cfg, RemoveItem(p, id), live)
  {
    DropAgrees(p.table, id);
    RemovePointed(p, id);
    RemoveCounts(p.table, id);
  }

  // ---------------------------------------------------------------------------------------------
  // Each step keeps the invariant
  // ---------------------------------------------------------------------------------------------

  /** p' differs from p only in routes added and records refreshed. */
  ghost predicate Extends(p: Pool, p': Pool) {
    && p.table.items.Keys == p'.table.items.Keys && p.table.connections == p'.table.connections
    && (forall k :: k in p.table.routes ==> k in p'.table.routes && p'.table.routes[k] == p.table.routes[k])
    && p.bindings == p'.bindings && p.closed == p'.closed && p.pendingDials == p'.pendingDials
  }

  lemma {:induction false} AssignsCore(cfg: Config, p: Pool, live: map<Conn, ConnState>, live': map<Conn, ConnState>,
                                       work: seq<Choice>, p': Pool)
    requires Core(cfg, p, live') && Assigns(cfg, p, live, live', work, p')
    ensures Core(cfg, p', live') && Extends(p, p')
    decreases |work|
  {
    hide Core;
    if work != [] {
      var c := work[0];
      AttachCore(cfg, p, live', c.key, c.id, c.seen);
      AssignsCore(cfg, AttachTo(cfg, p, c.key, c.id, c.seen), live, live', work[1..], p');
    }
  }

  lemma AssignsPendingCore(cfg: Config, p: Pool, live: map<Conn, ConnState>, live': map<Conn, ConnState>, p': Pool)
    requires Core(cfg, p, live') && AssignsPending(cfg, p, live, live', p')
    ensures Core(cfg, p', live') && Extends(p, p') && Settled(p')
  {
    var work :| Assigns(cfg, p, live, live', work, p');
    AssignsCore(cfg, p, live, live', work, p');
  }

  lemma CoreFacts(cfg: Config, p: Pool, live: map<Conn, ConnState>)
    requires Core(cfg, p, live)
    ensures p.table.routes.Keys <= p.bindings.Keys
    ensures forall c :: c in p.table.connections ==>
      p.table.connections[c] in p.table.items && p.table.items[p.table.connections[c]].body.conn == c
    ensures forall k :: k in p.table.routes ==> p.table.routes[k] in p.table.items && p.table.items[p.table.routes[k]].load > 0
  {
    forall k | k in p.table.routes ensures p.table.items[p.table.routes[k]].load > 0 {
      assert k in p.table.items[p.table.routes[k]].body.sessions;
    }
  }

  lemma ItemFacts(cfg: Config, p: Pool, live: map<Conn, ConnState>, id: nat)
    requires Core(cfg, p, live) && id in p.table.items
    ensures p.table.items[id].id == id && p.table.items[id].body.conn in live
    ensures p.table.items[id].load == |p.table.items[id].body.sessions|
    ensures p.table.items[id].body.conn in p.table.connections
  {
    assert ItemFits(cfg, p.nextId, live, p.table.items[id]);
  }

  lemma PriorityFacts(cfg: Config, p: Pool, live: map<Conn, ConnState>)
    requires Core(cfg, p, live)
    ensures forall id :: id in p.table.items ==> p.table.items[id].priority <= UNAVAILABLE
  {
    forall id | id in p.table.items ensures p.table.items[id].priority <= UNAVAILABLE {
      assert ItemFits(cfg, p.nextId, live, p.table.items[id]);
    }
  }

  lemma HandleFacts(cfg: Config, p: Pool, live: map<Conn, ConnState>, key: SessionKey)
    requires Core(cfg, p, live) && key in p.bindings
    ensures p.bindings[key] in p.handles
    ensures p.handles[p.bindings[key]].Some? ==> p.handles[p.bindings[key]].value in live
  {
    if key in p.table.routes {
      assert ItemFits(cfg, p.nextId, live, p.table.items[p.table.routes[key]]);
    }
  }

  lemma SessionFacts(cfg: Config, p: Pool, live: map<Conn, ConnState>, id: nat)
    requires Core(cfg, p, live) && id in p.table.items
    ensures forall k :: k in p.table.items[id].body.sessions ==>
      && k in p.table.routes && p.table.routes[k] == id && k in p.bindings && p.bindings[k] in p.handles
  {
  }

  /** The only ways a session can lose its route: its own Unbind, the removal of its closed
      connection, or Shutdown. */
  ghost predicate MayLose(w: World, op: Op, w': World, key: SessionKey)
    requires key in w.pool.table.routes
  {
    || (op.Unbind? && op.key == key)
    || (op.Sync? && op.conn in w'.live && w'.live[op.conn] == Closed && Target(w.pool, key) == Some(op.conn))
    || op.Empty?
  }

  ghost predicate RoutesStable(w: World, op: Op, w': World) {
    forall k :: k in w.pool.table.routes ==>
      || (k in w'.pool.table.routes && w'.pool.table.routes[k] == w.pool.table.routes[k])
      || MayLose(w, op, w', k)
  }

  lemma BindInv(cfg: Config, w: World, key: SessionKey, started: bool, w': World)
    requires Inv(cfg, w) && Step(cfg, w, Bind(key, started), w')
    ensures Inv(cfg, w') && RoutesStable(w, Bind(key, started), w')
  {
    hide Core, Priority;
    var p, p' := w.pool, w'.pool;
    LivelyEvolves(cfg, p, w.live, w'.live);
    if key !in p.bindings {
      var q := AddBinding(p, key);
      if SelectsNone(q) {
        AddBindingCore(cfg, p, w'.live, key);
        ReserveCore(cfg, q, w'.live, started);
      } else {
        var id, seen :|
          && Selects(q, id) && Sees(w.live, w'.live, q.table.items[id].body.conn, seen)
          && var r := AttachTo(cfg, q, key, id, seen);
             && started == (r.table.items[id].priority == ACTIVE && CanScale(cfg, r))
             && p' == Reserve(r, started);
        PlacedInv(cfg, w, key, id, seen, started, Bind(key, started), w');
      }
    }
  }

  lemma ReserveCore(cfg: Config, p: Pool, live: map<Conn, ConnState>, started: bool)
    requires Core(cfg, p, live)
    ensures Core(cfg, Reserve(p, started), live)
  {
    var q := Reserve(p, started);
    assert forall k :: Target(q, k) == Target(p, k);
  }

  lemma TryBindInv(cfg: Config, w: World, key: SessionKey, ok: bool, started: bool, w': World)
    requires Inv(cfg, w) && Step(cfg, w, TryBind(key, ok, started), w')
    ensures Inv(cfg, w') && RoutesStable(w, TryBind(key, ok, started), w')
  {
    hide Core, AnswersActive, Priority;
    var p, p' := w.pool, w'.pool;
    LivelyEvolves(cfg, p, w.live, w'.live);
    if key in p.bindings {
    } else if SelectsNone(p) {
      ReserveCore(cfg, p, w'.live, started);
    } else if ok {
      var id, first, seen :|
        && Selects(p, id)
        && Sees(w.live, w'.live, p.table.items[id].body.conn, first) && Sees(w.live, w'.live, p.table.items[id].body.conn, seen)
        && var r := AttachTo(cfg, AddBinding(p, key), key, id, seen);
           started == CanScale(cfg, r) && p' == Reserve(r, started);
      PlacedInv(cfg, w, key, id, seen, started, TryBind(key, ok, started), w');
    }
  }

  /** A new key is attached at once, and another connection may be started. */
  lemma PlacedInv(cfg: Config, w: World, key: SessionKey, id: nat, seen: ConnState, started: bool, op: Op, w': World)
    requires Inv(cfg, w) && Evolves(w.live, w'.live) && key !in w.pool.bindings && Selects(w.pool, id)
    requires Sees(w.live, w'.live, w.pool.table.items[id].body.conn, seen)
    requires var r := AttachTo(cfg, AddBinding(w.pool, key), key, id, seen);
      w'.pool == Reserve(r, started) && (started ==> CanDial(cfg, r))
    requires w'.dials == w.dials + (if started then 1 else 0) && w'.cleared == w.cleared
    ensures Inv(cfg, w') && RoutesStable(w, op, w')
  {
    hide Core, Priority;
    LivelyEvolves(cfg, w.pool, w.live, w'.live);
    CoreFacts(cfg, w.pool, w.live);
    PlacedCore(cfg, w.pool, w'.live, key, id, seen, started);
  }

  /** A new key bound and attached at once. */
  lemma PlacedCore(cfg: Config, p: Pool, live: map<Conn, ConnState>, key: SessionKey, id: nat, seen: ConnState, started: bool)
    requires Core(cfg, p, live) && Settled(p) && key !in p.bindings && Selects(p, id)
    requires seen == Closed ==> live[p.table.items[id].body.conn] == Closed
    ensures var r := Reserve(AttachTo(cfg, AddBinding(p, key), key, id, seen), started);
            Core(cfg, r, live) && Settled(r)
  {
    hide Core;
    CoreFacts(cfg, p, live);
    AddBindingCore(cfg, p, live, key);
    AttachCore(cfg, AddBinding(p, key), live, key, id, seen);
    ReserveCore(cfg, AttachTo(cfg, AddBinding(p, key), key, id, seen), live, started);
  }

  lemma UnbindInv(cfg: Config, w: World, key: SessionKey, now: int, w': World)
    requires Inv(cfg, w) && Step(cfg, w, Unbind(key, now), w')
    ensures Inv(cfg, w') && RoutesStable(w, Unbind(key, now), w')
  {
    hide Core;
    var p, p' := w.pool, w'.pool;
    LivelyEvolves(cfg, p, w.live, w'.live);
    CoreFacts(cfg, p, w.live);
    if key !in p.table.routes {
      ForgetCore(cfg, p, w'.live, key);
    } else {
      var q := p.(bindings := p.bindings - {key});
      var seen :|
        && Sees(w.live, w'.live, p.table.items[p.table.routes[key]].body.conn, seen)
        && AssignsPending(cfg, DetachKey(cfg, q, key, seen, now), w.live, w'.live, p');
      UnboundCore(cfg, p, w'.live, key, seen, now);
      AssignsPendingCore(cfg, Unbound(cfg, p, key, seen, now), w.live, w'.live, p');
    }
  }

  /** While a connection is not closed, its record is Unavailable only for being full, and stays so. */
  lemma RefreshSettled(cfg: Config, p: Pool, live: map<Conn, ConnState>, id: nat, first: ConnState, second: ConnState)
    requires Core(cfg, p, live) && Settled(p) && id in p.table.items
    requires live[p.table.items[id].body.conn] != Closed
    ensures Settled(Refresh(cfg, SetState(p, id, first), id, second))
  {
    assert ItemFits(cfg, p.nextId, live, p.table.items[id]);
  }

  lemma SyncClosedInv(cfg: Config, w: World, conn: Conn, w': World)
    requires Inv(cfg, w) && Step(cfg, w, Sync(conn), w') && conn in w.pool.table.connections
    requires var id := w.pool.table.connections[conn];
             && id in w.pool.table.items && Sees(w.live, w'.live, conn, Closed)
             && AssignsPending(cfg, RemoveItem(SetState(w.pool, id, Closed), id), w.live, w'.live, w'.pool)
    ensures Inv(cfg, w') && RoutesStable(w, Sync(conn), w')
  {
    hide Core;
    var p, p' := w.pool, w'.pool;
    var id := p.table.connections[conn];
    var q := SetState(p, id, Closed);
    LivelyEvolves(cfg, p, w.live, w'.live);
    CoreFacts(cfg, p, w.live);
    SetStateCore(cfg, p, w'.live, id, Closed);
    RemoveCore(cfg, q, w'.live, id);
    AssignsPendingCore(cfg, RemoveItem(q, id), w.live, w'.live, p');
    assert Keyed(q.table) && Routed(q.table) by { CoreTables(cfg, q, w'.live); }
    DropOne(q.table, id);
    DropRoutes(q.table, id);
  }

  lemma CoreTables(cfg: Config, p: Pool, live: map<Conn, ConnState>)
    requires Core(cfg, p, live)
    ensures Keyed(p.table) && Routed(p.table) && Loaded(p.table)
  {
  }

  lemma SyncInv(cfg: Config, w: World, conn: Conn, w': World)
    requires Inv(cfg, w) && Step(cfg, w, Sync(conn), w')
    ensures Inv(cfg, w') && RoutesStable(w, Sync(conn), w')
  {
    hide Core;
    var p, p' := w.pool, w'.pool;
    LivelyEvolves(cfg, p, w.live, w'.live);
    CoreFacts(cfg, p, w.live);
    if conn in p.table.connections {
      var id := p.table.connections[conn];
      var first, second :|
        && Sees(w.live, w'.live, conn, first) && Sees(w.live, w'.live, conn, second)
        && var q := SetState(p, id, first);
           if first == Closed then AssignsPending(cfg, RemoveItem(q, id), w.live, w'.live, p')
           else p' == Refresh(cfg, q, id, second);
      if first == Closed {
        SyncClosedInv(cfg, w, conn, w');
      } else {
        SetStateCore(cfg, p, w'.live, id, first);
        RefreshCore(cfg, SetState(p, id, first), w'.live, id, second);
        RefreshSettled(cfg, p, w.live, id, first, second);
      }
    }
  }

  lemma DialInv(cfg: Config, w: World, conn: Conn, w': World)
    requires Inv(cfg, w) && Step(cfg, w, DialEnds(conn), w')
    ensures Inv(cfg, w') && RoutesStable(w, DialEnds(conn), w')
  {
    hide Core, AssignsPending, AddItem, NewItem;
    var p, p' := w.pool, w'.pool;
    LivelyEvolves(cfg, p, w.live, w'.live);
    var q := p.(pendingDials := p.pendingDials - 1);
    CountDialCore(cfg, p, w'.live, -1);
    if !p.closed {
      var first, second :|
        && conn !in p.table.connections && Sees(w.live, w'.live, conn, first) && Sees(w.live, w'.live, conn, second)
        && AssignsPending(cfg, AddItem(q, NewItem(cfg, q.nextId + 1, conn, first, second)), w.live, w'.live, p');
      var r := AddItem(q, NewItem(cfg, q.nextId + 1, conn, first, second));
      AddItemCore(cfg, q, w'.live, conn, first, second);
      AddedTables(cfg, q, conn, first, second);
      AssignsPendingCore(cfg, r, w.live, w'.live, p');
      assert r.table.connections.Keys == p.table.connections.Keys + {conn};
    }
  }

  lemma AddedTables(cfg: Config, p: Pool, conn: Conn, first: ConnState, second: ConnState)
    ensures var q := AddItem(p, NewItem(cfg, p.nextId + 1, conn, first, second));
      && q.table.connections == p.table.connections[conn := p.nextId + 1] && q.table.routes == p.table.routes
      && q.closed == p.closed && q.pendingDials == p.pendingDials
      && p.nextId + 1 in q.table.items
  {
  }

  lemma CountDialCore(cfg: Config, p: Pool, live: map<Conn, ConnState>, change: int)
    requires Core(cfg, p, live)
    ensures Core(cfg, p.(pendingDials := p.pendingDials + change), live)
  {
    var q := p.(pendingDials := p.pendingDials + change);
    assert forall k :: Target(q, k) == Target(p, k);
  }

  /** Reaping removes only records without sessions and stops at the minimum. */
  lemma {:induction false} ReapsCore(cfg: Config, p: Pool, live: map<Conn, ConnState>, now: int, ids: seq<nat>, p': Pool)
    requires Core(cfg, p, live) && Reaps(cfg, p, now, ids, p')
    ensures Core(cfg, p', live)
    ensures p'.table.routes == p.table.routes && p'.bindings == p.bindings && p'.closed == p.closed && p'.pendingDials == p.pendingDials
    ensures p'.table.items.Keys <= p.table.items.Keys
    ensures forall id :: id in p'.table.items ==> p'.table.items[id] == p.table.items[id]
    ensures |p'.table.connections| <= |p.table.connections|
    ensures |p.table.connections| >= cfg.minConns ==> |p'.table.connections| >= cfg.minConns
    decreases |ids|
  {
    hide Core;
    if ids != [] {
      RemoveCore(cfg, p, live, ids[0]);
      CoreTables(cfg, p, live);
      DropOne(p.table, ids[0]);
      assert p.table.items[ids[0]].body.sessions == {};
      ReapsCore(cfg, RemoveItem(p, ids[0]), live, now, ids[1..], p');
    }
  }

  lemma CleanupInv(cfg: Config, w: World, now: int, w': World)
    requires Inv(cfg, w) && Step(cfg, w, Cleanup(now), w')
    ensures Inv(cfg, w') && RoutesStable(w, Cleanup(now), w')
    ensures |w.pool.table.connections| >= cfg.minConns ==> |w'.pool.table.connections| >= cfg.minConns
  {
    hide Core;
    LivelyEvolves(cfg, w.pool, w.live, w'.live);
    var ids :| Reaps(cfg, w.pool, now, ids, w'.pool);
    ReapsCore(cfg, w.pool, w'.live, now, ids, w'.pool);
    if w.cleared {
      assert w'.pool.table.items.Keys == {};
    }
  }

  lemma EmptiedCore(cfg: Config, p: Pool, live: map<Conn, ConnState>)
    requires Core(cfg, p, live)
    ensures Core(cfg, Emptied(p), live) && Settled(Emptied(p))
  {
    assert InState(map[], Active) == {} && InState(map[], Connecting) == {};
  }

  lemma StepInv(cfg: Config, w: World, op: Op, w': World)
    requires Inv(cfg, w) && Step(cfg, w, op, w')
    ensures Inv(cfg, w') && RoutesStable(w, op, w')
  {
    match op
    case Bind(key, started) => BindInv(cfg, w, key, started, w');
    case TryBind(key, ok, started) => TryBindInv(cfg, w, key, ok, started, w');
    case Unbind(key, now) => UnbindInv(cfg, w, key, now, w');
    case Sync(conn) => SyncInv(cfg, w, conn, w');
    case DialEnds(conn) => DialInv(cfg, w, conn, w');
    case Cleanup(now) => CleanupInv(cfg, w, now, w');
    case _ => SmallStepInv(cfg, w, op, w');
  }

  lemma SmallStepInv(cfg: Config, w: World, op: Op, w': World)
    requires Inv(cfg, w) && Step(cfg, w, op, w')
    requires op.DialFails? || op.StartMin? || op.MarkClosed? || op.Empty? || op.Environment?
    ensures Inv(cfg, w') && RoutesStable(w, op, w')
  {
    hide Core;
    LivelyEvolves(cfg, w.pool, w.live, w'.live);
    if op.Empty? {
      EmptiedCore(cfg, w.pool, w'.live);
    } else if op.MarkClosed? {
      MarkCore(cfg, w.pool, w'.live);
    } else {
      CountDialCore(cfg, w.pool, w'.live, w'.pool.pendingDials - w.pool.pendingDials);
    }
  }

  lemma MarkCore(cfg: Config, p: Pool, live: map<Conn, ConnState>)
    requires Core(cfg, p, live)
    ensures Core(cfg, p.(closed := true), live)
  {
    assert forall k :: Target(p.(closed := true), k) == Target(p, k);
  }

  // ---------------------------------------------------------------------------------------------
  // Whole runs
  // ---------------------------------------------------------------------------------------------

  /** The pool invariant holds in every state of every run. */
  lemma {:induction false} EveryRun(cfg: Config, ws: seq<World>, ops: seq<Op>, n: nat)
    requires Run(cfg, ws, ops) && n < |ws|
    ensures Inv(cfg, ws[n])
  {
    if n == 0 {
      assert InState(map[], Active) == {} && InState(map[], Connecting) == {};
    } else {
      EveryRun(cfg, ws, ops, n - 1);
      assert Step(cfg, ws[n - 1], ops[n - 1], ws[n]);
      StepInv(cfg, ws[n - 1], ops[n - 1], ws[n]);
    }
  }

  /** In no reachable state does a session wait while a record could still take it. */
  lemma NobodyWaits(cfg: Config, ws: seq<World>, ops: seq<Op>, n: nat, key: SessionKey, id: nat)
    requires Run(cfg, ws, ops) && n < |ws|
    requires key in ws[n].pool.bindings && key !in ws[n].pool.table.routes && id in ws[n].pool.table.items
    ensures ws[n].pool.table.items[id].priority == UNAVAILABLE
  {
    EveryRun(cfg, ws, ops, n);
  }

  /** A route stays where it is for as long as nothing that may take it away happens. */
  lemma {:induction false} RouteHolds(cfg: Config, ws: seq<World>, ops: seq<Op>, i: nat, j: nat, key: SessionKey)
    requires Run(cfg, ws, ops) && i <= j < |ws| && key in ws[i].pool.table.routes
    requires forall t :: i <= t < j && key in ws[t].pool.table.routes ==> !MayLose(ws[t], ops[t], ws[t + 1], key)
    ensures key in ws[j].pool.table.routes && ws[j].pool.table.routes[key] == ws[i].pool.table.routes[key]
    decreases j
  {
    hide Step, Inv;
    if i < j {
      RouteHolds(cfg, ws, ops, i, j - 1, key);
      EveryRun(cfg, ws, ops, j - 1);
      assert Step(cfg, ws[j - 1], ops[j - 1], ws[j]);
      StepInv(cfg, ws[j - 1], ops[j - 1], ws[j]);
    }
  }

  /** A closed pool stays closed and takes no connection in. */
  lemma ClosedStep(cfg: Config, w: World, op: Op, w': World)
    requires Inv(cfg, w) && Step(cfg, w, op, w') && w.pool.closed
    ensures w'.pool.closed && w'.pool.table.connections.Keys <= w.pool.table.connections.Keys
  {
    hide Core;
    var p, p' := w.pool, w'.pool;
    LivelyEvolves(cfg, p, w.live, w'.live);
    CoreFacts(cfg, p, w.live);
    match op
    case Unbind(key, now) =>
      if key in p.table.routes {
        var q := p.(bindings := p.bindings - {key});
        var seen :|
          && Sees(w.live, w'.live, p.table.items[p.table.routes[key]].body.conn, seen)
          && AssignsPending(cfg, DetachKey(cfg, q, key, seen, now), w.live, w'.live, p');
        UnboundCore(cfg, p, w'.live, key, seen, now);
        AssignsPendingCore(cfg, Unbound(cfg, p, key, seen, now), w.live, w'.live, p');
      }
    case Sync(conn) =>
      if conn in p.table.connections {
        var id := p.table.connections[conn];
        var first, second :|
          && Sees(w.live, w'.live, conn, first) && Sees(w.live, w'.live, conn, second)
          && var q := SetState(p, id, first);
             if first == Closed then AssignsPending(cfg, RemoveItem(q, id), w.live, w'.live, p')
             else p' == Refresh(cfg, q, id, second);
        SetStateCore(cfg, p, w'.live, id, first);
        if first == Closed {
          RemoveCore(cfg, SetState(p, id, first), w'.live, id);
          AssignsPendingCore(cfg, RemoveItem(SetState(p, id, first), id), w.live, w'.live, p');
        }
      }
    case Cleanup(now) =>
      var ids :| Reaps(cfg, p, now, ids, p');
      ReapsKeys(cfg, p, now, ids, p');
    case _ =>
  }

  lemma {:induction false} ReapsKeys(cfg: Config, p: Pool, now: int, ids: seq<nat>, p': Pool)
    requires Reaps(cfg, p, now, ids, p')
    ensures p'.table.connections.Keys <= p.table.connections.Keys && p'.closed == p.closed
    decreases |ids|
  {
    if ids != [] {
      ReapsKeys(cfg, RemoveItem(p, ids[0]), now, ids[1..], p');
    }
  }

  /** Once Shutdown has marked the pool closed no connection enters it, and once it has emptied the
      pool there is never again a connection or a routed key. */
  lemma {:induction false} ShutdownIsFinal(cfg: Config, ws: seq<World>, ops: seq<Op>, i: nat, j: nat)
    requires Run(cfg, ws, ops) && i <= j < |ws| && ws[i].pool.closed
    ensures ws[j].pool.closed && ws[j].pool.table.connections.Keys <= ws[i].pool.table.connections.Keys
    ensures ws[i].cleared ==> ws[j].cleared && ws[j].pool.table == Table(map[], map[], map[])
    decreases j
  {
    hide Core, PoolStep;
    EveryRun(cfg, ws, ops, j);
    if i < j {
      ShutdownIsFinal(cfg, ws, ops, i, j - 1);
      EveryRun(cfg, ws, ops, j - 1);
      assert Step(cfg, ws[j - 1], ops[j - 1], ws[j]);
      ClosedStep(cfg, ws[j - 1], ops[j - 1], ws[j]);
    }
  }
}
