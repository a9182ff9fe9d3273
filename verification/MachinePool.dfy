/** The machine's ConnectionManager: each session goes to the least-loaded active connection and stays
    there until the session or the connection goes.  It allocates from the same heap as the gateway
    pool, with one priority for all. */
module MachinePool {
  import opened IndexedHeap
  import opened Allocation
  import opened Network
  import opened Options

  type Tables = Table<()>

  /** The tables with only the given records left, and the routes that lead to them. */
  function Keep(t: Tables, ids: set<nat>): Tables {
    Table(map id | id in t.items && id in ids :: t.items[id],
          map c | c in t.connections && t.connections[c] in ids :: t.connections[c],
          map k | k in t.routes && t.routes[k] in ids :: t.routes[k])
  }

  lemma DropKeptRoutes(t: Tables, ids: set<nat>, id: nat)
    requires Routed(t) && id in t.items && id in ids
    ensures Drop(Keep(t, ids), id).routes == Keep(t, ids - {id}).routes
  {
  }

  lemma DropKeptConnections(t: Tables, ids: set<nat>, id: nat)
    requires Keyed(t) && id in t.items && id in ids
    ensures Drop(Keep(t, ids), id).connections == Keep(t, ids - {id}).connections
    ensures Drop(Keep(t, ids), id).items == Keep(t, ids - {id}).items
  {
  }

  /** Dropping one more record from what is left. */
  lemma DropKept(t: Tables, ids: set<nat>, id: nat)
    requires Agrees(t) && id in t.items && id in ids
    ensures Drop(Keep(t, ids), id) == Keep(t, ids - {id})
  {
    DropKeptRoutes(t, ids, id);
    DropKeptConnections(t, ids, id);
  }

  /** No connection enters, and every route but key's is as before or gone with its connection. */
  ghost predicate OthersStable(t: Tables, t': Tables, key: SessionKey) {
    && t'.items.Keys <= t.items.Keys && t'.connections.Keys <= t.connections.Keys
    && (forall k :: k != key ==> (k in t'.routes <==> k in t.routes && t.routes[k] in t'.items))
    && (forall k :: k != key && k in t'.routes ==> t'.routes[k] == t.routes[k])
  }

  lemma StableCompose(t: Tables, t': Tables, t'': Tables, key: SessionKey)
    requires OthersStable(t, t', key) && OthersStable(t', t'', key)
    ensures OthersStable(t, t'', key)
  {
  }

  ghost predicate ItemGood(nextId: nat, live: map<Conn, ConnState>, item: Entry<()>) {
    item.id <= nextId && item.priority == 0 && item.body.conn in live
  }

  ghost predicate Good(t: Tables, nextId: nat, live: map<Conn, ConnState>) {
    Agrees(t) && forall id :: id in t.items ==> ItemGood(nextId, live, t.items[id])
  }

  lemma GoodFacts(t: Tables, nextId: nat, live: map<Conn, ConnState>)
    requires Good(t, nextId, live)
    ensures forall id :: id in t.items ==>
      id <= nextId && t.items[id].id == id && t.items[id].priority == 0 && t.items[id].body.conn in live
    ensures forall id :: id in t.items ==>
      t.items[id].body.conn in t.connections && t.connections[t.items[id].body.conn] == id
    ensures forall c :: c in t.connections ==> t.connections[c] in t.items && t.items[t.connections[c]].body.conn == c
    ensures forall k :: k in t.routes ==> t.routes[k] in t.items && t.items[t.routes[k]].load > 0
  {
    forall id | id in t.items
      ensures id <= nextId && t.items[id].priority == 0 && t.items[id].body.conn in live
    {
      assert ItemGood(nextId, live, t.items[id]);
    }
    forall k | k in t.routes ensures t.items[t.routes[k]].load > 0 {
      assert k in t.items[t.routes[k]].body.sessions;
    }
  }

  lemma SplitDrop(t: Tables, id: nat)
    requires id in t.items
    ensures Drop(t, id) ==
      Table(t.items - {id}, t.connections - {t.items[id].body.conn}, t.routes - t.items[id].body.sessions)
  {
  }

  /** Releasing a key takes its own route and one unit of its record's load, and no more. */
  lemma DetachStable(t: Tables, nextId: nat, live: map<Conn, ConnState>, key: SessionKey)
    requires Good(t, nextId, live) && key in t.routes
    ensures t.routes[key] in t.items && t.items[t.routes[key]].load > 0 && t.items[t.routes[key]].id == t.routes[key]
    ensures key !in Detach(t, key, 0, ()).routes && OthersStable(t, Detach(t, key, 0, ()), key)
    ensures Good(Detach(t, key, 0, ()), nextId, live)
    ensures |Detach(t, key, 0, ()).routes| == |t.routes| - 1
  {
    GoodFacts(t, nextId, live);
    DetachGood(t, nextId, live, key);
  }

  lemma GoodItem(t: Tables, nextId: nat, live: map<Conn, ConnState>, id: nat)
    requires Good(t, nextId, live) && id in t.items
    ensures t.items[id].id == id && t.items[id].body.conn in live
  {
    assert ItemGood(nextId, live, t.items[id]);
  }

  lemma SessionsOf(t: Tables, nextId: nat, live: map<Conn, ConnState>, id: nat)
    requires Good(t, nextId, live) && id in t.items
    ensures forall k :: k in t.items[id].body.sessions ==> k in t.routes && t.routes[k] == id
  {
  }

  lemma GoodEvolves(t: Tables, nextId: nat, live: map<Conn, ConnState>, live': map<Conn, ConnState>)
    requires Good(t, nextId, live) && Evolves(live, live')
    ensures Good(t, nextId, live')
  {
  }

  lemma InsertGood(t: Tables, nextId: nat, live: map<Conn, ConnState>, conn: Conn)
    requires Good(t, nextId, live) && conn !in t.connections && conn in live
    ensures nextId + 1 !in t.items
    ensures Good(Insert(t, Item(nextId + 1, 0, 0, Body(conn, {}, ()))), nextId + 1, live)
  {
    GoodFacts(t, nextId, live);
    InsertAgrees(t, Item(nextId + 1, 0, 0, Body(conn, {}, ())));
  }

  lemma DropGood(t: Tables, nextId: nat, live: map<Conn, ConnState>, id: nat)
    requires Good(t, nextId, live) && id in t.items
    ensures Good(Drop(t, id), nextId, live)
    ensures |Drop(t, id).connections| == |t.connections| - 1
    ensures |Drop(t, id).routes| == |t.routes| - |t.items[id].body.sessions|
  {
    DropAgrees(t, id);
    DropOne(t, id);
    DropRoutes(t, id);
  }

  lemma AttachGood(t: Tables, nextId: nat, live: map<Conn, ConnState>, key: SessionKey, id: nat)
    requires Good(t, nextId, live) && id in t.items && key !in t.routes
    ensures Good(Attach(t, key, id, 0, ()), nextId, live)
    ensures |Attach(t, key, id, 0, ()).routes| == |t.routes| + 1
  {
    hide Agrees;
    AttachAgrees(t, key, id, 0, ());
    assert Attach(t, key, id, 0, ()).routes.Keys == t.routes.Keys + {key};
  }

  lemma DetachGood(t: Tables, nextId: nat, live: map<Conn, ConnState>, key: SessionKey)
    requires Good(t, nextId, live) && key in t.routes && t.items[t.routes[key]].load > 0
    ensures Good(Detach(t, key, 0, ()), nextId, live)
    ensures |Detach(t, key, 0, ()).routes| == |t.routes| - 1
  {
    DetachAgrees(t, key, 0, ());
    assert t.routes.Keys == Detach(t, key, 0, ()).routes.Keys + {key};
  }

  /** The records not kept are those whose connection was read and was not active. */
  ghost predicate Evicted(t: Tables, kept: set<nat>, log: Log, log': Log, seen: map<nat, ConnState>) {
    && log <= log' && kept <= t.items.Keys && seen.Keys == t.items.Keys - kept
    && forall id :: id in seen ==> seen[id] != Active && Read(log, log', t.items[id].body.conn, seen[id])
  }

  lemma EvictedLater(t: Tables, kept: set<nat>, log: Log, mid: Log, log': Log, seen: map<nat, ConnState>)
    requires Evicted(t, kept, log, mid, seen) && mid <= log'
    ensures Evicted(t, kept, log, log', seen)
  {
    forall id | id in seen ensures Read(log, log', t.items[id].body.conn, seen[id]) {
      ReadLater(log, mid, log', t.items[id].body.conn, seen[id]);
    }
  }

  lemma EvictOneMore(t: Tables, kept: set<nat>, log: Log, mid: Log, seen: map<nat, ConnState>, id: nat, state: ConnState)
    requires Evicted(t, kept, log, mid, seen) && id in kept && state != Active
    ensures Evicted(t, kept - {id}, log, mid + [(t.items[id].body.conn, state)], seen[id := state])
  {
    EvictedLater(t, kept, log, mid, mid + [(t.items[id].body.conn, state)], seen);
    ReadNow(log, mid, t.items[id].body.conn, state);
    hide Read;
  }

  lemma EvictedLog(t: Tables, kept: set<nat>, log: Log, log': Log, seen: map<nat, ConnState>)
    requires Evicted(t, kept, log, log', seen)
    ensures log <= log'
  {
  }

  lemma NothingEvicted(t: Tables, log: Log)
    ensures Evicted(t, t.items.Keys, log, log, map[])
  {
  }

  /** The least record left takes the key. */
  ghost predicate Takes(t: Tables, kept: set<nat>, id: nat, key: SessionKey, conn: Conn, t': Tables) {
    var r := Keep(t, kept);
    && IsLeast(r.items, id) && r.items[id].body.conn == conn && key !in r.routes
    && t' == Attach(r, key, id, 0, ())
  }

  lemma TakesIntro(t: Tables, kept: set<nat>, id: nat, key: SessionKey, conn: Conn, t': Tables)
    requires var r := Keep(t, kept);
             && IsLeast(r.items, id) && r.items[id].body.conn == conn && key !in r.routes
             && t' == Attach(r, key, id, 0, ())
    ensures Takes(t, kept, id, key, conn, t')
  {
  }

  lemma KeepWhole(t: Tables, nextId: nat, live: map<Conn, ConnState>)
    requires Good(t, nextId, live)
    ensures Keep(t, t.items.Keys) == t
  {
  }

  lemma DropGoodKept(t: Tables, nextId: nat, live: map<Conn, ConnState>, ids: set<nat>, id: nat)
    requires Good(t, nextId, live) && id in t.items && id in ids
    ensures id in Keep(t, ids).items && Drop(Keep(t, ids), id) == Keep(t, ids - {id})
    ensures Keep(t, ids).items[id] == t.items[id]
  {
    DropKept(t, ids, id);
  }

  lemma KeptRoutes(t: Tables, ids: set<nat>)
    ensures forall k :: k in Keep(t, ids).routes ==> k in t.routes && t.routes[k] in ids
  {
  }

  lemma SelfStable(t: Tables, nextId: nat, live: map<Conn, ConnState>, key: SessionKey)
    requires Good(t, nextId, live)
    ensures OthersStable(t, t, key)
  {
  }

  lemma KeepStable(t: Tables, nextId: nat, live: map<Conn, ConnState>, ids: set<nat>, key: SessionKey)
    requires Good(t, nextId, live)
    ensures OthersStable(t, Keep(t, ids), key)
  {
  }

  lemma DropStable(t: Tables, nextId: nat, live: map<Conn, ConnState>, id: nat, key: SessionKey)
    requires Good(t, nextId, live) && id in t.items
    ensures OthersStable(t, Drop(t, id), key)
  {
    DropAgrees(t, id);
  }

  lemma NothingKept(t: Tables, nextId: nat, live: map<Conn, ConnState>, key: SessionKey)
    requires Good(t, nextId, live)
    ensures Keep(t, {}) == Table(map[], map[], map[]) && OthersStable(t, Keep(t, {}), key)
  {
  }

  lemma TakesStable(t: Tables, nextId: nat, live: map<Conn, ConnState>, kept: set<nat>, id: nat, key: SessionKey, conn: Conn, t': Tables)
    requires Good(t, nextId, live) && Takes(t, kept, id, key, conn, t')
    ensures OthersStable(t, t', key) && key in t'.routes && t'.routes[key] in t'.items && t'.items[t'.routes[key]].body.conn == conn
  {
    KeepStable(t, nextId, live, kept, key);
  }

  /** No record kept has fewer sessions, and of those with as many none is older. */
  ghost predicate Lightest(items: map<nat, Entry<()>>, kept: set<nat>, id: nat) {
    id in items && forall other :: other in kept && other in items && other != id ==>
      items[id].load < items[other].load || (items[id].load == items[other].load && id < other)
  }

  lemma TakesLightest(t: Tables, nextId: nat, live: map<Conn, ConnState>, kept: set<nat>, id: nat, key: SessionKey, conn: Conn, t': Tables)
    requires Good(t, nextId, live) && Takes(t, kept, id, key, conn, t')
    ensures key in t'.routes && t'.routes[key] in kept && Lightest(t.items, kept, t'.routes[key])
  {
    GoodFacts(t, nextId, live);
    var r := Keep(t, kept);
    forall other | other in kept && other in t.items && other != id
      ensures t.items[id].load < t.items[other].load || (t.items[id].load == t.items[other].load && id < other)
    {
      assert other in r.items && r.items[other] == t.items[other] && t.items[other].priority == 0 && t.items[other].id == other;
    }
  }

  class ConnectionManager {
    const net: StateWords
    const heap: Heap<Body<()>>
    var nextId: nat
    var connections: map<Conn, nat>
    var routes: map<SessionKey, nat>
    var connectionsActive: int
    var sessionsRouted: int

    ghost function View(): Tables
      reads this, heap
    {
      Table(heap.items, connections, routes)
    }

    ghost predicate Valid()
      reads this, heap, net
    {
      && heap.Valid() && Good(View(), nextId, net.live)
      && connectionsActive == |connections| && sessionsRouted == |routes|
    }

    constructor (net: StateWords)
      ensures Valid() && fresh(heap) && this.net == net && View() == Table(map[], map[], map[])
    {
      this.net := net;
      heap := new Heap();
      nextId, connections, routes := 0, map[], map[];
      connectionsActive, sessionsRouted := 0, 0;
    }

    /** Storing nil or a stored connection again changes nothing. */
    method Store(conn: Option<Conn>)
      requires Valid() && (conn.Some? ==> conn.value in net.live)
      modifies this, heap
      ensures Valid()
      ensures conn.None? || conn.value in old(connections) ==> View() == old(View())
      ensures conn.Some? && conn.value !in old(connections) ==>
        View() == Insert(old(View()), Item(old(nextId) + 1, 0, 0, Body(conn.value, {}, ())))
    {
      hide Good, Heap.Valid;
      if conn.None? || conn.value in connections {
        return;
      }
      InsertGood(View(), nextId, net.live, conn.value);
      nextId := nextId + 1;
      connections := connections[conn.value := nextId];
      heap.Push(Item(nextId, 0, 0, Body(conn.value, {}, ())));
      connectionsActive := connectionsActive + 1;
    }

    method UnrouteLocked(id: nat, sessions: set<SessionKey>)
      requires forall k :: k in sessions ==> k in routes && routes[k] == id
      modifies this`routes, this`sessionsRouted
      ensures routes == old(routes) - sessions && sessionsRouted == old(sessionsRouted) - |sessions|
    {
      var done: set<SessionKey> := {};
      while done != sessions
        invariant done <= sessions && routes == old(routes) - done && sessionsRouted == old(sessionsRouted) - |done|
        decreases |sessions - done|
      {
        var key :| key in sessions - done;
        assert sessions - (done + {key}) == sessions - done - {key};
        if key in routes && routes[key] == id {
          routes := routes - {key};
          sessionsRouted := sessionsRouted - 1;
        }
        done := done + {key};
      }
    }

    method RemoveConnectionLocked(id: nat)
      requires Valid() && id in heap.items
      modifies this`connections, this`routes, this`connectionsActive, this`sessionsRouted, heap
      ensures Valid() && View() == Drop(old(View()), id)
    {
      hide Good, Heap.Valid, Agrees;
      ghost var t := View();
      SessionsOf(t, nextId, net.live, id);
      DropGood(t, nextId, net.live, id);
      SplitDrop(t, id);
      hide Drop;
      var item := heap.Get(id);
      UnlinkLocked(id, item.body);
      heap.Remove(id);
    }

    method UnlinkLocked(id: nat, body: Body<()>)
      requires forall k :: k in body.sessions ==> k in routes && routes[k] == id
      modifies this`connections, this`routes, this`connectionsActive, this`sessionsRouted
      ensures connections == old(connections) - {body.conn} && connectionsActive == old(connectionsActive) - 1
      ensures routes == old(routes) - body.sessions && sessionsRouted == old(sessionsRouted) - |body.sessions|
    {
      connections := connections - {body.conn};
      connectionsActive := connectionsActive - 1;
      UnrouteLocked(id, body.sessions);
    }

    method AttachRootLocked(key: SessionKey) returns (ghost id: nat)
      requires Valid() && key !in routes && heap.queue != []
      modifies this`routes, this`sessionsRouted, heap
      ensures Valid() && IsLeast(old(heap.items), id) && id == old(heap.queue[0].id)
      ensures View() == Attach(old(View()), key, id, 0, ())
    {
      hide Good, Heap.Valid;
      heap.Root();
      GoodFacts(View(), nextId, net.live);
      var item := heap.queue[0];
      id := item.id;
      AttachGood(View(), nextId, net.live, key, item.id);
      routes := routes[key := item.id];
      sessionsRouted := sessionsRouted + 1;
      heap.Fix(AttachedItem(item, key, 0, ()));
    }

    /** Evicts roots whose connection is not active; the first active one takes the key.  Records may
        have been evicted from t before, and kept0 are those left. */
    method AllocateLocked(key: SessionKey, ghost t: Tables, ghost live: map<Conn, ConnState>, ghost log: Log,
                          ghost kept0: set<nat>, ghost seen0: map<nat, ConnState>)
      returns (conn: Option<Conn>, ghost kept: set<nat>, ghost seen: map<nat, ConnState>)
      requires Valid() && key !in routes
      requires Good(t, nextId, live) && Evolves(live, net.live)
      requires kept0 == heap.items.Keys <= t.items.Keys && View() == Keep(t, kept0) && Evicted(t, kept0, log, net.log, seen0)
      modifies this`connections, this`routes, this`connectionsActive, this`sessionsRouted, heap, net
      ensures Valid() && Evolves(live, net.live) && Evicted(t, kept, log, net.log, seen)
      ensures conn.None? ==> kept == {} && View() == Keep(t, {})
      ensures conn.Some? ==> Read(log, net.log, conn.value, Active) && exists id :: Takes(t, kept, id, key, conn.value, View())
    {
      hide Good, Heap.Valid, Keep, Evicted, Takes, Read;
      kept, seen := kept0, seen0;
      while |heap.queue| > 0
        invariant Valid() && key !in routes && Evolves(live, net.live) && kept <= t.items.Keys
        invariant heap.items.Keys == kept && View() == Keep(t, kept) && Evicted(t, kept, log, net.log, seen)
        decreases |kept|
      {
        heap.Root();
        var item := heap.queue[0];
        ghost var mid, read := net.live, net.log;
        GoodItem(View(), nextId, mid, item.id);
        GoodItem(t, nextId, live, item.id);
        var state := net.State(item.body.conn);
        GoodEvolves(View(), nextId, mid, net.live);
        DropGoodKept(t, nextId, live, kept, item.id);
        if state != Active {
          EvictOneMore(t, kept, log, read, seen, item.id, state);
          RemoveConnectionLocked(item.id);
          kept, seen := kept - {item.id}, seen[item.id := state];
          continue;
        }
        EvictedLater(t, kept, log, read, net.log, seen);
        assert log <= read by { EvictedLog(t, kept, log, read, seen); }
        ReadNow(log, read, item.body.conn, Active);
        ghost var id := AttachRootLocked(key);
        TakesIntro(t, kept, id, key, item.body.conn, View());
        return Some(item.body.conn), kept, seen;
      }
      heap.Root();
      return None, kept, seen;
    }

    /** Removes the record of a key's route when its connection is no longer active. */
    method DropStaleLocked(key: SessionKey) returns (conn: Option<Conn>, ghost seen: map<nat, ConnState>)
      requires Valid() && key in routes
      modifies this`connections, this`routes, this`connectionsActive, this`sessionsRouted, heap, net
      ensures Valid() && Evolves(old(net.live), net.live) && old(net.log) <= net.log
      ensures conn.Some? ==>
        && View() == old(View()) && old(routes[key]) in old(heap.items) && conn.value == old(heap.items[routes[key]].body.conn)
        && Read(old(net.log), net.log, conn.value, Active)
      ensures conn.None? ==>
        && View() == Keep(old(View()), heap.items.Keys) && heap.items.Keys == old(heap.items.Keys) - {old(routes[key])}
        && key !in routes && Evicted(old(View()), heap.items.Keys, old(net.log), net.log, seen)
    {
      hide Good, Heap.Valid, Keep, Read;
      ghost var t, live, log := View(), net.live, net.log;
      GoodFacts(t, nextId, live);
      KeepWhole(t, nextId, live);
      var id := routes[key];
      var item := heap.Get(id);
      DropGoodKept(t, nextId, live, t.items.Keys, id);
      var state := net.State(item.body.conn);
      GoodEvolves(t, nextId, live, net.live);
      seen := map[];
      if state == Active {
        ReadNow(log, log, item.body.conn, Active);
        return Some(item.body.conn), seen;
      }
      NothingEvicted(t, log);
      EvictOneMore(t, t.items.Keys, log, log, map[], id, state);
      RemoveConnectionLocked(id);
      KeptRoutes(t, t.items.Keys - {id});
      return None, map[id := state];
    }

    /** The route of key, kept while its connection is active and otherwise allocated anew. */
    method Select(key: SessionKey) returns (conn: Option<Conn>, ghost kept: set<nat>, ghost seen: map<nat, ConnState>)
      requires Valid()
      modifies this`connections, this`routes, this`connectionsActive, this`sessionsRouted, heap, net
      ensures Valid() && Evolves(old(net.live), net.live)
      ensures Evicted(old(View()), kept, old(net.log), net.log, seen) && OthersStable(old(View()), View(), key)
      ensures conn.Some? ==> Read(old(net.log), net.log, conn.value, Active)
      ensures conn.None? ==> connections == map[] && routes == map[]
      ensures conn.Some? ==> key in routes && routes[key] in heap.items && heap.items[routes[key]].body.conn == conn.value
      ensures conn.Some? ==>
        || (View() == old(View()) && kept == old(heap.items.Keys) && key in old(routes))
        || (routes[key] in kept && Lightest(old(heap.items), kept, routes[key])
            && exists id :: Takes(old(View()), kept, id, key, conn.value, View()))
    {
      hide Good, Heap.Valid, Keep, Takes, Evicted, Read;
      ghost var t, live, log := View(), net.live, net.log;
      NothingEvicted(t, log);
      KeepWhole(t, nextId, live);
      kept, seen := heap.items.Keys, map[];
      if key in routes {
        conn, seen := DropStaleLocked(key);
        if conn.Some? {
          seen := map[];
          EvictedLater(t, t.items.Keys, log, log, net.log, map[]);
          SelfStable(t, nextId, live, key);
          return;
        }
        kept := heap.items.Keys;
      }
      conn, kept, seen := AllocateLocked(key, t, live, log, kept, seen);
      if conn.Some? {
        ghost var id :| Takes(t, kept, id, key, conn.value, View());
        TakesStable(t, nextId, live, kept, id, key, conn.value, View());
        TakesLightest(t, nextId, live, kept, id, key, conn.value, View());
      } else {
        NothingKept(t, nextId, live, key);
      }
    }

    method Lookup(key: SessionKey) returns (conn: Option<Conn>)
      requires Valid()
      modifies this`connections, this`routes, this`connectionsActive, this`sessionsRouted, heap, net
      ensures Valid() && Evolves(old(net.live), net.live) && OthersStable(old(View()), View(), key)
      ensures conn.Some? ==>
        && View() == old(View()) && key in routes && heap.items[routes[key]].body.conn == conn.value
        && Read(old(net.log), net.log, conn.value, Active)
      ensures conn.None? ==> key !in routes
      ensures conn.None? && key in old(routes) ==>
        && old(routes[key]) in old(heap.items)
        && exists state :: state != Active && Read(old(net.log), net.log, old(heap.items[routes[key]].body.conn), state)
    {
      hide Good, Heap.Valid, Keep, Read;
      ghost var t, live := View(), net.live;
      SelfStable(t, nextId, live, key);
      if key !in routes {
        return None;
      }
      ghost var seen;
      GoodFacts(t, nextId, live);
      conn, seen := DropStaleLocked(key);
      KeepStable(t, nextId, live, heap.items.Keys, key);
    }

    /** Releasing an unrouted key changes nothing. */
    method Release(key: SessionKey)
      requires Valid()
      modifies this`routes, this`sessionsRouted, heap
      ensures Valid() && key !in routes && OthersStable(old(View()), View(), key)
      ensures connections == old(connections) && heap.items.Keys == old(heap.items.Keys)
      ensures key !in old(routes) ==> View() == old(View())
      ensures key in old(routes) ==>
        var id := old(routes[key]);
        && id in old(heap.items) && heap.items[id].load == old(heap.items[id].load) - 1
        && forall other :: other in heap.items && other != id ==> heap.items[other] == old(heap.items)[other]
    {
      hide Good, Heap.Valid, OthersStable;
      SelfStable(View(), nextId, net.live, key);
      if key !in routes {
        return;
      }
      DetachStable(View(), nextId, net.live, key);
      var item := heap.Get(routes[key]);
      routes := routes - {key};
      sessionsRouted := sessionsRouted - 1;
      heap.Fix(DetachedItem(item, key, 0, ()));
    }

    /** Removing nil or an unknown connection changes nothing. */
    method Remove(conn: Option<Conn>)
      requires Valid()
      modifies this`connections, this`routes, this`connectionsActive, this`sessionsRouted, heap
      ensures Valid()
      ensures forall key :: OthersStable(old(View()), View(), key)
      ensures connections.Keys == old(connections.Keys) - if conn.Some? then {conn.value} else {}
    {
      hide Good, Heap.Valid, OthersStable;
      ghost var t := View();
      forall key ensures OthersStable(t, t, key) {
        SelfStable(t, nextId, net.live, key);
      }
      if conn.None? || conn.value !in connections {
        return;
      }
      GoodFacts(t, nextId, net.live);
      forall key ensures OthersStable(t, Drop(t, connections[conn.value]), key) {
        DropStable(t, nextId, net.live, connections[conn.value], key);
      }
      RemoveConnectionLocked(connections[conn.value]);
    }

    /** Tells the gateway that a session is gone, over at most two connections; firstWrite and
        secondWrite say whether the writes succeed, and attempts counts the ones made.  It gives up
        before the second only when no connection is left.  Whatever fails, the key ends unrouted and
        no other session loses a route whose connection stays. */
    method OnSessionDelete(key: SessionKey, firstWrite: bool, secondWrite: bool) returns (notified: bool, ghost attempts: nat)
      requires Valid()
      modifies this`connections, this`routes, this`connectionsActive, this`sessionsRouted, heap, net
      ensures Valid() && key !in routes && OthersStable(old(View()), View(), key)
      ensures attempts <= 2 && (notified <==> (attempts == 1 && firstWrite) || (attempts == 2 && secondWrite))
      ensures attempts == 2 ==> !firstWrite
      ensures !notified && attempts < 2 ==> connections == map[]
    {
      hide Good, Heap.Valid, OthersStable, Evicted, Takes, Read;
      ghost var t := View();
      ghost var kept, seen;
      attempts := 0;
      var conn := Lookup(key);
      ghost var t1 := View();
      if conn.None? {
        conn, kept, seen := Select(key);
        StableCompose(t, t1, View(), key);
      }
      ghost var t2 := View();
      notified := false;
      if conn.Some? {
        attempts := 1;
        notified := firstWrite;
        if !firstWrite {
          Remove(conn);
          StableCompose(t, t2, View(), key);
          ghost var again;
          notified, again := NotifyAgain(key, secondWrite, t);
          attempts := if again then 2 else 1;
        }
      }
      ghost var t3 := View();
      Release(key);
      StableCompose(t, t3, View(), key);
    }

    /** The second attempt, after the first connection was removed. */
    method NotifyAgain(key: SessionKey, written: bool, ghost t: Tables) returns (notified: bool, ghost tried: bool)
      requires Valid() && OthersStable(t, View(), key)
      modifies this`connections, this`routes, this`connectionsActive, this`sessionsRouted, heap, net
      ensures Valid() && OthersStable(t, View(), key)
      ensures notified == (tried && written) && (!tried ==> connections == map[])
    {
      hide Good, Heap.Valid, OthersStable, Evicted, Takes, Read;
      ghost var t0 := View();
      ghost var kept, seen;
      var conn;
      conn, kept, seen := Select(key);
      ghost var t1 := View();
      StableCompose(t, t0, t1, key);
      tried := conn.Some?;
      notified := conn.Some? && written;
      if conn.Some? && !written {
        Remove(conn);
        StableCompose(t, t1, View(), key);
      }
    }
  }
}
