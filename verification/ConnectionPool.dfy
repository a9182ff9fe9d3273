/** The gateway's ConnectionPool as the object it is, its records kept in an index-tracking heap.
    Every public method takes exactly one step of the GatewayPool machine, so all that is proved of
    the machine's runs holds of the object. */
module ConnectionPool {
  import opened IndexedHeap
  import opened Allocation
  import opened Network
  import opened Options
  import opened GatewayPool
  import opened GatewayPoolSafety
  import opened GatewayPoolAnswers

  lemma {:induction false} AssignsOneMore(cfg: Config, p: GatewayPool.Pool, live: map<Conn, ConnState>, mid: map<Conn, ConnState>,
                                          live': map<Conn, ConnState>, work: seq<Choice>, q: GatewayPool.Pool, c: Choice)
    requires Assigns(cfg, p, live, mid, work, q) && Evolves(live, mid) && Evolves(mid, live')
    requires c.key in q.bindings && c.key !in q.table.routes && Selects(q, c.id)
    requires Sees(mid, live', q.table.items[c.id].body.conn, c.seen) && q.table.items[c.id].body.conn in live
    ensures Assigns(cfg, p, live, live', work + [c], AttachTo(cfg, q, c.key, c.id, c.seen))
    decreases |work|
  {
    if work == [] {
      assert Assigns(cfg, AttachTo(cfg, q, c.key, c.id, c.seen), live, live', [], AttachTo(cfg, q, c.key, c.id, c.seen));
      assert (work + [c])[1..] == [];
    } else {
      var d := work[0];
      assert (work + [c])[1..] == work[1..] + [c];
      AssignsOneMore(cfg, AttachTo(cfg, p, d.key, d.id, d.seen), live, mid, live', work[1..], q, c);
    }
  }

  lemma AssignsNothing(cfg: Config, p: GatewayPool.Pool, live: map<Conn, ConnState>)
    ensures Assigns(cfg, p, live, live, [], p)
  {
  }

  /** What was seen from mid on could have been seen from live on, where the same connections exist. */
  lemma {:induction false} AssignsFrom(cfg: Config, p: GatewayPool.Pool, live: map<Conn, ConnState>, mid: map<Conn, ConnState>,
                                       live': map<Conn, ConnState>, work: seq<Choice>, p': GatewayPool.Pool)
    requires Assigns(cfg, p, mid, live', work, p') && Evolves(live, mid)
    requires forall id :: id in p.table.items ==> p.table.items[id].body.conn in live
    ensures Assigns(cfg, p, live, live', work, p')
    decreases |work|
  {
    if work != [] {
      var c := work[0];
      AssignsFrom(cfg, AttachTo(cfg, p, c.key, c.id, c.seen), live, mid, live', work[1..], p');
    }
  }

  lemma AssignsEarlier(cfg: Config, p: GatewayPool.Pool, live: map<Conn, ConnState>, mid: map<Conn, ConnState>,
                       live': map<Conn, ConnState>, p': GatewayPool.Pool)
    requires AssignsPending(cfg, p, mid, live', p') && Evolves(live, mid)
    requires forall id :: id in p.table.items ==> p.table.items[id].body.conn in live
    ensures AssignsPending(cfg, p, live, live', p')
  {
    var work :| Assigns(cfg, p, mid, live', work, p');
    AssignsFrom(cfg, p, live, mid, live', work, p');
  }

  /** One turn of the assignment loop. */
  lemma AssignsTurn(cfg: Config, p: GatewayPool.Pool, live: map<Conn, ConnState>, mid: map<Conn, ConnState>,
                    live': map<Conn, ConnState>, work: seq<Choice>, q: GatewayPool.Pool, c: Choice)
    requires Core(cfg, p, live) && Core(cfg, q, mid) && Assigns(cfg, p, live, mid, work, q)
    requires Evolves(live, mid) && Evolves(mid, live')
    requires c.key in q.bindings && c.key !in q.table.routes && Selects(q, c.id)
    requires Sees(mid, live', q.table.items[c.id].body.conn, c.seen)
    ensures var r := AttachTo(cfg, q, c.key, c.id, c.seen);
            && Core(cfg, r, live') && Assigns(cfg, p, live, live', work + [c], r)
            && r.table.routes.Keys == q.table.routes.Keys + {c.key} && r.bindings == q.bindings
  {
    hide Core;
    LivelyEvolves(cfg, q, mid, live');
    AttachCore(cfg, q, live', c.key, c.id, c.seen);
    LivelyEvolves(cfg, p, live, mid);
    AssignsCore(cfg, p, live, mid, work, q);
    SameConn(cfg, p, live, q, mid, c.id);
    AssignsOneMore(cfg, p, live, mid, live', work, q, c);
  }

  lemma SameConn(cfg: Config, p: GatewayPool.Pool, live: map<Conn, ConnState>, q: GatewayPool.Pool, mid: map<Conn, ConnState>, id: nat)
    requires Core(cfg, p, live) && Core(cfg, q, mid) && Extends(p, q) && id in q.table.items
    ensures q.table.items[id].body.conn in live
  {
    assert ItemFits(cfg, p.nextId, live, p.table.items[id]);
    assert q.table.connections[p.table.items[id].body.conn] == id;
  }

  lemma UnpointNone(bindings: map<SessionKey, nat>, handles: map<nat, Option<Conn>>)
    ensures Unpoint(bindings, handles, {}) == handles
  {
  }

  lemma UnpointOneMore(bindings: map<SessionKey, nat>, handles: map<nat, Option<Conn>>, keys: set<SessionKey>, key: SessionKey)
    requires key in bindings && bindings[key] in handles
    ensures Unpoint(bindings, handles, keys + {key}) == Unpoint(bindings, handles, keys)[bindings[key] := None]
  {
  }

  // How the branches of an operation add up to its step

  lemma BindRouted(cfg: Config, p: GatewayPool.Pool, live: map<Conn, ConnState>, live': map<Conn, ConnState>,
                   key: SessionKey, id: nat, seen: ConnState, started: bool, p': GatewayPool.Pool)
    requires key !in p.bindings && Selects(AddBinding(p, key), id)
    requires Sees(live, live', p.table.items[id].body.conn, seen)
    requires var r := AttachTo(cfg, AddBinding(p, key), key, id, seen);
             && started == (r.table.items[id].priority == ACTIVE && CanScale(cfg, r))
             && p' == Reserve(r, started)
    ensures BindStep(cfg, p, live, live', key, started, p')
  {
    assert !SelectsNone(AddBinding(p, key));
  }

  lemma BindWaits(cfg: Config, p: GatewayPool.Pool, live: map<Conn, ConnState>, key: SessionKey, started: bool, p': GatewayPool.Pool)
    requires key !in p.bindings && SelectsNone(AddBinding(p, key))
    requires started == CanDial(cfg, AddBinding(p, key)) && p' == Reserve(AddBinding(p, key), started)
    ensures BindStep(cfg, p, live, live, key, started, p')
  {
  }

  lemma BindBound(cfg: Config, p: GatewayPool.Pool, live: map<Conn, ConnState>, key: SessionKey)
    requires key in p.bindings
    ensures BindStep(cfg, p, live, live, key, false, p)
  {
  }

  lemma TryBindNone(cfg: Config, p: GatewayPool.Pool, live: map<Conn, ConnState>, key: SessionKey, started: bool, p': GatewayPool.Pool)
    requires key !in p.bindings && SelectsNone(p) && started == CanDial(cfg, p) && p' == Reserve(p, started)
    ensures TryBindStep(cfg, p, live, live, key, false, started, p')
  {
  }

  lemma TryBindRefused(cfg: Config, p: GatewayPool.Pool, live: map<Conn, ConnState>, live': map<Conn, ConnState>,
                       key: SessionKey, id: nat, first: ConnState)
    requires key !in p.bindings && Selects(p, id) && Sees(live, live', p.table.items[id].body.conn, first)
    requires !(p.table.items[id].priority == ACTIVE && first == Active)
    ensures TryBindStep(cfg, p, live, live', key, false, false, p)
  {
  }

  lemma TryBindRouted(cfg: Config, p: GatewayPool.Pool, live: map<Conn, ConnState>, live': map<Conn, ConnState>,
                      key: SessionKey, id: nat, first: ConnState, seen: ConnState, started: bool, p': GatewayPool.Pool)
    requires key !in p.bindings && Selects(p, id) && p.table.items[id].priority == ACTIVE && first == Active
    requires Sees(live, live', p.table.items[id].body.conn, first) && Sees(live, live', p.table.items[id].body.conn, seen)
    requires var r := AttachTo(cfg, AddBinding(p, key), key, id, seen);
             started == CanScale(cfg, r) && p' == Reserve(r, started)
    ensures TryBindStep(cfg, p, live, live', key, true, started, p')
  {
    assert !SelectsNone(p);
  }

  lemma TryBindBound(cfg: Config, p: GatewayPool.Pool, live: map<Conn, ConnState>, live': map<Conn, ConnState>, key: SessionKey, ok: bool)
    requires key in p.bindings && AnswersActive(p, live, live', key, ok)
    ensures TryBindStep(cfg, p, live, live', key, ok, false, p)
  {
  }

  lemma AddBindingKeeps(p: GatewayPool.Pool, key: SessionKey)
    ensures AddBinding(p, key).table == p.table
  {
  }

  lemma UnboundLive(cfg: Config, p: GatewayPool.Pool, live: map<Conn, ConnState>, key: SessionKey, seen: ConnState, now: int)
    requires Core(cfg, p, live) && key in p.table.routes && p.table.items[p.table.routes[key]].load > 0
    ensures forall id :: id in Unbound(cfg, p, key, seen, now).table.items ==>
      Unbound(cfg, p, key, seen, now).table.items[id].body.conn in live
  {
    forall id | id in p.table.items ensures p.table.items[id].body.conn in live {
      assert ItemFits(cfg, p.nextId, live, p.table.items[id]);
    }
  }

  lemma SameConns(p: GatewayPool.Pool, id: nat, state: ConnState)
    requires id in p.table.items
    ensures SetState(p, id, state).table.items[id].body.conn == p.table.items[id].body.conn
  {
  }

  lemma SyncIntro(cfg: Config, p: GatewayPool.Pool, live: map<Conn, ConnState>, live': map<Conn, ConnState>,
                  conn: Conn, first: ConnState, second: ConnState, p': GatewayPool.Pool)
    requires conn in p.table.connections && p.table.connections[conn] in p.table.items
    requires Sees(live, live', conn, first) && Sees(live, live', conn, second)
    requires var id := p.table.connections[conn];
             var q := SetState(p, id, first);
             if first == Closed then AssignsPending(cfg, RemoveItem(q, id), live, live', p')
             else p' == Refresh(cfg, q, id, second)
    ensures SyncStep(cfg, p, live, live', conn, p')
  {
  }

  lemma RemovedLive(cfg: Config, p: GatewayPool.Pool, live: map<Conn, ConnState>, id: nat, state: ConnState)
    requires Core(cfg, p, live) && id in p.table.items
    ensures forall other :: other in RemoveItem(SetState(p, id, state), id).table.items ==>
      RemoveItem(SetState(p, id, state), id).table.items[other].body.conn in live
  {
    forall other | other in p.table.items ensures p.table.items[other].body.conn in live {
      assert ItemFits(cfg, p.nextId, live, p.table.items[other]);
    }
  }

  lemma AddedLive(cfg: Config, p: GatewayPool.Pool, live: map<Conn, ConnState>, item: Entry<Meta>)
    requires Core(cfg, p, live) && item.body.conn in live
    ensures forall id :: id in AddItem(p, item).table.items ==> AddItem(p, item).table.items[id].body.conn in live
  {
    forall id | id in p.table.items ensures p.table.items[id].body.conn in live {
      assert ItemFits(cfg, p.nextId, live, p.table.items[id]);
    }
  }

  lemma NextIdFresh(cfg: Config, p: GatewayPool.Pool, live: map<Conn, ConnState>)
    requires Core(cfg, p, live)
    ensures forall id :: id in p.table.items ==> id <= p.nextId
  {
    forall id | id in p.table.items ensures id <= p.nextId {
      assert ItemFits(cfg, p.nextId, live, p.table.items[id]);
    }
  }

  lemma DialIntro(cfg: Config, p: GatewayPool.Pool, live: map<Conn, ConnState>, live': map<Conn, ConnState>,
                  conn: Conn, first: ConnState, second: ConnState, p': GatewayPool.Pool)
    requires !p.closed && conn !in p.table.connections
    requires Sees(live, live', conn, first) && Sees(live, live', conn, second)
    requires var q := p.(pendingDials := p.pendingDials - 1);
             AssignsPending(cfg, AddItem(q, NewItem(cfg, q.nextId + 1, conn, first, second)), live, live', p')
    ensures DialStep(cfg, p, live, live', conn, p')
  {
  }

  lemma ReapsNothing(cfg: Config, p: GatewayPool.Pool, now: int)
    ensures Reaps(cfg, p, now, [], p)
  {
  }

  lemma {:induction false} ReapsOneMore(cfg: Config, p: GatewayPool.Pool, now: int, ids: seq<nat>, q: GatewayPool.Pool, id: nat)
    requires Reaps(cfg, p, now, ids, q) && id in q.table.items
    requires |q.table.connections| > cfg.minConns && Idle(cfg, q.table.items[id], now)
    ensures Reaps(cfg, p, now, ids + [id], RemoveItem(q, id))
    decreases |ids|
  {
    if ids == [] {
      assert Reaps(cfg, RemoveItem(q, id), now, [], RemoveItem(q, id));
      assert (ids + [id])[1..] == [];
    } else {
      assert (ids + [id])[1..] == ids[1..] + [id];
      ReapsOneMore(cfg, RemoveItem(p, ids[0]), now, ids[1..], q, id);
    }
  }

  /** No record outside todo is idle. */
  ghost predicate Visited(cfg: Config, p: GatewayPool.Pool, todo: set<Conn>, now: int) {
    forall id :: id in p.table.items && p.table.items[id].body.conn !in todo ==> !Idle(cfg, p.table.items[id], now)
  }

  lemma VisitedNone(cfg: Config, p: GatewayPool.Pool, live: map<Conn, ConnState>, now: int)
    requires Core(cfg, p, live)
    ensures Visited(cfg, p, p.table.connections.Keys, now)
  {
  }

  lemma VisitedAll(cfg: Config, p: GatewayPool.Pool, now: int)
    ensures Visited(cfg, p, {}, now) ==> forall id :: id in p.table.items ==> !Idle(cfg, p.table.items[id], now)
  {
  }

  lemma VisitedTurn(cfg: Config, p: GatewayPool.Pool, live: map<Conn, ConnState>, todo: set<Conn>, conn: Conn, now: int)
    requires Core(cfg, p, live) && conn in p.table.connections
    ensures p.table.connections[conn] in p.table.items
    ensures Visited(cfg, p, todo, now) && !Idle(cfg, p.table.items[p.table.connections[conn]], now) ==>
      Visited(cfg, p, todo - {conn}, now)
    ensures Visited(cfg, p, todo, now) ==>
      Visited(cfg, RemoveItem(p, p.table.connections[conn]), todo - {conn}, now)
  {
  }

  lemma OneLess(all: set<Conn>, gone: set<Conn>, c: Conn)
    ensures all - gone - {c} == all - (gone + {c})
  {
  }

  lemma InStateNone()
    ensures InState(map[], Active) == {} && InState(map[], Connecting) == {}
  {
  }

  lemma AllHandles(cfg: Config, p: GatewayPool.Pool, live: map<Conn, ConnState>)
    requires Core(cfg, p, live)
    ensures forall k :: k in p.bindings ==> p.bindings[k] in p.handles
  {
  }

  lemma RemovedTable(p: GatewayPool.Pool, id: nat)
    requires id in p.table.items
    ensures RemoveItem(p, id).table.items == p.table.items - {id}
    ensures RemoveItem(p, id).table.connections.Keys == p.table.connections.Keys - {p.table.items[id].body.conn}
  {
  }

  /** A record's connection, with the state its priority was last computed from. */
  function LastSeen(item: Entry<Meta>): (Conn, ConnState) {
    (item.body.conn, item.body.meta.seen)
  }

  lemma AttachedSeen(cfg: Config, p: GatewayPool.Pool, key: SessionKey, id: nat, seen: ConnState)
    requires id in p.table.items && key in p.bindings
    ensures var q := AttachTo(cfg, p, key, id, seen);
      && key in q.table.routes && q.table.routes[key] == id && id in q.table.items
      && LastSeen(q.table.items[id]) == (p.table.items[id].body.conn, seen)
  {
  }

  /** The answer to a new key.  When the best record was last seen Active its connection is read, first of
      all, and the answer is whether it reads Active; otherwise the answer is no, without a read. */
  ghost predicate AnswersRead(cfg: Config, items: Records, log: Log, log': Log, ok: bool) {
    && (forall id :: Best(cfg, items, id) && items[id].body.meta.seen == Active ==>
          log < log' && log'[|log|].0 == items[id].body.conn && (ok <==> log'[|log|].1 == Active))
    && ((forall id :: Best(cfg, items, id) ==> items[id].body.meta.seen != Active) ==> !ok && log' == log)
  }

  lemma NoneRead(cfg: Config, p: GatewayPool.Pool, live: map<Conn, ConnState>, log: Log)
    requires Core(cfg, p, live) && SelectsNone(p)
    ensures AnswersRead(cfg, p.table.items, log, log, false)
  {
    hide Core;
    NoneIsShut(cfg, p, live);
    NoBest(cfg, p.table.items);
  }

  lemma BestRead(cfg: Config, p: GatewayPool.Pool, live: map<Conn, ConnState>, id: nat, log: Log, log': Log, ok: bool)
    requires Core(cfg, p, live) && Selects(p, id)
    requires if p.table.items[id].priority == ACTIVE
      then log < log' && log'[|log|].0 == p.table.items[id].body.conn && (ok <==> log'[|log|].1 == Active)
      else !ok && log' == log
    ensures AnswersRead(cfg, p.table.items, log, log', ok)
  {
    SelectsIsBest(cfg, p, live, id);
    OneBest(cfg, p.table.items, id);
    RecordFacts(cfg, p, live, id);
    hide Core, Best;
  }

  /** The connection was read, and Closed took it out of the pool; any other state was recorded, and it was
      read once more for the priority. */
  ghost predicate SyncedAs(conn: Conn, log: Log, log': Log, connections: map<Conn, nat>, items: Records) {
    && log < log' && log'[|log|].0 == conn
    && (log'[|log|].1 == Closed ==> conn !in connections)
    && (log'[|log|].1 != Closed ==>
          && conn in connections && connections[conn] in items
          && items[connections[conn]].body.meta.state == log'[|log|].1
          && log' == log + [log'[|log|], LastSeen(items[connections[conn]])])
  }

  lemma GoneFrom(cfg: Config, p: GatewayPool.Pool, live: map<Conn, ConnState>, id: nat, state: ConnState, conn: Conn, p': GatewayPool.Pool)
    requires Core(cfg, p, live) && id in p.table.items && conn in p.table.connections && p.table.connections[conn] == id
    requires p'.table.connections == RemoveItem(SetState(p, id, state), id).table.connections
    ensures conn !in p'.table.connections
  {
  }

  class Pool {
    const cfg: Config
    const net: StateWords
    const heap: Heap<Body<Meta>>
    var connections: map<Conn, nat>
    var routes: map<SessionKey, nat>
    var nextId: nat
    var bindings: map<SessionKey, nat>
    var handles: map<nat, Option<Conn>>
    var nextHandle: nat
    var closed: bool
    var pendingDials: int
    var sessionsRouted: int
    var active: int
    var connecting: int
    ghost var dials: nat
    ghost var cleared: bool

    ghost function View(): GatewayPool.Pool
      reads this, heap
    {
      GatewayPool.Pool(Table(heap.items, connections, routes), nextId, bindings, handles, nextHandle,
                       closed, pendingDials, sessionsRouted, active, connecting)
    }

    ghost function Now(): World
      reads this, heap, net
    {
      World(View(), net.live, dials, cleared)
    }

    ghost predicate Valid()
      reads this, heap, net
    {
      heap.Valid() && Inv(cfg, Now())
    }

    constructor (cfg: Config, net: StateWords)
      ensures fresh(heap) && this.cfg == cfg && this.net == net
      ensures Valid() && Init(Now())
    {
      this.cfg, this.net := cfg, net;
      heap := new Heap();
      connections, routes, nextId := map[], map[], 0;
      bindings, handles, nextHandle := map[], map[], 0;
      closed, pendingDials := false, 0;
      sessionsRouted, active, connecting := 0, 0, 0;
      dials, cleared := 0, false;
      new;
      EveryRun(cfg, [Now()], [], 0);
    }

    // The helpers that run under the mutex

    method SelectLocked() returns (id: Option<nat>)
      requires heap.Valid() && Core(cfg, View(), net.live)
      ensures id.None? ==> SelectsNone(View())
      ensures id.Some? ==> Selects(View(), id.value)
    {
      hide Core, Heap.Valid;
      heap.Root();
      PriorityFacts(cfg, View(), net.live);
      if |heap.queue| == 0 || heap.queue[0].priority == UNAVAILABLE {
        return None;
      }
      return Some(heap.queue[0].id);
    }

    method AttachLocked(key: SessionKey, id: nat) returns (ghost seen: ConnState)
      requires heap.Valid() && Core(cfg, View(), net.live)
      requires key in bindings && key !in routes && Selects(View(), id)
      modifies this`routes, this`handles, this`sessionsRouted, heap, net
      ensures heap.Valid() && Core(cfg, View(), net.live) && Evolves(old(net.live), net.live)
      ensures Sees(old(net.live), net.live, old(heap.items[id].body.conn), seen)
      ensures View() == AttachTo(cfg, old(View()), key, id, seen) && id in heap.items
      ensures net.log == old(net.log) + [(old(heap.items[id].body.conn), seen)]
    {
      hide Core, Heap.Valid;
      ghost var p, live := View(), net.live;
      ItemFacts(cfg, p, live, id);
      var item := heap.Get(id);
      routes := routes[key := id];
      sessionsRouted := sessionsRouted + 1;
      handles := handles[bindings[key] := Some(item.body.conn)];
      var state := net.State(item.body.conn);
      heap.Fix(AttachedItem(item, key, Priority(cfg, item.load + 1, state), item.body.meta.(idleSince := None, seen := state)));
      seen := state;
      LivelyEvolves(cfg, p, live, net.live);
      AttachCore(cfg, p, net.live, key, id, seen);
    }

    /** The pending bindings are visited in the arbitrary order of Go's map iteration. */
    method AssignPendingLocked()
      requires heap.Valid() && Core(cfg, View(), net.live)
      modifies this`routes, this`handles, this`sessionsRouted, heap, net
      ensures heap.Valid() && Evolves(old(net.live), net.live) && old(net.log) <= net.log
      ensures AssignsPending(cfg, old(View()), old(net.live), net.live, View())
    {
      hide Core, Assigns, AttachTo, Heap.Valid;
      AssignsNothing(cfg, View(), net.live);
      var todo := bindings.Keys;
      ghost var work: seq<Choice> := [];
      while todo != {}
        invariant heap.Valid() && Core(cfg, View(), net.live) && Evolves(old(net.live), net.live) && old(net.log) <= net.log
        invariant Assigns(cfg, old(View()), old(net.live), net.live, work, View())
        invariant bindings.Keys <= routes.Keys + todo && todo <= bindings.Keys
        decreases |todo|
      {
        var key :| key in todo;
        todo := todo - {key};
        if key in routes {
          continue;
        }
        var id := SelectLocked();
        if id.None? {
          return;
        }
        ghost var p, mid := View(), net.live;
        ghost var seen := AttachLocked(key, id.value);
        AssignsTurn(cfg, old(View()), old(net.live), mid, net.live, work, p, Choice(key, id.value, seen));
        work := work + [Choice(key, id.value, seen)];
      }
    }

    /** Takes the routes away from the sessions of a removed record. */
    method UnrouteLocked(id: nat, sessions: set<SessionKey>)
      requires forall k :: k in sessions ==> k in routes && routes[k] == id && k in bindings && bindings[k] in handles
      modifies this`routes, this`handles, this`sessionsRouted
      ensures routes == old(routes) - sessions
      ensures handles == Unpoint(bindings, old(handles), sessions)
      ensures sessionsRouted == old(sessionsRouted) - |sessions|
    {
      hide Unpoint;
      var done: set<SessionKey> := {};
      UnpointNone(bindings, handles);
      while done != sessions
        invariant done <= sessions
        invariant routes == old(routes) - done
        invariant handles == Unpoint(bindings, old(handles), done)
        invariant sessionsRouted == old(sessionsRouted) - |done|
        decreases |sessions - done|
      {
        var key :| key in sessions - done;
        assert sessions - (done + {key}) == sessions - done - {key};
        if key in routes && routes[key] == id {
          routes := routes - {key};
          sessionsRouted := sessionsRouted - 1;
          if key in bindings {
            UnpointOneMore(bindings, old(handles), done, key);
            handles := handles[bindings[key] := None];
          }
        }
        done := done + {key};
      }
    }

    method RemoveLocked(id: nat)
      requires heap.Valid() && Core(cfg, View(), net.live) && id in heap.items
      modifies this`connections, this`routes, this`handles, this`sessionsRouted, this`active, this`connecting, heap
      ensures heap.Valid() && Core(cfg, View(), net.live)
      ensures View() == RemoveItem(old(View()), id)
    {
      hide Core, Unpoint, Heap.Valid;
      RemoveCore(cfg, View(), net.live, id);
      SessionFacts(cfg, View(), net.live, id);
      var item := heap.Get(id);
      UnrouteLocked(id, item.body.sessions);
      connections := connections - {item.body.conn};
      heap.Remove(id);
      active := active - Gauge(item.body.meta.state, Active);
      connecting := connecting - Gauge(item.body.meta.state, Connecting);
    }

    method ReserveDialLocked() returns (started: bool)
      modifies this`pendingDials, this`dials
      ensures started == CanDial(cfg, old(View()))
      ensures View() == Reserve(old(View()), started)
      ensures dials == old(dials) + if started then 1 else 0
    {
      if pendingDials > 0 || closed || (cfg.maxConns > 0 && |connections| + pendingDials >= cfg.maxConns) {
        return false;
      }
      pendingDials := pendingDials + 1;
      dials := dials + 1;
      return true;
    }

    method ReserveScaleLocked() returns (started: bool)
      requires heap.Valid() && Core(cfg, View(), net.live)
      modifies this`pendingDials, this`dials
      ensures started == CanScale(cfg, old(View()))
      ensures View() == Reserve(old(View()), started)
      ensures dials == old(dials) + if started then 1 else 0
    {
      hide Core, Heap.Valid;
      if pendingDials > 0 {
        return false;
      }
      var id := SelectLocked();
      if id.None? || heap.Get(id.value).priority != ACTIVE || heap.Get(id.value).load < cfg.targetSessions {
        return false;
      }
      started := ReserveDialLocked();
    }

    // The critical sections, each one step of the pool

    method AddBindingLocked(key: SessionKey)
      requires Core(cfg, View(), net.live) && key !in bindings
      modifies this`bindings, this`handles, this`nextHandle
      ensures View() == AddBinding(old(View()), key) && key in bindings && key !in routes
      ensures Core(cfg, View(), net.live)
    {
      hide Core;
      AddBindingCore(cfg, View(), net.live, key);
      CoreFacts(cfg, View(), net.live);
      handles := handles[nextHandle := None];
      bindings := bindings[key := nextHandle];
      nextHandle := nextHandle + 1;
    }

    method BindLocked(key: SessionKey) returns (started: bool)
      requires heap.Valid() && Core(cfg, View(), net.live) && key !in bindings
      modifies this, heap, net
      ensures heap.Valid() && Evolves(old(net.live), net.live)
      ensures BindStep(cfg, old(View()), old(net.live), net.live, key, started, View())
      ensures dials == old(dials) + (if started then 1 else 0) && cleared == old(cleared)
      ensures key in bindings
      ensures if key in routes then routes[key] in heap.items && net.log == old(net.log) + [LastSeen(heap.items[routes[key]])]
              else net.log == old(net.log)
    {
      hide Core, Heap.Valid, AttachTo, CanScale, BindStep;
      ghost var p, live := View(), net.live;
      AddBindingLocked(key);
      var id := SelectLocked();
      if id.Some? {
        ghost var r := View();
        ghost var seen := AttachLocked(key, id.value);
        AttachedSeen(cfg, r, key, id.value, seen);
        if heap.Get(id.value).priority == ACTIVE {
          started := ReserveScaleLocked();
        } else {
          started := false;
        }
        BindRouted(cfg, p, live, net.live, key, id.value, seen, started, View());
      } else {
        started := ReserveDialLocked();
        BindWaits(cfg, p, live, key, started, View());
      }
    }

    method TryBindLocked(key: SessionKey) returns (ok: bool, started: bool)
      requires heap.Valid() && Core(cfg, View(), net.live) && key !in bindings
      modifies this`bindings, this`handles, this`nextHandle, this`routes, this`sessionsRouted, this`pendingDials, this`dials, heap, net
      ensures heap.Valid() && Evolves(old(net.live), net.live)
      ensures TryBindStep(cfg, old(View()), old(net.live), net.live, key, ok, started, View())
      ensures dials == old(dials) + if started then 1 else 0
      ensures ok ==> key in bindings
      ensures AnswersRead(cfg, old(heap.items), old(net.log), net.log, ok)
    {
      hide Core, Heap.Valid, AttachTo, AddBinding, CanScale, TryBindStep, CanDial, AnswersRead;
      ghost var p, live, log := View(), net.live, net.log;
      var id := SelectLocked();
      if id.None? {
        started := ReserveDialLocked();
        TryBindNone(cfg, p, live, key, started, View());
        NoneRead(cfg, p, live, log);
        return false, started;
      }
      ItemFacts(cfg, p, live, id.value);
      var item := heap.Get(id.value);
      if item.priority != ACTIVE {
        TryBindRefused(cfg, p, live, live, key, id.value, live[item.body.conn]);
        BestRead(cfg, p, live, id.value, log, log, false);
        return false, false;
      }
      var first := net.State(item.body.conn);
      LivelyEvolves(cfg, p, live, net.live);
      if first != Active {
        TryBindRefused(cfg, p, live, net.live, key, id.value, first);
        BestRead(cfg, p, live, id.value, log, net.log, false);
        return false, false;
      }
      ok := true;
      ghost var seen;
      started, seen := PlaceLocked(key, id.value);
      TryBindRouted(cfg, p, live, net.live, key, id.value, first, seen, started, View());
      BestRead(cfg, p, live, id.value, log, net.log, true);
    }

    /** Binds a new key and attaches it at once. */
    method PlaceLocked(key: SessionKey, id: nat) returns (started: bool, ghost seen: ConnState)
      requires heap.Valid() && Core(cfg, View(), net.live) && key !in bindings && Selects(View(), id)
      modifies this`bindings, this`handles, this`nextHandle, this`routes, this`sessionsRouted, this`pendingDials, this`dials, heap, net
      ensures heap.Valid() && Evolves(old(net.live), net.live) && key in bindings
      ensures Sees(old(net.live), net.live, old(heap.items[id].body.conn), seen)
      ensures var r := AttachTo(cfg, AddBinding(old(View()), key), key, id, seen);
        started == CanScale(cfg, r) && View() == Reserve(r, started)
      ensures dials == old(dials) + if started then 1 else 0
      ensures net.log == old(net.log) + [(old(heap.items[id].body.conn), seen)]
    {
      hide Core, Heap.Valid, AttachTo, AddBinding, CanScale;
      AddBindingKeeps(View(), key);
      AddBindingLocked(key);
      seen := AttachLocked(key, id);
      started := ReserveScaleLocked();
    }

    /** Drops the binding and route of a routed key. */
    method DetachLocked(key: SessionKey, now: int) returns (ghost seen: ConnState)
      requires heap.Valid() && Core(cfg, View(), net.live)
      requires key in routes && routes[key] in heap.items && heap.items[routes[key]].load > 0
      modifies this`bindings, this`routes, this`sessionsRouted, heap, net
      ensures heap.Valid() && Core(cfg, View(), net.live) && Evolves(old(net.live), net.live)
      ensures Sees(old(net.live), net.live, old(heap.items[routes[key]].body.conn), seen)
      ensures View() == Unbound(cfg, old(View()), key, seen, now)
      ensures net.log == old(net.log) + [(old(heap.items[routes[key]].body.conn), seen)]
    {
      hide Core, Heap.Valid;
      ghost var p, live := View(), net.live;
      bindings := bindings - {key};
      var id := routes[key];
      ItemFacts(cfg, p, live, id);
      var item := heap.Get(id);
      routes := routes - {key};
      sessionsRouted := sessionsRouted - 1;
      var state := net.State(item.body.conn);
      var idleSince := if item.load == 1 then Some(now) else item.body.meta.idleSince;
      heap.Fix(DetachedItem(item, key, Priority(cfg, item.load - 1, state), item.body.meta.(idleSince := idleSince, seen := state)));
      seen := state;
      LivelyEvolves(cfg, p, live, net.live);
      UnboundCore(cfg, p, net.live, key, seen, now);
    }

    method UnbindLocked(key: SessionKey, now: int)
      requires heap.Valid() && Core(cfg, View(), net.live)
      modifies this`bindings, this`routes, this`handles, this`sessionsRouted, heap, net
      ensures heap.Valid() && Evolves(old(net.live), net.live)
      ensures UnbindStep(cfg, old(View()), old(net.live), net.live, key, now, View())
    {
      hide Core, Heap.Valid, AssignsPending;
      ghost var p, live := View(), net.live;
      CoreFacts(cfg, p, live);
      if key !in routes {
        bindings := bindings - {key};
        return;
      }
      ghost var seen := DetachLocked(key, now);
      ghost var q, mid := View(), net.live;
      AssignPendingLocked();
      UnboundLive(cfg, p, live, key, seen, now);
      AssignsEarlier(cfg, q, live, mid, net.live, View());
    }

    method SetStateLocked(id: nat, state: ConnState)
      requires heap.Valid() && Core(cfg, View(), net.live) && id in heap.items
      modifies this`active, this`connecting, heap
      ensures heap.Valid() && Core(cfg, View(), net.live) && View() == SetState(old(View()), id, state) && id in heap.items
    {
      hide Core, Heap.Valid;
      ghost var p := View();
      ItemFacts(cfg, p, net.live, id);
      var item := heap.Get(id);
      if item.body.meta.state != state {
        active := active - Gauge(item.body.meta.state, Active) + Gauge(state, Active);
        connecting := connecting - Gauge(item.body.meta.state, Connecting) + Gauge(state, Connecting);
      }
      heap.Put(item.(body := item.body.(meta := item.body.meta.(state := state))));
      SetStateCore(cfg, p, net.live, id, state);
    }

    method RefreshLocked(id: nat) returns (ghost seen: ConnState)
      requires heap.Valid() && Core(cfg, View(), net.live) && id in heap.items
      modifies heap, net
      ensures heap.Valid() && Evolves(old(net.live), net.live)
      ensures Sees(old(net.live), net.live, old(heap.items[id].body.conn), seen)
      ensures View() == Refresh(cfg, old(View()), id, seen)
      ensures net.log == old(net.log) + [(old(heap.items[id].body.conn), seen)]
    {
      hide Core, Heap.Valid;
      ItemFacts(cfg, View(), net.live, id);
      var item := heap.Get(id);
      var state := net.State(item.body.conn);
      heap.Fix(item.(priority := Priority(cfg, item.load, state), body := item.body.(meta := item.body.meta.(seen := state))));
      seen := state;
    }

    method SyncLocked(conn: Conn)
      requires heap.Valid() && Core(cfg, View(), net.live)
      modifies this`connections, this`routes, this`handles, this`sessionsRouted, this`active, this`connecting, heap, net
      ensures heap.Valid() && Evolves(old(net.live), net.live)
      ensures SyncStep(cfg, old(View()), old(net.live), net.live, conn, View())
      ensures conn in old(connections) ==> SyncedAs(conn, old(net.log), net.log, connections, heap.items)
      ensures conn !in old(connections) ==> net.log == old(net.log)
    {
      hide Core, Heap.Valid, SetState, RemoveItem, Refresh, AssignsPending;
      ghost var p, live := View(), net.live;
      if conn !in connections {
        return;
      }
      var id := connections[conn];
      CoreFacts(cfg, p, live);
      ItemFacts(cfg, p, live, id);
      var state := net.State(conn);
      LivelyEvolves(cfg, p, live, net.live);
      SetStateLocked(id, state);
      ghost var q, mid := View(), net.live;
      SameConns(p, id, state);
      if state == Closed {
        RemoveLocked(id);
        ghost var r := View();
        AssignPendingLocked();
        RemovedLive(cfg, p, live, id, state);
        AssignsEarlier(cfg, r, live, mid, net.live, View());
        SyncIntro(cfg, p, live, net.live, conn, state, state, View());
        GoneFrom(cfg, p, live, id, state, conn, View());
      } else {
        ghost var second := RefreshLocked(id);
        SyncIntro(cfg, p, live, net.live, conn, state, second, View());
        SyncedFields(cfg, p, id, state, second);
      }
    }

    /** Adds the record of a new connection. */
    method InsertLocked(conn: Conn) returns (ghost first: ConnState, ghost second: ConnState)
      requires heap.Valid() && Core(cfg, View(), net.live) && conn in net.live && conn !in connections
      modifies this`connections, this`nextId, this`active, this`connecting, heap, net
      ensures heap.Valid() && Core(cfg, View(), net.live) && Evolves(old(net.live), net.live)
      ensures Sees(old(net.live), net.live, conn, first) && Sees(old(net.live), net.live, conn, second)
      ensures View() == AddItem(old(View()), NewItem(cfg, old(nextId) + 1, conn, first, second))
      ensures net.log == old(net.log) + [(conn, first), (conn, second)]
    {
      hide Core, Heap.Valid, Priority;
      ghost var p, live := View(), net.live;
      nextId := nextId + 1;
      var state := net.State(conn);
      var later := net.State(conn);
      var item := NewItem(cfg, nextId, conn, state, later);
      active := active + Gauge(state, Active);
      connecting := connecting + Gauge(state, Connecting);
      connections := connections[conn := item.id];
      NextIdFresh(cfg, p, live);
      heap.Push(item);
      first, second := state, later;
      LivelyEvolves(cfg, p, live, net.live);
      AddItemCore(cfg, p, net.live, conn, first, second);
    }

    method DialLocked(conn: Conn)
      requires heap.Valid() && Core(cfg, View(), net.live) && conn in net.live && conn !in connections
      modifies this, heap, net
      ensures heap.Valid() && Evolves(old(net.live), net.live)
      ensures DialStep(cfg, old(View()), old(net.live), net.live, conn, View())
      ensures dials == old(dials) && cleared == old(cleared)
    {
      hide Core, Heap.Valid, AssignsPending, AddItem;
      ghost var p, live := View(), net.live;
      CountDialCore(cfg, p, live, -1);
      pendingDials := pendingDials - 1;
      if closed {
        return;
      }
      ghost var q := View();
      ghost var first, second := InsertLocked(conn);
      ghost var r, late := View(), net.live;
      AssignPendingLocked();
      AddedLive(cfg, q, live, NewItem(cfg, q.nextId + 1, conn, first, second));
      AssignsEarlier(cfg, r, live, late, net.live, View());
      DialIntro(cfg, p, live, net.live, conn, first, second, View());
    }

    /** The records are visited in the arbitrary order of Go's map iteration. */
    method CleanupLocked(now: int) returns (idle: set<Conn>)
      requires heap.Valid() && Core(cfg, View(), net.live)
      modifies this`connections, this`routes, this`handles, this`sessionsRouted, this`active, this`connecting, heap
      ensures heap.Valid() && CleanupStep(cfg, old(View()), now, View())
      ensures connections.Keys == old(connections.Keys) - idle
    {
      hide Core, Heap.Valid, Reaps, RemoveItem, Visited;
      idle := {};
      var todo := connections.Keys;
      ghost var ids: seq<nat> := [];
      ReapsNothing(cfg, View(), now);
      VisitedNone(cfg, View(), net.live, now);
      while todo != {}
        invariant heap.Valid() && Core(cfg, View(), net.live)
        invariant Reaps(cfg, old(View()), now, ids, View())
        invariant todo <= connections.Keys == old(connections.Keys) - idle
        invariant |connections| <= cfg.minConns || Visited(cfg, View(), todo, now)
        decreases |todo|
      {
        var conn :| conn in todo;
        var id := connections[conn];
        CoreFacts(cfg, View(), net.live);
        VisitedTurn(cfg, View(), net.live, todo, conn, now);
        if |connections| > cfg.minConns && Idle(cfg, heap.Get(id), now) {
          RemovedTable(View(), id);
          ReapsOneMore(cfg, old(View()), now, ids, View(), id);
          RemoveLocked(id);
          ids := ids + [id];
          OneLess(old(connections.Keys), idle, conn);
          idle := idle + {conn};
        }
        todo := todo - {conn};
      }
      assert Visited(cfg, View(), {}, now) ==> forall id :: id in heap.items ==> !Idle(cfg, heap.items[id], now) by {
        VisitedAll(cfg, View(), now);
      }
    }

    method ClearHandlesLocked()
      requires forall k :: k in bindings ==> bindings[k] in handles
      modifies this`handles
      ensures handles == Unpoint(bindings, old(handles), bindings.Keys)
    {
      hide Unpoint;
      var done: set<SessionKey> := {};
      UnpointNone(bindings, handles);
      while done != bindings.Keys
        invariant done <= bindings.Keys && handles == Unpoint(bindings, old(handles), done)
        decreases |bindings.Keys - done|
      {
        var key :| key in bindings.Keys - done;
        assert bindings.Keys - (done + {key}) == bindings.Keys - done - {key};
        UnpointOneMore(bindings, old(handles), done, key);
        handles := handles[bindings[key] := None];
        done := done + {key};
      }
    }

    /** Takes every record's contribution off the gauges. */
    method RetireGaugesLocked()
      requires heap.Valid()
      modifies this`active, this`connecting
      ensures active == old(active) - |InState(heap.items, Active)|
      ensures connecting == old(connecting) - |InState(heap.items, Connecting)|
    {
      hide InState, Heap.Valid;
      ghost var left := heap.items;
      var todo := set i | 0 <= i < |heap.queue| :: heap.queue[i].id;
      heap.QueueKeys();
      while todo != {}
        invariant todo == left.Keys <= heap.items.Keys
        invariant forall id :: id in left ==> left[id] == heap.items[id]
        invariant active == old(active) - |InState(heap.items, Active)| + |InState(left, Active)|
        invariant connecting == old(connecting) - |InState(heap.items, Connecting)| + |InState(left, Connecting)|
        decreases |todo|
      {
        var id :| id in todo;
        var item := heap.Get(id);
        GaugeRemove(left, id, Active);
        GaugeRemove(left, id, Connecting);
        left := left - {id};
        active := active - Gauge(item.body.meta.state, Active);
        connecting := connecting - Gauge(item.body.meta.state, Connecting);
        todo := todo - {id};
      }
      assert left == map[];
      InStateNone();
    }

    method EmptyLocked() returns (toClose: set<Conn>)
      requires heap.Valid() && Core(cfg, View(), net.live)
      modifies this`connections, this`routes, this`bindings, this`handles, this`sessionsRouted, this`active, this`connecting, heap
      ensures heap.Valid() && View() == Emptied(old(View()))
      ensures toClose == old(connections.Keys) && connections == map[] && routes == map[] && bindings == map[]
    {
      hide Core, Heap.Valid, InState, Unpoint;
      toClose := connections.Keys;
      AllHandles(cfg, View(), net.live);
      ClearHandlesLocked();
      RetireGaugesLocked();
      sessionsRouted := sessionsRouted - |routes|;
      connections, routes, bindings := map[], map[], map[];
      heap.Clear();
    }

    // The operations

    method Bind(key: SessionKey) returns (binding: nat, started: bool)
      requires Valid()
      modifies this, heap, net
      ensures Valid() && Step(cfg, old(Now()), Op.Bind(key, started), Now())
      ensures key in bindings && binding == bindings[key]
      ensures if key !in old(bindings) && key in routes
              then routes[key] in heap.items && net.log == old(net.log) + [LastSeen(heap.items[routes[key]])]
              else net.log == old(net.log)
    {
      hide Core, Heap.Valid, BindStep;
      ghost var w := Now();
      if key in bindings {
        started := false;
        BindBound(cfg, View(), net.live, key);
      } else {
        started := BindLocked(key);
      }
      binding := bindings[key];
      StepInv(cfg, w, Op.Bind(key, started), Now());
    }

    method TryBind(key: SessionKey) returns (binding: Option<nat>, ok: bool, started: bool)
      requires Valid()
      modifies this, heap, net
      ensures Valid() && Step(cfg, old(Now()), Op.TryBind(key, ok, started), Now())
      ensures binding == if key in bindings then Some(bindings[key]) else None
      ensures key !in old(bindings) ==> AnswersRead(cfg, old(heap.items), old(net.log), net.log, ok)
      ensures key in old(bindings) ==>
        && old(bindings[key]) in old(handles)
        && match old(handles[bindings[key]])
           case None => !ok && net.log == old(net.log)
           case Some(conn) => exists read :: net.log == old(net.log) + [(conn, read)] && (ok <==> read == Active)
    {
      hide Core, Heap.Valid, TryBindStep, AnswersRead;
      ghost var w := Now();
      if key in bindings {
        started := false;
        HandleFacts(cfg, View(), net.live, key);
        var conn := handles[bindings[key]];
        ok := false;
        if conn.Some? {
          var state := net.State(conn.value);
          ok := state == Active;
          assert Sees(w.live, net.live, conn.value, state);
          assert net.log == old(net.log) + [(conn.value, state)];
        }
        TryBindBound(cfg, View(), w.live, net.live, key, ok);
      } else {
        ok, started := TryBindLocked(key);
      }
      binding := if key in bindings then Some(bindings[key]) else None;
      StepInv(cfg, w, Op.TryBind(key, ok, started), Now());
    }

    method Unbind(key: SessionKey, now: int)
      requires Valid()
      modifies this, heap, net
      ensures Valid() && Step(cfg, old(Now()), Op.Unbind(key, now), Now())
    {
      hide Core, Heap.Valid, UnbindStep;
      ghost var w := Now();
      UnbindLocked(key, now);
      StepInv(cfg, w, Op.Unbind(key, now), Now());
    }

    method SyncConnectionState(conn: Conn)
      requires Valid()
      modifies this, heap, net
      ensures Valid() && Step(cfg, old(Now()), Op.Sync(conn), Now())
      ensures conn in old(connections) ==> SyncedAs(conn, old(net.log), net.log, connections, heap.items)
      ensures conn !in old(connections) ==> net.log == old(net.log)
    {
      hide Core, Heap.Valid, SyncStep, SyncedAs;
      ghost var w := Now();
      SyncLocked(conn);
      StepInv(cfg, w, Op.Sync(conn), Now());
    }

    /** The part of startDial after a connection could be made. */
    method DialEnds(conn: Conn)
      requires Valid() && dials > 0 && conn in net.live && conn !in connections
      modifies this, heap, net
      ensures Valid() && Step(cfg, old(Now()), Op.DialEnds(conn), Now())
    {
      hide Core, Heap.Valid, DialStep;
      ghost var w := Now();
      DialLocked(conn);
      dials := dials - 1;
      StepInv(cfg, w, Op.DialEnds(conn), Now());
    }

    /** The part of startDial after no connection could be made. */
    method DialFails()
      requires Valid() && dials > 0
      modifies this
      ensures Valid() && Step(cfg, old(Now()), Op.DialFails, Now())
    {
      hide Core, Heap.Valid;
      ghost var w := Now();
      pendingDials := pendingDials - 1;
      dials := dials - 1;
      StepInv(cfg, w, Op.DialFails, Now());
    }

    method StartMinConnections() returns (starts: nat)
      requires Valid()
      modifies this
      ensures Valid() && Step(cfg, old(Now()), Op.StartMin, Now())
      ensures dials == old(dials) + starts && pendingDials == old(pendingDials) + starts
      ensures connections == old(connections)
      ensures |connections| + pendingDials ==
        if |connections| + old(pendingDials) < cfg.minConns then cfg.minConns else |connections| + old(pendingDials)
    {
      hide Core, Heap.Valid;
      ghost var w := Now();
      starts := 0;
      while |connections| + pendingDials < cfg.minConns
        invariant pendingDials == old(pendingDials) + starts
        invariant starts <= StartsNeeded(cfg, old(View()))
        invariant View() == old(View()).(pendingDials := pendingDials) && unchanged(`dials) && unchanged(`cleared)
      {
        pendingDials := pendingDials + 1;
        starts := starts + 1;
      }
      dials := dials + starts;
      StepInv(cfg, w, Op.StartMin, Now());
    }

    method CleanupIdle(now: int) returns (idle: set<Conn>)
      requires Valid()
      modifies this, heap
      ensures Valid() && Step(cfg, old(Now()), Op.Cleanup(now), Now())
      ensures connections.Keys == old(connections.Keys) - idle
    {
      hide Core, Heap.Valid, CleanupStep;
      ghost var w := Now();
      idle := CleanupLocked(now);
      StepInv(cfg, w, Op.Cleanup(now), Now());
    }

    /** The atomic swap that opens Shutdown, outside the mutex: only the first caller goes on. */
    method MarkClosed() returns (first: bool)
      requires Valid()
      modifies this
      ensures Valid() && Step(cfg, old(Now()), Op.MarkClosed, Now())
      ensures first == !old(closed)
    {
      hide Core, Heap.Valid;
      ghost var w := Now();
      first := !closed;
      closed := true;
      StepInv(cfg, w, Op.MarkClosed, Now());
    }

    /** The rest of Shutdown; the connections returned are closed after the mutex is released. */
    method EmptyPool() returns (toClose: set<Conn>)
      requires Valid() && closed
      modifies this, heap
      ensures Valid() && Step(cfg, old(Now()), Op.Empty, Now())
      ensures toClose == old(connections.Keys) && connections == map[] && routes == map[] && bindings == map[]
    {
      hide Core, Heap.Valid, Emptied;
      ghost var w := Now();
      toClose := EmptyLocked();
      cleared := true;
      StepInv(cfg, w, Op.Empty, Now());
    }
  }
}
