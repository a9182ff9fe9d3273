/** What the gateway pool's operations answer and do, in the terms of its records: the session count of
    each and the connection state it was last seen in.  Every statement here is about one step of any
    run; none mentions a priority, the selection, or a helper of the pool. */
module GatewayPoolAnswers {
  import opened IndexedHeap
  import opened Allocation
  import opened Network
  import opened Options
  import opened GatewayPool
  import opened GatewayPoolSafety

  type Records = map<nat, Entry<Meta>>

  /** A session can be attached: there is room, and the connection was not seen closed. */
  predicate Open(cfg: Config, item: Entry<Meta>) {
    item.load < cfg.maxSessions && item.body.meta.seen != Closed
  }

  /** The record a new session should go to: one seen Active if there is any with room, of those of its
      kind the least loaded, and of those the oldest. */
  ghost predicate Best(cfg: Config, items: Records, id: nat) {
    && id in items && Open(cfg, items[id])
    && forall other :: other in items && other != id && Open(cfg, items[other]) ==>
         && (items[other].body.meta.seen == Active ==> items[id].body.meta.seen == Active)
         && (items[other].body.meta.seen == items[id].body.meta.seen ==>
               items[id].load < items[other].load || (items[id].load == items[other].load && id < other))
  }

  ghost predicate AllShut(cfg: Config, items: Records) {
    forall id :: id in items ==> !Open(cfg, items[id])
  }

  /** No dial is pending, the pool is open, and the maximum is not reached. */
  predicate MayDial(cfg: Config, p: Pool) {
    p.pendingDials <= 0 && !p.closed && (cfg.maxConns > 0 ==> |p.table.connections| + p.pendingDials < cfg.maxConns)
  }

  /** The best record is seen Active and has reached its target. */
  ghost predicate Crowded(cfg: Config, items: Records) {
    exists id :: Best(cfg, items, id) && items[id].body.meta.seen == Active && items[id].load >= cfg.targetSessions
  }

  // ---------------------------------------------------------------------------------------------
  // Selection
  // ---------------------------------------------------------------------------------------------

  lemma RecordFacts(cfg: Config, p: Pool, live: map<Conn, ConnState>, id: nat)
    requires Core(cfg, p, live) && id in p.table.items
    ensures p.table.items[id].id == id && ItemFits(cfg, p.nextId, live, p.table.items[id])
  {
  }

  lemma SelectsIsBest(cfg: Config, p: Pool, live: map<Conn, ConnState>, id: nat)
    requires Core(cfg, p, live)
    ensures Selects(p, id) <==> Best(cfg, p.table.items, id)
  {
    hide Core, Selects, Best;
    if id in p.table.items {
      RecordFacts(cfg, p, live, id);
      SameOrder(cfg, p.nextId, live, p.table.items[id], p.table.items[id]);
      forall other | other in p.table.items
        ensures p.table.items[other].id == other
        ensures p.table.items[id].priority != UNAVAILABLE ==>
          (Precedes(p.table.items[id], p.table.items[other]) <==> Prefers(cfg, p.table.items[id], p.table.items[other]))
      {
        RecordFacts(cfg, p, live, other);
        SameOrder(cfg, p.nextId, live, p.table.items[id], p.table.items[other]);
      }
      hide ItemFits, Precedes, Prefers, Open;
      SameChoice(cfg, p, id);
    } else {
      NotChosen(cfg, p, id);
    }
  }

  /** a comes before b by priority, load and id. */
  predicate Precedes(a: Entry<Meta>, b: Entry<Meta>) {
    && a.priority <= b.priority
    && (a.priority == b.priority ==> a.load <= b.load)
    && (a.priority == b.priority && a.load == b.load ==> a.id < b.id)
  }

  /** a is to be preferred to b, if b is open at all. */
  predicate Prefers(cfg: Config, a: Entry<Meta>, b: Entry<Meta>) {
    Open(cfg, b) ==>
      && (b.body.meta.seen == Active ==> a.body.meta.seen == Active)
      && (b.body.meta.seen == a.body.meta.seen ==> a.load < b.load || (a.load == b.load && a.id < b.id))
  }

  lemma SameOrder(cfg: Config, nextId: nat, live: map<Conn, ConnState>, a: Entry<Meta>, b: Entry<Meta>)
    requires ItemFits(cfg, nextId, live, a) && ItemFits(cfg, nextId, live, b)
    ensures a.priority != UNAVAILABLE <==> Open(cfg, a)
    ensures a.priority != UNAVAILABLE ==> (Precedes(a, b) <==> Prefers(cfg, a, b))
  {
  }

  lemma SameChoice(cfg: Config, p: Pool, id: nat)
    requires id in p.table.items && (p.table.items[id].priority != UNAVAILABLE <==> Open(cfg, p.table.items[id]))
    requires forall other :: other in p.table.items ==> p.table.items[other].id == other
    requires p.table.items[id].priority != UNAVAILABLE ==> forall other :: other in p.table.items && other != id ==>
      (Precedes(p.table.items[id], p.table.items[other]) <==> Prefers(cfg, p.table.items[id], p.table.items[other]))
    ensures Selects(p, id) <==> Best(cfg, p.table.items, id)
  {
    hide Open;
  }

  lemma NotChosen(cfg: Config, p: Pool, id: nat)
    requires id !in p.table.items
    ensures !Selects(p, id) && !Best(cfg, p.table.items, id)
  {
  }

  lemma NoneIsShut(cfg: Config, p: Pool, live: map<Conn, ConnState>)
    requires Core(cfg, p, live)
    ensures SelectsNone(p) <==> AllShut(cfg, p.table.items)
  {
    forall id | id in p.table.items ensures ItemFits(cfg, p.nextId, live, p.table.items[id]) {
      RecordFacts(cfg, p, live, id);
    }
    hide Core;
  }

  lemma ScalesIsCrowded(cfg: Config, p: Pool, live: map<Conn, ConnState>)
    requires Core(cfg, p, live)
    ensures CanDial(cfg, p) <==> MayDial(cfg, p)
    ensures CanScale(cfg, p) <==> MayDial(cfg, p) && Crowded(cfg, p.table.items)
  {
    forall id ensures Selects(p, id) <==> Best(cfg, p.table.items, id) {
      SelectsIsBest(cfg, p, live, id);
    }
    forall id | Best(cfg, p.table.items, id)
      ensures p.table.items[id].priority == ACTIVE <==> p.table.items[id].body.meta.seen == Active
    {
      RecordFacts(cfg, p, live, id);
    }
    hide Core, Best, Selects;
  }

  // ---------------------------------------------------------------------------------------------
  // Bind and TryBind
  // ---------------------------------------------------------------------------------------------

  /** key alone has been bound, with a new handle. */
  ghost predicate BoundOnly(p: Pool, key: SessionKey, p': Pool) {
    && p'.bindings.Keys == p.bindings.Keys + {key}
    && (forall k :: k in p.bindings ==> p'.bindings[k] == p.bindings[k] && p.bindings[k] != p'.bindings[key])
  }

  /** key alone has been routed, to the best record, which has one more session; no other record changed. */
  ghost predicate RoutedBest(cfg: Config, p: Pool, key: SessionKey, p': Pool) {
    && p'.table.routes.Keys == p.table.routes.Keys + {key}
    && (forall k :: k in p.table.routes ==> p'.table.routes[k] == p.table.routes[k])
    && var id := p'.table.routes[key];
       && Best(cfg, p.table.items, id) && p'.table.items.Keys == p.table.items.Keys
       && p'.table.items[id].load == p.table.items[id].load + 1
       && forall other :: other in p.table.items && other != id ==> p'.table.items[other] == p.table.items[other]
  }

  lemma PlacedBest(cfg: Config, p: Pool, live: map<Conn, ConnState>, key: SessionKey, id: nat, seen: ConnState, started: bool)
    requires Core(cfg, p, live) && key !in p.bindings && Selects(p, id)
    ensures var p' := Reserve(AttachTo(cfg, AddBinding(p, key), key, id, seen), started);
      && BoundOnly(p, key, p') && RoutedBest(cfg, p, key, p')
      && p'.table.routes[key] == id && p'.table.items[id].body.meta.seen == seen
  {
    SelectsIsBest(cfg, p, live, id);
    HandlesBelow(cfg, p, live);
    assert id in p.table.items;
    hide Core, Best, Selects;
    PlacedBinding(cfg, p, key, id, seen, started);
    PlacedRoute(cfg, p, key, id, seen, started);
  }

  lemma PlacedBinding(cfg: Config, p: Pool, key: SessionKey, id: nat, seen: ConnState, started: bool)
    requires key !in p.bindings && id in p.table.items && forall k :: k in p.bindings ==> p.bindings[k] < p.nextHandle
    ensures BoundOnly(p, key, Reserve(AttachTo(cfg, AddBinding(p, key), key, id, seen), started))
  {
  }

  lemma PlacedRoute(cfg: Config, p: Pool, key: SessionKey, id: nat, seen: ConnState, started: bool)
    requires key !in p.table.routes && Best(cfg, p.table.items, id)
    ensures var p' := Reserve(AttachTo(cfg, AddBinding(p, key), key, id, seen), started);
      RoutedBest(cfg, p, key, p') && p'.table.routes[key] == id && p'.table.items[id].body.meta.seen == seen
  {
    var q := AddBinding(p, key);
    var p' := AttachTo(cfg, q, key, id, seen);
    assert q.table == p.table;
    assert p'.table.routes == p.table.routes[key := id];
    assert p'.table.items == p.table.items[id := p'.table.items[id]];
    assert p'.table.items[id].load == p.table.items[id].load + 1;
    hide Best;
  }

  lemma HandlesBelow(cfg: Config, p: Pool, live: map<Conn, ConnState>)
    requires Core(cfg, p, live)
    ensures forall k :: k in p.bindings ==> p.bindings[k] < p.nextHandle
    ensures p.table.routes.Keys <= p.bindings.Keys
  {
  }

  /** Bind of a bound key changes nothing.  Bind of a new key binds it and routes it to the best record, or
      leaves it waiting exactly when no record is open; another connection is started exactly when that is
      allowed and the key waits, or its record is still open and Active and the best record is crowded. */
  lemma BindAnswers(cfg: Config, w: World, key: SessionKey, started: bool, w': World)
    requires Inv(cfg, w) && Step(cfg, w, Bind(key, started), w')
    ensures key in w.pool.bindings ==> w'.pool == w.pool && !started
    ensures key !in w.pool.bindings ==> BoundOnly(w.pool, key, w'.pool)
    ensures key !in w.pool.bindings && AllShut(cfg, w.pool.table.items) ==>
      w'.pool.table == w.pool.table && key !in w'.pool.table.routes && started == MayDial(cfg, w.pool)
    ensures key !in w.pool.bindings && !AllShut(cfg, w.pool.table.items) ==>
      && RoutedBest(cfg, w.pool, key, w'.pool)
      && var item := w'.pool.table.items[w'.pool.table.routes[key]];
         started <==> MayDial(cfg, w.pool) && Open(cfg, item) && item.body.meta.seen == Active && Crowded(cfg, w'.pool.table.items)
  {
    hide Core, Best, Crowded, AllShut, Selects, SelectsNone, CanScale, RoutedBest, BoundOnly, BindStep, MayDial, Open;
    NoneIsShut(cfg, w.pool, w.live);
    if key in w.pool.bindings {
      BoundAnswer(cfg, w, key, started, w');
    } else if SelectsNone(w.pool) {
      WaitsAnswer(cfg, w, key, started, w');
    } else {
      RoutesAnswer(cfg, w, key, started, w');
    }
  }

  lemma BoundAnswer(cfg: Config, w: World, key: SessionKey, started: bool, w': World)
    requires Step(cfg, w, Bind(key, started), w') && key in w.pool.bindings
    ensures w'.pool == w.pool && !started
  {
  }

  lemma WaitsAnswer(cfg: Config, w: World, key: SessionKey, started: bool, w': World)
    requires Inv(cfg, w) && Step(cfg, w, Bind(key, started), w') && key !in w.pool.bindings && SelectsNone(w.pool)
    ensures BoundOnly(w.pool, key, w'.pool)
    ensures w'.pool.table == w.pool.table && key !in w'.pool.table.routes && started == MayDial(cfg, w.pool)
  {
    hide Core, CanScale, CanDial, MayDial, Crowded, Settled;
    ScalesIsCrowded(cfg, w.pool, w.live);
    SameDial(cfg, w.pool, key);
    HandlesBelow(cfg, w.pool, w.live);
  }

  lemma SameDial(cfg: Config, p: Pool, key: SessionKey)
    ensures CanDial(cfg, AddBinding(p, key)) <==> CanDial(cfg, p)
    ensures SelectsNone(AddBinding(p, key)) <==> SelectsNone(p)
  {
  }

  lemma RoutesAnswer(cfg: Config, w: World, key: SessionKey, started: bool, w': World)
    requires Inv(cfg, w) && Step(cfg, w, Bind(key, started), w') && key !in w.pool.bindings && !SelectsNone(w.pool)
    ensures BoundOnly(w.pool, key, w'.pool) && RoutedBest(cfg, w.pool, key, w'.pool)
    ensures var item := w'.pool.table.items[w'.pool.table.routes[key]];
      started <==> MayDial(cfg, w.pool) && Open(cfg, item) && item.body.meta.seen == Active && Crowded(cfg, w'.pool.table.items)
  {
    hide Core, Crowded, CanScale, Priority;
    var p, p' := w.pool, w'.pool;
    LivelyEvolves(cfg, p, w.live, w'.live);
    var q := AddBinding(p, key);
    var id, seen :|
      && Selects(q, id) && Sees(w.live, w'.live, q.table.items[id].body.conn, seen)
      && var r := AttachTo(cfg, q, key, id, seen);
         && started == (r.table.items[id].priority == ACTIVE && CanScale(cfg, r))
         && p' == Reserve(r, started);
    SameSelection(p, key, id);
    hide Selects;
    PlacedBest(cfg, p, w'.live, key, id, seen, started);
    Scaled(cfg, p, w'.live, key, id, seen);
  }

  lemma SelectsIn(p: Pool, id: nat)
    requires Selects(p, id)
    ensures id in p.table.items
  {
  }

  lemma SameSelection(p: Pool, key: SessionKey, id: nat)
    ensures Selects(AddBinding(p, key), id) <==> Selects(p, id)
  {
  }

  /** Scaling up, judged after the attachment. */
  lemma Scaled(cfg: Config, p: Pool, live: map<Conn, ConnState>, key: SessionKey, id: nat, seen: ConnState)
    requires Core(cfg, p, live) && key !in p.bindings && Selects(p, id)
    requires seen == Closed ==> live[p.table.items[id].body.conn] == Closed
    ensures var r := AttachTo(cfg, AddBinding(p, key), key, id, seen);
      && (CanScale(cfg, r) <==> MayDial(cfg, p) && Crowded(cfg, r.table.items))
      && (r.table.items[id].priority == ACTIVE <==> Open(cfg, r.table.items[id]) && seen == Active)
  {
    hide Core, Selects, Crowded, CanScale, CanDial, AttachTo, AddBinding, Priority;
    SelectsIn(p, id);
    AttachedFields(cfg, p, key, id, seen);
    var q := AddBinding(p, key);
    var r := AttachTo(cfg, q, key, id, seen);
    HandlesBelow(cfg, p, live);
    AddBindingCore(cfg, p, live, key);
    SameSelection(p, key, id);
    AttachCore(cfg, q, live, key, id, seen);
    ScalesIsCrowded(cfg, r, live);
    RecordFacts(cfg, r, live, id);
  }

  lemma AttachedFields(cfg: Config, p: Pool, key: SessionKey, id: nat, seen: ConnState)
    requires id in p.table.items
    ensures key in AddBinding(p, key).bindings && AddBinding(p, key).table == p.table
    ensures var r := AttachTo(cfg, AddBinding(p, key), key, id, seen);
      && r.table.connections == p.table.connections && r.closed == p.closed && r.pendingDials == p.pendingDials
      && id in r.table.items && r.table.items[id].body.meta.seen == seen
  {
  }

  /** TryBind of a bound key changes nothing and answers whether its route's connection reads Active, which
      is false without a route.  TryBind of a new key answers true exactly when the best record is one seen
      Active and its connection reads Active; then the key is bound and routed to it, and otherwise nothing
      is bound or routed.  Another connection is started exactly when that is allowed and no record is open
      or, after an answer of true, the best record is crowded. */
  lemma TryBindAnswers(cfg: Config, w: World, key: SessionKey, ok: bool, started: bool, w': World) returns (read: ConnState)
    requires Inv(cfg, w) && Step(cfg, w, TryBind(key, ok, started), w')
    ensures key in w.pool.bindings ==> w'.pool == w.pool && !started
    ensures key in w.pool.bindings && key !in w.pool.table.routes ==> !ok
    ensures key in w.pool.table.routes ==>
      && w.pool.table.routes[key] in w.pool.table.items
      && Sees(w.live, w'.live, w.pool.table.items[w.pool.table.routes[key]].body.conn, read) && (ok <==> read == Active)
    ensures key !in w.pool.bindings ==>
      && (forall id :: Best(cfg, w.pool.table.items, id) ==> Sees(w.live, w'.live, w.pool.table.items[id].body.conn, read))
      && (ok <==> read == Active && exists id :: Best(cfg, w.pool.table.items, id) && w.pool.table.items[id].body.meta.seen == Active)
    ensures key !in w.pool.bindings && ok ==>
      && BoundOnly(w.pool, key, w'.pool) && RoutedBest(cfg, w.pool, key, w'.pool)
      && (started <==> MayDial(cfg, w.pool) && Crowded(cfg, w'.pool.table.items))
    ensures key !in w.pool.bindings && !ok ==>
      && w'.pool.table == w.pool.table && w'.pool.bindings == w.pool.bindings
      && (started <==> MayDial(cfg, w.pool) && AllShut(cfg, w.pool.table.items))
  {
    var p, p' := w.pool, w'.pool;
    LivelyEvolves(cfg, p, w.live, w'.live);
    HandlesBelow(cfg, p, w.live);
    NoneIsShut(cfg, p, w.live);
    if key in p.bindings {
      read := TryBoundAnswers(cfg, w, key, ok, w');
    } else if SelectsNone(p) {
      ScalesIsCrowded(cfg, p, w.live);
      NoBest(cfg, p.table.items);
      hide Core, Best, AllShut, Selects, CanScale;
      read := Closed;
    } else {
      read := TryNewAnswers(cfg, w, key, ok, started, w');
      hide Core, Best, AllShut, Selects, CanScale, Crowded;
    }
  }

  lemma NoBest(cfg: Config, items: Records)
    requires AllShut(cfg, items)
    ensures forall id :: !Best(cfg, items, id)
  {
  }

  lemma TryBoundAnswers(cfg: Config, w: World, key: SessionKey, ok: bool, w': World) returns (read: ConnState)
    requires Core(cfg, w.pool, w.live) && key in w.pool.bindings && AnswersActive(w.pool, w.live, w'.live, key, ok)
    ensures key !in w.pool.table.routes ==> !ok
    ensures key in w.pool.table.routes ==>
      && w.pool.table.routes[key] in w.pool.table.items
      && Sees(w.live, w'.live, w.pool.table.items[w.pool.table.routes[key]].body.conn, read) && (ok <==> read == Active)
  {
    var p := w.pool;
    assert p.handles[p.bindings[key]] == Target(p, key);
    if key in p.table.routes {
      read :| Sees(w.live, w'.live, p.handles[p.bindings[key]].value, read) && ok == (read == Active);
    } else {
      read := Closed;
    }
  }

  lemma TryNewAnswers(cfg: Config, w: World, key: SessionKey, ok: bool, started: bool, w': World) returns (read: ConnState)
    requires Inv(cfg, w) && Step(cfg, w, TryBind(key, ok, started), w') && key !in w.pool.bindings && !SelectsNone(w.pool)
    ensures forall id :: Best(cfg, w.pool.table.items, id) ==> Sees(w.live, w'.live, w.pool.table.items[id].body.conn, read)
    ensures ok <==> read == Active && exists id :: Best(cfg, w.pool.table.items, id) && w.pool.table.items[id].body.meta.seen == Active
    ensures ok ==>
      && BoundOnly(w.pool, key, w'.pool) && RoutedBest(cfg, w.pool, key, w'.pool)
      && (started <==> MayDial(cfg, w.pool) && Crowded(cfg, w'.pool.table.items))
    ensures !ok ==> w'.pool == w.pool && !started
  {
    hide Core, CanScale, Crowded, AllShut;
    var p, p' := w.pool, w'.pool;
    LivelyEvolves(cfg, p, w.live, w'.live);
    var id, first, seen :|
      && Selects(p, id)
      && Sees(w.live, w'.live, p.table.items[id].body.conn, first) && Sees(w.live, w'.live, p.table.items[id].body.conn, seen)
      && ok == (p.table.items[id].priority == ACTIVE && first == Active)
      && if !ok then p' == p && !started
         else
           var r := AttachTo(cfg, AddBinding(p, key), key, id, seen);
           started == CanScale(cfg, r) && p' == Reserve(r, started);
    read := first;
    SelectsIsBest(cfg, p, w'.live, id);
    RecordFacts(cfg, p, w'.live, id);
    OneBest(cfg, p.table.items, id);
    hide Best, Selects, ItemFits, Priority;
    if ok {
      PlacedBest(cfg, p, w'.live, key, id, seen, started);
      Scaled(cfg, p, w'.live, key, id, seen);
    }
  }

  lemma OneBest(cfg: Config, items: Records, id: nat)
    requires Best(cfg, items, id)
    ensures forall other :: Best(cfg, items, other) ==> other == id
    ensures !AllShut(cfg, items)
  {
  }

  // ---------------------------------------------------------------------------------------------
  // Waiting sessions
  // ---------------------------------------------------------------------------------------------

  /** From q to p' sessions were only attached: the records are the same ones, none lost a session, and one
      with as many as before is unchanged. */
  ghost predicate Grows(q: Pool, p': Pool) {
    && q.table.items.Keys == p'.table.items.Keys
    && (forall id :: id in q.table.items ==> q.table.items[id].load <= p'.table.items[id].load)
    && (forall id :: id in q.table.items && q.table.items[id].load == p'.table.items[id].load ==>
          q.table.items[id] == p'.table.items[id])
  }

  lemma GrowsOn(p: Pool, q: Pool, r: Pool)
    requires Grows(p, q) && Grows(q, r)
    ensures Grows(p, r)
  {
  }

  lemma AttachGrows(cfg: Config, p: Pool, key: SessionKey, id: nat, seen: ConnState)
    requires id in p.table.items && key in p.bindings
    ensures Grows(p, AttachTo(cfg, p, key, id, seen))
  {
  }

  lemma {:induction false} AssignsGrow(cfg: Config, p: Pool, live: map<Conn, ConnState>, live': map<Conn, ConnState>,
                                       work: seq<Choice>, p': Pool)
    requires Assigns(cfg, p, live, live', work, p')
    ensures Grows(p, p')
    decreases |work|
  {
    if work != [] {
      var c := work[0];
      AttachGrows(cfg, p, c.key, c.id, c.seen);
      AssignsGrow(cfg, AttachTo(cfg, p, c.key, c.id, c.seen), live, live', work[1..], p');
      hide Grows, Assigns, AttachTo;
      GrowsOn(p, AttachTo(cfg, p, c.key, c.id, c.seen), p');
    }
  }

  /** The moment, on the way to p', at which key went to the record that was best then. */
  ghost predicate Moment(cfg: Config, q: Pool, key: SessionKey, p': Pool) {
    && key in q.bindings && key !in q.table.routes && key in p'.table.routes
    && Best(cfg, q.table.items, p'.table.routes[key]) && Grows(q, p')
  }

  lemma {:induction false} AssignedIsBest(cfg: Config, p: Pool, live: map<Conn, ConnState>, live': map<Conn, ConnState>,
                                          work: seq<Choice>, p': Pool, key: SessionKey) returns (q: Pool)
    requires Core(cfg, p, live') && Assigns(cfg, p, live, live', work, p') && key !in p.table.routes && key in p'.table.routes
    ensures Moment(cfg, q, key, p')
    decreases |work|
  {
    hide Core, Grows, Best;
    AssignsGrow(cfg, p, live, live', work, p');
    AssignsCore(cfg, p, live, live', work, p');
    if work == [] {
      q := p;
    } else {
      var c := work[0];
      var next := AttachTo(cfg, p, c.key, c.id, c.seen);
      AttachCore(cfg, p, live', c.key, c.id, c.seen);
      AssignsCore(cfg, next, live, live', work[1..], p');
      if c.key == key {
        SelectsIsBest(cfg, p, live', c.id);
        q := p;
      } else {
        q := AssignedIsBest(cfg, next, live, live', work[1..], p', key);
      }
    }
  }

  lemma PendingIsBest(cfg: Config, p: Pool, live: map<Conn, ConnState>, live': map<Conn, ConnState>, p': Pool, key: SessionKey)
    returns (q: Pool)
    requires Core(cfg, p, live') && AssignsPending(cfg, p, live, live', p') && key !in p.table.routes && key in p'.table.routes
    ensures Moment(cfg, q, key, p')
  {
    hide Core, Assigns, Moment;
    var work :| Assigns(cfg, p, live, live', work, p');
    q := AssignedIsBest(cfg, p, live, live', work, p', key);
  }

  lemma PendingGrows(cfg: Config, p: Pool, live: map<Conn, ConnState>, live': map<Conn, ConnState>, p': Pool)
    requires AssignsPending(cfg, p, live, live', p')
    ensures Grows(p, p')
  {
    hide Assigns, Grows;
    var work :| Assigns(cfg, p, live, live', work, p');
    AssignsGrow(cfg, p, live, live', work, p');
  }

  // ---------------------------------------------------------------------------------------------
  // Unbind, Sync, dials and cleanup
  // ---------------------------------------------------------------------------------------------

  /** Unbind takes exactly its own binding and route.  What else changes is that waiting sessions may be
      attached; a record that is left without sessions is marked with the time. */
  lemma UnbindAnswers(cfg: Config, w: World, key: SessionKey, now: int, w': World) returns (q: Pool)
    requires Inv(cfg, w) && Step(cfg, w, Unbind(key, now), w')
    ensures key !in w'.pool.bindings && key !in w'.pool.table.routes
    ensures w'.pool.bindings == w.pool.bindings - {key} && w'.pool.table.connections == w.pool.table.connections
    ensures key !in w.pool.table.routes ==> w'.pool.table == w.pool.table
    ensures key in w.pool.table.routes ==>
      var id := w.pool.table.routes[key];
      && id in w.pool.table.items && Grows(q, w'.pool) && q.table.items.Keys == w.pool.table.items.Keys
      && q.table.items[id].load == w.pool.table.items[id].load - 1
      && q.table.items[id].body.meta.idleSince ==
           (if w.pool.table.items[id].load == 1 then Some(now) else w.pool.table.items[id].body.meta.idleSince)
      && (forall other :: other in w.pool.table.items && other != id ==> q.table.items[other] == w.pool.table.items[other])
    ensures forall k :: k in w'.pool.table.routes ==> k in w'.pool.bindings
  {
    hide Core, Grows, AssignsPending, Settled, Priority;
    var p, p' := w.pool, w'.pool;
    LivelyEvolves(cfg, p, w.live, w'.live);
    UnbindInv(cfg, w, key, now, w');
    HandlesBelow(cfg, p', w'.live);
    CoreFacts(cfg, p, w.live);
    q := p;
    if key in p.table.routes {
      var b := p.(bindings := p.bindings - {key});
      var seen :|
        && Sees(w.live, w'.live, p.table.items[p.table.routes[key]].body.conn, seen)
        && AssignsPending(cfg, DetachKey(cfg, b, key, seen, now), w.live, w'.live, p');
      q := Unbound(cfg, p, key, seen, now);
      UnboundCore(cfg, p, w'.live, key, seen, now);
      AssignsPendingCore(cfg, q, w.live, w'.live, p');
      PendingGrows(cfg, q, w.live, w'.live, p');
    }
  }

  /** The observer's call for a connection of the pool: a state read as Closed takes exactly its record out;
      any other is recorded, together with the one the priority is computed from, and nothing else changes. */
  lemma SyncAnswers(cfg: Config, w: World, conn: Conn, w': World) returns (first: ConnState, second: ConnState, q: Pool)
    requires Inv(cfg, w) && Step(cfg, w, Sync(conn), w')
    ensures w'.pool.bindings == w.pool.bindings
    ensures conn !in w.pool.table.connections ==> w'.pool == w.pool
    ensures conn in w.pool.table.connections ==>
      && Sees(w.live, w'.live, conn, first) && Sees(w.live, w'.live, conn, second)
      && (first == Closed ==>
            && w'.pool.table.connections.Keys == w.pool.table.connections.Keys - {conn}
            && q.table.items == w.pool.table.items - {w.pool.table.connections[conn]} && Grows(q, w'.pool))
      && (first != Closed ==>
            && w'.pool.table.connections == w.pool.table.connections && w'.pool.table.routes == w.pool.table.routes
            && var id := w.pool.table.connections[conn];
               && id in w.pool.table.items && w'.pool.table.items.Keys == w.pool.table.items.Keys
               && w'.pool.table.items[id].body == w.pool.table.items[id].body.(meta :=
                    w.pool.table.items[id].body.meta.(state := first, seen := second))
               && forall other :: other in w.pool.table.items && other != id ==> w'.pool.table.items[other] == w.pool.table.items[other])
  {
    hide Core, AssignsPending, Settled, Priority, Refresh, RemoveItem, Grows;
    var p, p' := w.pool, w'.pool;
    LivelyEvolves(cfg, p, w.live, w'.live);
    CoreFacts(cfg, p, w.live);
    first, second, q := Closed, Closed, p;
    if conn in p.table.connections {
      var id := p.table.connections[conn];
      first, second :|
        && Sees(w.live, w'.live, conn, first) && Sees(w.live, w'.live, conn, second)
        && var r := SetState(p, id, first);
           if first == Closed then AssignsPending(cfg, RemoveItem(r, id), w.live, w'.live, p')
           else p' == Refresh(cfg, r, id, second);
      SyncedFields(cfg, p, id, first, second);
      if first == Closed {
        SetStateCore(cfg, p, w'.live, id, first);
        RemoveCore(cfg, SetState(p, id, first), w'.live, id);
        q := RemoveItem(SetState(p, id, first), id);
        AssignsPendingCore(cfg, q, w.live, w'.live, p');
        PendingGrows(cfg, q, w.live, w'.live, p');
      }
    }
  }

  lemma SyncedFields(cfg: Config, p: Pool, id: nat, first: ConnState, second: ConnState)
    requires id in p.table.items
    ensures var q := SetState(p, id, first);
      && id in q.table.items && q.table.items[id].body.conn == p.table.items[id].body.conn
      && RemoveItem(q, id).bindings == p.bindings && RemoveItem(q, id).table.items == p.table.items - {id}
      && RemoveItem(q, id).table.connections == p.table.connections - {p.table.items[id].body.conn}
    ensures var q := Refresh(cfg, SetState(p, id, first), id, second);
      && q.bindings == p.bindings && q.table.connections == p.table.connections && q.table.routes == p.table.routes
      && q.table.items.Keys == p.table.items.Keys
      && q.table.items[id].body == p.table.items[id].body.(meta := p.table.items[id].body.meta.(state := first, seen := second))
      && forall other :: other in p.table.items && other != id ==> q.table.items[other] == p.table.items[other]
  {
  }

  /** A dial that ends brings its connection into an open pool, under a new id and with no session before
      the waiting ones are attached; a closed pool's tables stay as they are. */
  lemma DialAnswers(cfg: Config, w: World, conn: Conn, w': World) returns (q: Pool)
    requires Inv(cfg, w) && Step(cfg, w, DialEnds(conn), w')
    ensures w'.pool.bindings == w.pool.bindings && w'.pool.pendingDials == w.pool.pendingDials - 1
    ensures w.pool.closed ==> w'.pool.table == w.pool.table
    ensures !w.pool.closed ==>
      && conn !in w.pool.table.connections && w'.pool.table.connections.Keys == w.pool.table.connections.Keys + {conn}
      && var id := w'.pool.table.connections[conn];
         && id !in w.pool.table.items && q.table.items.Keys == w.pool.table.items.Keys + {id} && Grows(q, w'.pool)
         && q.table.items[id].load == 0 && q.table.items[id].body.conn == conn && q.table.items[id].body.meta.idleSince == None
         && forall other :: other in w.pool.table.items ==> q.table.items[other] == w.pool.table.items[other]
  {
    hide Core, AssignsPending, Settled, Priority, Grows, AddItem, NewItem;
    var p, p' := w.pool, w'.pool;
    LivelyEvolves(cfg, p, w.live, w'.live);
    q := p;
    if !p.closed {
      var b := p.(pendingDials := p.pendingDials - 1);
      CountDialCore(cfg, p, w'.live, -1);
      var first, second :|
        && conn !in p.table.connections && Sees(w.live, w'.live, conn, first) && Sees(w.live, w'.live, conn, second)
        && AssignsPending(cfg, AddItem(b, NewItem(cfg, b.nextId + 1, conn, first, second)), w.live, w'.live, p');
      q := AddItem(b, NewItem(cfg, b.nextId + 1, conn, first, second));
      FreshId(cfg, p, w'.live);
      AddItemCore(cfg, b, w'.live, conn, first, second);
      AddedFields(cfg, b, conn, first, second);
      AssignsPendingCore(cfg, q, w.live, w'.live, p');
      PendingGrows(cfg, q, w.live, w'.live, p');
    }
  }

  lemma AddedFields(cfg: Config, p: Pool, conn: Conn, first: ConnState, second: ConnState)
    requires p.nextId + 1 !in p.table.items
    ensures var q := AddItem(p, NewItem(cfg, p.nextId + 1, conn, first, second));
      && q.table.connections == p.table.connections[conn := p.nextId + 1] && q.bindings == p.bindings
      && q.pendingDials == p.pendingDials && q.table.routes == p.table.routes
      && q.table.items.Keys == p.table.items.Keys + {p.nextId + 1}
      && q.table.items[p.nextId + 1].load == 0 && q.table.items[p.nextId + 1].body.conn == conn
      && q.table.items[p.nextId + 1].body.meta.idleSince == None
      && forall other :: other in p.table.items ==> q.table.items[other] == p.table.items[other]
  {
  }

  lemma FreshId(cfg: Config, p: Pool, live: map<Conn, ConnState>)
    requires Core(cfg, p, live)
    ensures p.nextId + 1 !in p.table.items
  {
    forall id | id in p.table.items ensures id <= p.nextId {
      RecordFacts(cfg, p, live, id);
    }
  }

  /** The record has no session and has been marked idle for at least the timeout. */
  predicate Expired(cfg: Config, item: Entry<Meta>, now: int) {
    item.load == 0 && item.body.meta.idleSince.Some? && item.body.meta.idleSince.value + cfg.idleTimeout <= now
  }

  /** Cleanup takes out only records that have been idle for the timeout, changes no other, and stops only
      at the minimum or when no such record is left. */
  lemma CleanupAnswers(cfg: Config, w: World, now: int, w': World)
    requires Inv(cfg, w) && Step(cfg, w, Cleanup(now), w')
    ensures w'.pool.bindings == w.pool.bindings && w'.pool.table.routes == w.pool.table.routes
    ensures w'.pool.table.items.Keys <= w.pool.table.items.Keys
    ensures forall id :: id in w'.pool.table.items ==> w'.pool.table.items[id] == w.pool.table.items[id]
    ensures forall id :: id in w.pool.table.items && id !in w'.pool.table.items ==> Expired(cfg, w.pool.table.items[id], now)
    ensures |w'.pool.table.connections| > cfg.minConns ==>
      forall id :: id in w'.pool.table.items ==> !Expired(cfg, w'.pool.table.items[id], now)
  {
    hide Core;
    var ids :| Reaps(cfg, w.pool, now, ids, w'.pool);
    ReapsCore(cfg, w.pool, w.live, now, ids, w'.pool);
    ReapsExpired(cfg, w.pool, now, ids, w'.pool);
  }

  lemma {:induction false} ReapsExpired(cfg: Config, p: Pool, now: int, ids: seq<nat>, p': Pool)
    requires Reaps(cfg, p, now, ids, p')
    ensures forall id :: id in p.table.items && id !in p'.table.items ==> Expired(cfg, p.table.items[id], now)
    decreases |ids|
  {
    if ids != [] {
      ReapsExpired(cfg, RemoveItem(p, ids[0]), now, ids[1..], p');
    }
  }

  /** Starting the minimum reserves exactly the dials that are missing, and nothing else changes. */
  lemma StartMinAnswers(cfg: Config, w: World, w': World)
    requires Step(cfg, w, StartMin, w')
    ensures w'.pool == w.pool.(pendingDials := w'.pool.pendingDials)
    ensures w'.dials - w.dials == w'.pool.pendingDials - w.pool.pendingDials
    ensures |w.pool.table.connections| + w'.pool.pendingDials ==
      if |w.pool.table.connections| + w.pool.pendingDials < cfg.minConns then cfg.minConns
      else |w.pool.table.connections| + w.pool.pendingDials
  {
  }

  /** Emptying the pool leaves no connection, route or binding, and every handle that was given out for a
      bound session points nowhere. */
  lemma EmptyAnswers(cfg: Config, w: World, w': World)
    requires Inv(cfg, w) && Step(cfg, w, Empty, w')
    ensures w'.pool.table == Table(map[], map[], map[]) && w'.pool.bindings == map[]
    ensures forall k :: k in w.pool.bindings ==> w.pool.bindings[k] in w'.pool.handles && w'.pool.handles[w.pool.bindings[k]] == None
  {
    HandlesKnown(cfg, w.pool, w.live);
    hide Core, InState;
  }

  lemma HandlesKnown(cfg: Config, p: Pool, live: map<Conn, ConnState>)
    requires Core(cfg, p, live)
    ensures forall k :: k in p.bindings ==> p.bindings[k] in p.handles
  {
  }

  // ---------------------------------------------------------------------------------------------
  // Whole runs
  // ---------------------------------------------------------------------------------------------

  /** In every run, whichever step routes a session, it went to the record that was best at that moment:
      never to one last seen Connecting while one last seen Active had room, and never past a less loaded
      one of its kind. */
  lemma NewRouteIsBest(cfg: Config, ws: seq<World>, ops: seq<Op>, n: nat, key: SessionKey) returns (q: Pool)
    requires Run(cfg, ws, ops) && n < |ops|
    requires key !in ws[n].pool.table.routes && key in ws[n + 1].pool.table.routes
    ensures Moment(cfg, q, key, ws[n + 1].pool)
  {
    EveryRun(cfg, ws, ops, n);
    assert Step(cfg, ws[n], ops[n], ws[n + 1]);
    hide Run, Inv, Moment;
    q := NewRoute(cfg, ws[n], ops[n], ws[n + 1], key);
  }

  /** In which steps a session can be routed, and to the best record of which moment. */
  lemma NewRoute(cfg: Config, w: World, op: Op, w': World, key: SessionKey) returns (q: Pool)
    requires Inv(cfg, w) && Step(cfg, w, op, w') && key !in w.pool.table.routes && key in w'.pool.table.routes
    ensures Moment(cfg, q, key, w'.pool)
  {
    hide Core, Moment, BindStep, TryBindStep, UnbindStep, SyncStep, DialStep, CleanupStep, Best, RoutedBest, AllShut;
    match op {
      case Bind(k, started) =>
        BindAnswers(cfg, w, k, started, w');
        q := BindMoment(cfg, w.pool, k, w'.pool, key);
      case TryBind(k, ok, started) =>
        var read := TryBindAnswers(cfg, w, k, ok, started, w');
        q := BindMoment(cfg, w.pool, k, w'.pool, key);
      case Unbind(k, now) => q := UnbindMoment(cfg, w, k, now, w', key);
      case Sync(conn) => q := SyncMoment(cfg, w, conn, w', key);
      case DialEnds(conn) => q := DialMoment(cfg, w, conn, w', key);
      case Cleanup(now) =>
        CleanupAnswers(cfg, w, now, w');
        assert false;
      case _ => assert false;
    }
  }

  lemma BindMoment(cfg: Config, p: Pool, k: SessionKey, p': Pool, key: SessionKey) returns (q: Pool)
    requires key !in p.table.routes && key in p'.table.routes
    requires k in p.bindings ==> p' == p
    requires p'.table == p.table || RoutedBest(cfg, p, k, p')
    ensures Moment(cfg, q, key, p')
  {
    q := AddBinding(p, k);
    hide Best;
  }

  lemma UnbindMoment(cfg: Config, w: World, k: SessionKey, now: int, w': World, key: SessionKey) returns (q: Pool)
    requires Inv(cfg, w) && Step(cfg, w, Unbind(k, now), w') && key !in w.pool.table.routes && key in w'.pool.table.routes
    ensures Moment(cfg, q, key, w'.pool)
  {
    hide Core, AssignsPending, Settled, Priority, Moment;
    var p, p' := w.pool, w'.pool;
    LivelyEvolves(cfg, p, w.live, w'.live);
    CoreFacts(cfg, p, w.live);
    var b := p.(bindings := p.bindings - {k});
    var seen :|
      && Sees(w.live, w'.live, p.table.items[p.table.routes[k]].body.conn, seen)
      && AssignsPending(cfg, DetachKey(cfg, b, k, seen, now), w.live, w'.live, p');
    UnboundCore(cfg, p, w'.live, k, seen, now);
    q := PendingIsBest(cfg, Unbound(cfg, p, k, seen, now), w.live, w'.live, p', key);
  }

  lemma SyncMoment(cfg: Config, w: World, conn: Conn, w': World, key: SessionKey) returns (q: Pool)
    requires Inv(cfg, w) && Step(cfg, w, Sync(conn), w') && key !in w.pool.table.routes && key in w'.pool.table.routes
    ensures Moment(cfg, q, key, w'.pool)
  {
    hide Core, AssignsPending, Settled, Priority, Moment, InState, Unpoint;
    var p, p' := w.pool, w'.pool;
    LivelyEvolves(cfg, p, w.live, w'.live);
    CoreFacts(cfg, p, w.live);
    var id := p.table.connections[conn];
    var r := SetState(p, id, Closed);
    assert AssignsPending(cfg, RemoveItem(r, id), w.live, w'.live, p');
    assert w'.live[p.table.items[id].body.conn] == Closed;
    SetStateCore(cfg, p, w'.live, id, Closed);
    RemoveCore(cfg, r, w'.live, id);
    q := PendingIsBest(cfg, RemoveItem(r, id), w.live, w'.live, p', key);
  }

  lemma DialMoment(cfg: Config, w: World, conn: Conn, w': World, key: SessionKey) returns (q: Pool)
    requires Inv(cfg, w) && Step(cfg, w, DialEnds(conn), w') && key !in w.pool.table.routes && key in w'.pool.table.routes
    ensures Moment(cfg, q, key, w'.pool)
  {
    hide Core, AssignsPending, Settled, Priority, Moment, AddItem, NewItem;
    var p, p' := w.pool, w'.pool;
    LivelyEvolves(cfg, p, w.live, w'.live);
    var b := p.(pendingDials := p.pendingDials - 1);
    CountDialCore(cfg, p, w'.live, -1);
    var first, second :|
      && conn !in p.table.connections && Sees(w.live, w'.live, conn, first) && Sees(w.live, w'.live, conn, second)
      && AssignsPending(cfg, AddItem(b, NewItem(cfg, b.nextId + 1, conn, first, second)), w.live, w'.live, p');
    FreshId(cfg, p, w'.live);
    AddItemCore(cfg, b, w'.live, conn, first, second);
    AddedFields(cfg, b, conn, first, second);
    q := PendingIsBest(cfg, AddItem(b, NewItem(cfg, b.nextId + 1, conn, first, second)), w.live, w'.live, p', key);
  }

  // ---------------------------------------------------------------------------------------------
  // Idle marks
  // ---------------------------------------------------------------------------------------------

  predicate Marked(items: Records, id: nat, time: int) {
    id in items && items[id].body.meta.idleSince == Some(time)
  }

  lemma MarkedIsEmpty(cfg: Config, w: World, id: nat, time: int)
    requires Inv(cfg, w) && Marked(w.pool.table.items, id, time)
    ensures w.pool.table.items[id].load == 0
  {
    RecordFacts(cfg, w.pool, w.live, id);
  }

  /** A mark stays from the step before, or the step is the Unbind that took the record's last session. */
  ghost predicate MarkFrom(w: World, op: Op, id: nat, time: int) {
    || Marked(w.pool.table.items, id, time)
    || (op.Unbind? && op.now == time && op.key in w.pool.table.routes && w.pool.table.routes[op.key] == id
        && id in w.pool.table.items && w.pool.table.items[id].load == 1)
  }

  /** Attaching sessions makes no mark. */
  lemma GrownMark(q: Pool, p': Pool, id: nat, time: int)
    requires Grows(q, p') && Marked(p'.table.items, id, time) && p'.table.items[id].load == 0
    ensures Marked(q.table.items, id, time)
  {
  }

  lemma BindMark(cfg: Config, p: Pool, k: SessionKey, p': Pool, id: nat, time: int)
    requires p'.table == p.table || RoutedBest(cfg, p, k, p')
    requires Marked(p'.table.items, id, time) && p'.table.items[id].load == 0
    ensures Marked(p.table.items, id, time)
  {
    hide Best;
  }

  lemma UnbindMark(cfg: Config, w: World, k: SessionKey, now: int, w': World, id: nat, time: int)
    requires Inv(cfg, w) && Step(cfg, w, Unbind(k, now), w')
    requires Marked(w'.pool.table.items, id, time) && w'.pool.table.items[id].load == 0
    ensures MarkFrom(w, Unbind(k, now), id, time)
  {
    hide Inv, Step, Grows;
    var q := UnbindAnswers(cfg, w, k, now, w');
    if k in w.pool.table.routes {
      GrownMark(q, w'.pool, id, time);
    }
  }

  lemma SyncMark(cfg: Config, w: World, conn: Conn, w': World, id: nat, time: int)
    requires Inv(cfg, w) && Step(cfg, w, Sync(conn), w')
    requires Marked(w'.pool.table.items, id, time) && w'.pool.table.items[id].load == 0
    ensures Marked(w.pool.table.items, id, time)
  {
    hide Inv, Step, Grows;
    var first, second, q := SyncAnswers(cfg, w, conn, w');
    if conn in w.pool.table.connections && first == Closed {
      GrownMark(q, w'.pool, id, time);
    }
  }

  lemma DialMark(cfg: Config, w: World, conn: Conn, w': World, id: nat, time: int)
    requires Inv(cfg, w) && Step(cfg, w, DialEnds(conn), w')
    requires Marked(w'.pool.table.items, id, time) && w'.pool.table.items[id].load == 0
    ensures Marked(w.pool.table.items, id, time)
  {
    hide Inv, Step, Grows;
    var q := DialAnswers(cfg, w, conn, w');
    if !w.pool.closed {
      GrownMark(q, w'.pool, id, time);
    }
  }

  lemma MarkStep(cfg: Config, w: World, op: Op, w': World, id: nat, time: int)
    requires Inv(cfg, w) && Step(cfg, w, op, w') && Marked(w'.pool.table.items, id, time)
    ensures MarkFrom(w, op, id, time)
  {
    hide Core, Inv, BindStep, TryBindStep, UnbindStep, SyncStep, DialStep, CleanupStep, Best, AllShut, Crowded, RoutedBest, Emptied;
    StepInv(cfg, w, op, w');
    MarkedIsEmpty(cfg, w', id, time);
    match op {
      case Bind(k, started) =>
        BindAnswers(cfg, w, k, started, w');
        BindMark(cfg, w.pool, k, w'.pool, id, time);
      case TryBind(k, ok, started) =>
        var read := TryBindAnswers(cfg, w, k, ok, started, w');
        BindMark(cfg, w.pool, k, w'.pool, id, time);
      case Unbind(k, now) => UnbindMark(cfg, w, k, now, w', id, time);
      case Sync(conn) => SyncMark(cfg, w, conn, w', id, time);
      case DialEnds(conn) => DialMark(cfg, w, conn, w', id, time);
      case Cleanup(now) => CleanupAnswers(cfg, w, now, w');
      case Empty => EmptiedItems(w.pool);
      case _ =>
    }
  }

  lemma EmptiedItems(p: Pool)
    ensures Emptied(p).table.items == map[]
  {
  }

  /** In every run, a record marked with a time lost its last session in an Unbind at that time, and has
      been without a session ever since. */
  lemma {:induction false} MarkedSince(cfg: Config, ws: seq<World>, ops: seq<Op>, n: nat, id: nat, time: int) returns (m: nat)
    requires Run(cfg, ws, ops) && n < |ws| && Marked(ws[n].pool.table.items, id, time)
    ensures m < n && ops[m].Unbind? && ops[m].now == time
    ensures ops[m].key in ws[m].pool.table.routes && ws[m].pool.table.routes[ops[m].key] == id
    ensures forall j :: m < j <= n ==> Marked(ws[j].pool.table.items, id, time) && ws[j].pool.table.items[id].load == 0
    decreases n
  {
    hide Step, Inv, Marked;
    EveryRun(cfg, ws, ops, n);
    MarkedIsEmpty(cfg, ws[n], id, time);
    if n == 0 {
      NoMarks(ws[0], id, time);
      assert false;
    } else {
      EveryRun(cfg, ws, ops, n - 1);
      MarkStep(cfg, ws[n - 1], ops[n - 1], ws[n], id, time);
      if Marked(ws[n - 1].pool.table.items, id, time) {
        m := MarkedSince(cfg, ws, ops, n - 1, id, time);
      } else {
        m := n - 1;
      }
    }
  }

  lemma NoMarks(w: World, id: nat, time: int)
    requires Init(w)
    ensures !Marked(w.pool.table.items, id, time)
  {
  }

  /** In every run, a record that idle cleanup takes out has been without a session for at least the idle
      timeout, since the Unbind that took its last one. */
  lemma ReapedWasIdle(cfg: Config, ws: seq<World>, ops: seq<Op>, n: nat, id: nat) returns (m: nat)
    requires Run(cfg, ws, ops) && n < |ops| && ops[n].Cleanup?
    requires id in ws[n].pool.table.items && id !in ws[n + 1].pool.table.items
    ensures m < n && ops[m].Unbind? && ops[m].now + cfg.idleTimeout <= ops[n].now
    ensures forall j :: m < j <= n ==> id in ws[j].pool.table.items && ws[j].pool.table.items[id].load == 0
  {
    hide Inv;
    EveryRun(cfg, ws, ops, n);
    assert Step(cfg, ws[n], ops[n], ws[n + 1]);
    CleanupAnswers(cfg, ws[n], ops[n].now, ws[n + 1]);
    m := MarkedSince(cfg, ws, ops, n, id, ws[n].pool.table.items[id].body.meta.idleSince.value);
  }
}
