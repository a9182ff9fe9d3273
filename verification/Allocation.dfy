/** The session-to-connection tables that both pools keep: one record per connection, the map from
    connections to records, and the map from sessions to records.  This module gives the five ways
    the pools change them, and the agreement that all five keep. */
module Allocation {
  import opened IndexedHeap

  /** Session keys and connection pointers are only ever compared for equality. */
  type SessionKey = nat
  type Conn = nat

  datatype Body<+M> = Body(conn: Conn, sessions: set<SessionKey>, meta: M)
  type Entry<+M> = Item<Body<M>>

  datatype Table<+M> = Table(
    items: map<nat, Entry<M>>,
    connections: map<Conn, nat>,
    routes: map<SessionKey, nat>)

  /** Records and the connection map are inverse to each other. */
  ghost predicate Keyed<M>(t: Table<M>) {
    && (forall id :: id in t.items ==> t.items[id].id == id)
    && (forall id :: id in t.items ==>
          t.items[id].body.conn in t.connections && t.connections[t.items[id].body.conn] == id)
    && (forall c :: c in t.connections ==>
          t.connections[c] in t.items && t.items[t.connections[c]].body.conn == c)
  }

  /** A record's session set is exactly the keys routed to it. */
  ghost predicate Routed<M>(t: Table<M>) {
    && (forall k :: k in t.routes ==> t.routes[k] in t.items && k in t.items[t.routes[k]].body.sessions)
    && (forall id, k :: id in t.items && k in t.items[id].body.sessions ==> k in t.routes && t.routes[k] == id)
  }

  ghost predicate Loaded<M>(t: Table<M>) {
    forall id :: id in t.items ==> t.items[id].load == |t.items[id].body.sessions|
  }

  ghost predicate Agrees<M>(t: Table<M>) {
    Keyed(t) && Routed(t) && Loaded(t)
  }

  function Insert<M>(t: Table<M>, item: Entry<M>): Table<M> {
    t.(items := t.items[item.id := item], connections := t.connections[item.body.conn := item.id])
  }

  function Drop<M>(t: Table<M>, id: nat): Table<M>
    requires id in t.items
  {
    Table(t.items - {id}, t.connections - {t.items[id].body.conn}, t.routes - t.items[id].body.sessions)
  }

  function AttachedItem<M>(item: Entry<M>, key: SessionKey, priority: nat, meta: M): Entry<M> {
    Item(item.id, priority, item.load + 1, Body(item.body.conn, item.body.sessions + {key}, meta))
  }

  function Attach<M>(t: Table<M>, key: SessionKey, id: nat, priority: nat, meta: M): Table<M>
    requires id in t.items
  {
    t.(items := t.items[id := AttachedItem(t.items[id], key, priority, meta)], routes := t.routes[key := id])
  }

  function DetachedItem<M>(item: Entry<M>, key: SessionKey, priority: nat, meta: M): Entry<M>
    requires item.load > 0
  {
    Item(item.id, priority, item.load - 1, Body(item.body.conn, item.body.sessions - {key}, meta))
  }

  function Detach<M>(t: Table<M>, key: SessionKey, priority: nat, meta: M): Table<M>
    requires key in t.routes && t.routes[key] in t.items && t.items[t.routes[key]].load > 0
  {
    var id := t.routes[key];
    t.(items := t.items[id := DetachedItem(t.items[id], key, priority, meta)], routes := t.routes - {key})
  }

  function Touch<M>(t: Table<M>, id: nat, priority: nat, meta: M): Table<M>
    requires id in t.items
  {
    t.(items := t.items[id := t.items[id].(priority := priority, body := t.items[id].body.(meta := meta))])
  }

  lemma InsertAgrees<M>(t: Table<M>, item: Entry<M>)
    requires Agrees(t) && item.id !in t.items && item.body.conn !in t.connections
    requires item.load == 0 && item.body.sessions == {}
    ensures Agrees(Insert(t, item))
  {
  }

  lemma DropAgrees<M>(t: Table<M>, id: nat)
    requires Agrees(t) && id in t.items
    ensures Agrees(Drop(t, id))
    ensures forall k :: k in Drop(t, id).routes <==> k in t.routes && t.routes[k] != id
  {
    var gone := t.items[id].body.sessions;
    assert forall k :: k in gone <==> k in t.routes && t.routes[k] == id;
  }

  lemma AttachAgrees<M>(t: Table<M>, key: SessionKey, id: nat, priority: nat, meta: M)
    requires Agrees(t) && id in t.items && key !in t.routes
    ensures Agrees(Attach(t, key, id, priority, meta))
  {
  }

  /** A routed key's record always has load, so the guard on the decrement never bites. */
  lemma DetachAgrees<M>(t: Table<M>, key: SessionKey, priority: nat, meta: M)
    requires Agrees(t) && key in t.routes
    ensures t.items[t.routes[key]].load > 0
    ensures Agrees(Detach(t, key, priority, meta))
  {
  }

  lemma TouchAgrees<M>(t: Table<M>, id: nat, priority: nat, meta: M)
    requires Agrees(t) && id in t.items
    ensures Agrees(Touch(t, id, priority, meta))
  {
  }

  /** A map of size n with m of its keys taken out has size n - m. */
  lemma KeysLeft(m: map<nat, nat>, gone: set<nat>)
    requires gone <= m.Keys
    ensures |m - gone| == |m| - |gone|
  {
    assert (m - gone).Keys == m.Keys - gone;
  }

  /** Dropping a record takes its own sessions' routes, and no more. */
  lemma DropRoutes<M>(t: Table<M>, id: nat)
    requires Routed(t) && id in t.items
    ensures |Drop(t, id).routes| == |t.routes| - |t.items[id].body.sessions|
    ensures forall k :: k in t.routes && t.routes[k] != id ==> k in Drop(t, id).routes && Drop(t, id).routes[k] == t.routes[k]
  {
    KeysLeft(t.routes, t.items[id].body.sessions);
  }

  lemma DropOne<M>(t: Table<M>, id: nat)
    requires Keyed(t) && id in t.items
    ensures |Drop(t, id).connections| == |t.connections| - 1
  {
    KeysLeft(t.connections, {t.items[id].body.conn});
  }
}
