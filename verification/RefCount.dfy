/** Manual reference counts of media objects crossing nodes, tracks, workers and plugins.

    A place is a queue, whose entries are holders, or a thread.  A thread holds what its plugin code
    owns, the event its handler is running on, an entry it has just evicted, and whatever the engine
    call it is in the middle of still owes.  The last is computed from the steps the call has left,
    so no counter in the model repeats the one under proof.  All steps interleave freely. */
module RefCount {
  import opened Options

  /** One life of an object, from the pool and back. */
  type Obj = nat

  /** What an engine call still has to do with its object: retain it, hand one reference to a queue,
      or release one. */
  datatype Act = Retain | Deliver(queue: nat) | Release

  datatype Call = Call(obj: Obj, script: seq<Act>)

  datatype Place =
    | Queue(items: seq<Obj>, capacity: nat)
    | Thread(own: multiset<Obj>, event: Option<Obj>, victim: Option<Obj>, call: Option<Call>)

  datatype Cell = Cell(count: int, recycled: nat)

  datatype State = State(places: seq<Place>, cells: map<Obj, Cell>)

  // ---------------------------------------------------------------------------------------------
  // The counted object
  // ---------------------------------------------------------------------------------------------

  /** A release that leaves nothing positive puts the object back into the pool, which zeroes the count. */
  function Lowered(c: Cell): Cell {
    if c.count - 1 > 0 then c.(count := c.count - 1) else Cell(0, c.recycled + 1)
  }

  function Retained(cells: map<Obj, Cell>, o: Obj): map<Obj, Cell>
    requires o in cells
  {
    cells[o := cells[o].(count := cells[o].count + 1)]
  }

  function Released(cells: map<Obj, Cell>, o: Obj): map<Obj, Cell>
    requires o in cells
  {
    cells[o := Lowered(cells[o])]
  }

  // ---------------------------------------------------------------------------------------------
  // The engine calls
  // ---------------------------------------------------------------------------------------------

  function Deliveries(queues: seq<nat>): seq<Act> {
    seq(|queues|, i requires 0 <= i < |queues| => Deliver(queues[i]))
  }

  /** Fan-out: retain once for each downstream, then give each its reference. */
  function Fanout(queues: seq<nat>): seq<Act> {
    seq(|queues|, _ => Retain) + Deliveries(queues)
  }

  /** Broadcast: retain and deliver node by node, then release the caller's reference. */
  function Broadcast(queues: seq<nat>): seq<Act> {
    if queues == [] then [Release] else [Retain, Deliver(queues[0])] + Broadcast(queues[1..])
  }

  function Owed(a: Act): int {
    if a == Retain then -1 else 1
  }

  /** The references a call holds when these acts are what it has left. */
  function Balance(script: seq<Act>): int {
    if script == [] then 0 else Owed(script[0]) + Balance(script[1..])
  }

  // ---------------------------------------------------------------------------------------------
  // Holders
  // ---------------------------------------------------------------------------------------------

  function Has(x: Option<Obj>, o: Obj): nat {
    if x == Some(o) then 1 else 0
  }

  function Due(call: Option<Call>, o: Obj): int {
    if call.Some? && call.value.obj == o then Balance(call.value.script) else 0
  }

  function Refs(p: Place, o: Obj): int {
    match p
    case Queue(items, _) => multiset(items)[o]
    case Thread(own, event, victim, call) => own[o] + Has(event, o) + Has(victim, o) + Due(call, o)
  }

  function Holders(places: seq<Place>, o: Obj): int {
    if places == [] then 0 else Refs(places[0], o) + Holders(places[1..], o)
  }

  // ---------------------------------------------------------------------------------------------
  // Steps
  // ---------------------------------------------------------------------------------------------

  predicate IsThread(s: State, t: nat) {
    t < |s.places| && s.places[t].Thread?
  }

  predicate IsQueue(s: State, q: nat) {
    q < |s.places| && s.places[q].Queue?
  }

  /** Plugin code is running: no engine call is under way. */
  predicate AtRest(s: State, t: nat) {
    IsThread(s, t) && s.places[t].call == None && s.places[t].victim == None
  }

  /** Plugin code may use what it owns and the event it is handling. */
  predicate InHand(p: Place, o: Obj)
    requires p.Thread?
  {
    o in p.own || p.event == Some(o)
  }

  datatype Step =
    | Create(t: nat, o: Obj)
    | Keep(t: nat, o: Obj)
    | LetGo(t: nat, o: Obj)
    | Send(t: nat, o: Obj, queues: seq<nat>)
    | HandOver(t: nat, o: Obj, queue: nat)
    | BroadcastTo(t: nat, o: Obj, queues: seq<nat>)
    | Advance(t: nat, accepted: bool)
    | Evict(t: nat)
    | DropVictim(t: nat)
    | Take(t: nat, q: nat)
    | Finish(t: nat)

  /** A new object comes out of the pool with count one, owned by the plugin code that asked for it. */
  ghost predicate Creates(s: State, t: nat, o: Obj, s': State) {
    && AtRest(s, t) && o !in s.cells
    && s' == State(s.places[t := s.places[t].(own := s.places[t].own + multiset{o})], s.cells[o := Cell(1, 0)])
  }

  ghost predicate Keeps(s: State, t: nat, o: Obj, s': State) {
    && AtRest(s, t) && InHand(s.places[t], o) && o in s.cells
    && s' == State(s.places[t := s.places[t].(own := s.places[t].own + multiset{o})], Retained(s.cells, o))
  }

  ghost predicate LetsGo(s: State, t: nat, o: Obj, s': State) {
    && AtRest(s, t) && o in s.places[t].own && o in s.cells
    && s' == State(s.places[t := s.places[t].(own := s.places[t].own - multiset{o})], Released(s.cells, o))
  }

  /** Sending keeps the caller's own reference: fan-out to downstream nodes, or a push to one track. */
  ghost predicate Sends(s: State, t: nat, o: Obj, queues: seq<nat>, s': State) {
    && AtRest(s, t) && InHand(s.places[t], o)
    && s' == s.(places := s.places[t := s.places[t].(call := Some(Call(o, Fanout(queues))))])
  }

  /** Handing over and broadcasting consume one owned reference. */
  ghost predicate Gives(s: State, t: nat, o: Obj, script: seq<Act>, s': State) {
    && AtRest(s, t) && o in s.places[t].own
    && s' == s.(places := s.places[t := s.places[t].(own := s.places[t].own - multiset{o}, call := Some(Call(o, script)))])
  }

  /** The place of a thread whose call has done its first act. */
  function Advanced(p: Place): Place
    requires p.Thread? && p.call.Some?
  {
    var c := p.call.value;
    p.(call := if c.script == [] then None else Some(c.(script := c.script[1..])))
  }

  /** The call's next act.  A delivery is accepted into a queue with room or refused and released: the
      receiver is not running, the queue is full, or the context is cancelled. */
  ghost predicate Advances(s: State, t: nat, accepted: bool, s': State) {
    && IsThread(s, t) && s.places[t].call.Some? && s.places[t].victim == None
    && var c := s.places[t].call.value;
       var places := s.places[t := Advanced(s.places[t])];
       if c.script == [] then s' == s.(places := places)
       else c.obj in s.cells && match c.script[0]
         case Retain => s' == State(places, Retained(s.cells, c.obj))
         case Release => s' == State(places, Released(s.cells, c.obj))
         case Deliver(q) =>
           (!accepted && s' == State(places, Released(s.cells, c.obj))) ||
           (accepted && IsQueue(s, q) && |s.places[q].items| < s.places[q].capacity
             && s' == s.(places := places[q := s.places[q].(items := s.places[q].items + [c.obj])]))
  }

  /** Drop-oldest takes the head out of the queue it is about to deliver to, and then releases it. */
  ghost predicate Evicts(s: State, t: nat, s': State) {
    && IsThread(s, t) && s.places[t].victim == None && s.places[t].call.Some?
    && s.places[t].call.value.script != [] && s.places[t].call.value.script[0].Deliver?
    && var q := s.places[t].call.value.script[0].queue;
       && IsQueue(s, q) && s.places[q].items != []
       && s' == s.(places := s.places[q := s.places[q].(items := s.places[q].items[1..])]
                                     [t := s.places[t].(victim := Some(s.places[q].items[0]))])
  }

  ghost predicate DropsVictim(s: State, t: nat, s': State) {
    && IsThread(s, t) && s.places[t].victim.Some? && s.places[t].victim.value in s.cells
    && s' == State(s.places[t := s.places[t].(victim := None)], Released(s.cells, s.places[t].victim.value))
  }

  /** A loop receives an entry: to run a handler on it, to discard it, or to drain it. */
  ghost predicate Takes(s: State, t: nat, q: nat, s': State) {
    && AtRest(s, t) && s.places[t].event == None && IsQueue(s, q) && s.places[q].items != []
    && s' == s.(places := s.places[q := s.places[q].(items := s.places[q].items[1..])]
                                  [t := s.places[t].(event := Some(s.places[q].items[0]))])
  }

  /** The handler returned or panicked, or there was none to run: the deferred release. */
  ghost predicate Finishes(s: State, t: nat, s': State) {
    && AtRest(s, t) && s.places[t].event.Some? && s.places[t].event.value in s.cells
    && s' == State(s.places[t := s.places[t].(event := None)], Released(s.cells, s.places[t].event.value))
  }

  ghost predicate Next(s: State, step: Step, s': State) {
    match step
    case Create(t, o) => Creates(s, t, o, s')
    case Keep(t, o) => Keeps(s, t, o, s')
    case LetGo(t, o) => LetsGo(s, t, o, s')
    case Send(t, o, queues) => Sends(s, t, o, queues, s')
    case HandOver(t, o, q) => Gives(s, t, o, [Deliver(q)], s')
    case BroadcastTo(t, o, queues) => Gives(s, t, o, Broadcast(queues), s')
    case Advance(t, accepted) => Advances(s, t, accepted, s')
    case Evict(t) => Evicts(s, t, s')
    case DropVictim(t) => DropsVictim(s, t, s')
    case Take(t, q) => Takes(s, t, q, s')
    case Finish(t) => Finishes(s, t, s')
  }

  ghost predicate Init(s: State) {
    && s.cells == map[]
    && forall i :: 0 <= i < |s.places| ==> Vacant(s.places[i])
  }

  /** Nothing is held here. */
  predicate Vacant(p: Place) {
    match p
    case Queue(items, _) => items == []
    case Thread(own, event, victim, call) => own == multiset{} && event == None && victim == None && call == None
  }

  ghost predicate Run(ss: seq<State>, steps: seq<Step>) {
    && |ss| == |steps| + 1 && Init(ss[0])
    && forall i :: 0 <= i < |steps| ==> Next(ss[i], steps[i], ss[i + 1])
  }

  // ---------------------------------------------------------------------------------------------
  // Sums
  // ---------------------------------------------------------------------------------------------

  lemma {:induction false} Replace(places: seq<Place>, i: nat, p: Place, o: Obj)
    requires i < |places|
    ensures Holders(places[i := p], o) == Holders(places, o) - Refs(places[i], o) + Refs(p, o)
  {
    hide Refs;
    if i == 0 {
      assert places[0 := p][1..] == places[1..];
    } else {
      Replace(places[1..], i - 1, p, o);
      assert places[i := p][1..] == places[1..][i - 1 := p];
    }
  }

  lemma {:induction false} Part(places: seq<Place>, i: nat, o: Obj)
    requires i < |places| && forall k :: 0 <= k < |places| ==> Refs(places[k], o) >= 0
    ensures Refs(places[i], o) <= Holders(places, o)
  {
    hide Refs;
    NonNegative(places[1..], o);
    if i > 0 {
      Part(places[1..], i - 1, o);
    }
  }

  lemma {:induction false} NonNegative(places: seq<Place>, o: Obj)
    requires forall k :: 0 <= k < |places| ==> Refs(places[k], o) >= 0
    ensures Holders(places, o) >= 0
    ensures Holders(places, o) == 0 <==> forall k :: 0 <= k < |places| ==> Refs(places[k], o) == 0
  {
    hide Refs;
    if places != [] {
      NonNegative(places[1..], o);
      assert forall k :: 0 < k < |places| ==> places[k] == places[1..][k - 1];
      if Holders(places, o) == 0 {
        forall k | 0 <= k < |places| ensures Refs(places[k], o) == 0 {
          if k > 0 { assert Refs(places[1..][k - 1], o) == 0; }
        }
      }
    }
  }

  // ---------------------------------------------------------------------------------------------
  // Scripts never run short
  // ---------------------------------------------------------------------------------------------

  /** Every act of the script finds the reference it needs, with `spare` left over until the end. */
  ghost predicate Funded(script: seq<Act>, spare: nat) {
    Balance(script) >= 0 && (script != [] ==> Balance(script) >= spare && Funded(script[1..], spare))
  }

  lemma {:induction false} DeliveriesFunded(queues: seq<nat>)
    ensures Balance(Deliveries(queues)) == |queues|
    ensures Funded(Deliveries(queues), 0)
  {
    if queues != [] {
      DeliveriesFunded(queues[1..]);
      assert Deliveries(queues)[1..] == Deliveries(queues[1..]);
    }
  }

  lemma {:induction false} FanoutFunded(queues: seq<nat>, n: nat)
    requires n <= |queues|
    ensures var script := seq(n, _ => Retain) + Deliveries(queues);
      Balance(script) == |queues| - n && Funded(script, 0)
  {
    var script := seq(n, _ => Retain) + Deliveries(queues);
    if n == 0 {
      DeliveriesFunded(queues);
      assert script == Deliveries(queues);
    } else {
      FanoutFunded(queues, n - 1);
      assert script[1..] == seq(n - 1, _ => Retain) + Deliveries(queues);
    }
  }

  lemma {:induction false} BroadcastFunded(queues: seq<nat>)
    ensures Balance(Broadcast(queues)) == 1 && Funded(Broadcast(queues), 1)
  {
    if queues == [] {
      assert Broadcast(queues)[1..] == [];
    } else {
      BroadcastFunded(queues[1..]);
      var script := Broadcast(queues);
      assert script[1..] == [Deliver(queues[0])] + Broadcast(queues[1..]);
      assert script[1..][1..] == Broadcast(queues[1..]);
    }
  }

  /** The queues a script delivers to, in order. */
  function Reached(script: seq<Act>): seq<nat> {
    if script == [] then []
    else (if script[0].Deliver? then [script[0].queue] else []) + Reached(script[1..])
  }

  lemma {:induction false} ReachedAppend(a: seq<Act>, b: seq<Act>)
    ensures Reached(a + b) == Reached(a) + Reached(b)
  {
    if a == [] {
      assert a + b == b;
    } else {
      ReachedAppend(a[1..], b);
      ReachedCons(a + b, a[1..] + b);
      ReachedCons(a, a[1..]);
      hide Reached;
    }
  }

  lemma ReachedCons(script: seq<Act>, rest: seq<Act>)
    requires script != [] && script[1..] == rest
    ensures Reached(script) == (if script[0].Deliver? then [script[0].queue] else []) + Reached(rest)
  {
  }

  /** A fan-out and a broadcast deliver once to each of their receivers. */
  lemma {:induction false} EachReached(queues: seq<nat>)
    ensures Reached(Fanout(queues)) == queues && Reached(Broadcast(queues)) == queues
  {
    ReachedAppend(seq(|queues|, _ => Retain), Deliveries(queues));
    NoneReached(|queues|);
    DeliveriesReach(queues);
    if queues != [] {
      EachReached(queues[1..]);
      var script := Broadcast(queues);
      assert script[1..][1..] == Broadcast(queues[1..]);
      assert script[1..][0] == Deliver(queues[0]);
      assert queues == [queues[0]] + queues[1..];
    } else {
      assert [Release][1..] == [];
    }
  }

  lemma {:induction false} NoneReached(n: nat)
    ensures Reached(seq(n, _ => Retain)) == []
  {
    if n > 0 {
      NoneReached(n - 1);
      assert seq(n, _ => Retain)[1..] == seq(n - 1, _ => Retain);
    }
  }

  lemma {:induction false} DeliveriesReach(queues: seq<nat>)
    ensures Reached(Deliveries(queues)) == queues
  {
    if queues != [] {
      DeliveriesReach(queues[1..]);
      assert Deliveries(queues)[1..] == Deliveries(queues[1..]);
    }
  }

  // ---------------------------------------------------------------------------------------------
  // The invariant
  // ---------------------------------------------------------------------------------------------

  /** A running call is covered by a reference the caller keeps, or by one of its own. */
  ghost predicate Covered(p: Place) {
    p.Thread? && p.call.Some? ==>
      Funded(p.call.value.script, if InHand(p, p.call.value.obj) then 0 else 1)
  }

  ghost predicate AllCovered(places: seq<Place>) {
    forall i :: 0 <= i < |places| ==> Covered(places[i])
  }

  ghost predicate Counts(s: State, o: Obj) {
    if o in s.cells then
      s.cells[o].count == Holders(s.places, o) && s.cells[o].recycled == if Holders(s.places, o) == 0 then 1 else 0
    else Holders(s.places, o) == 0
  }

  ghost predicate Inv(s: State) {
    AllCovered(s.places) && forall o :: Counts(s, o)
  }

  lemma RefsNonNegative(places: seq<Place>, o: Obj)
    requires AllCovered(places)
    ensures forall k :: 0 <= k < |places| ==> Refs(places[k], o) >= 0
  {
    forall k | 0 <= k < |places| ensures Refs(places[k], o) >= 0 {
      assert Covered(places[k]);
    }
  }

  /** Whoever holds an object finds it counted and not recycled. */
  lemma HeldIsLive(s: State, i: nat, o: Obj)
    requires Inv(s) && i < |s.places| && Refs(s.places[i], o) >= 1
    ensures o in s.cells && s.cells[o].count >= 1 && s.cells[o].recycled == 0
    ensures Holders(s.places, o) >= Refs(s.places[i], o)
  {
    RefsNonNegative(s.places, o);
    Part(s.places, i, o);
    assert Counts(s, o);
  }

  /** Replacing one place by another that is covered keeps the cover. */
  lemma StillCovered(places: seq<Place>, i: nat, p: Place)
    requires AllCovered(places) && i < |places| && Covered(p)
    ensures AllCovered(places[i := p])
  {
  }

  /** The three ways a step moves references: none, one more, one less. */
  lemma OneMore(s: State, s': State, i: nat, p: Place, o: Obj)
    requires Inv(s) && i < |s.places| && Covered(p) && o in s.cells && s.cells[o].count >= 1
    requires s' == State(s.places[i := p], Retained(s.cells, o))
    requires forall x :: Refs(p, x) == Refs(s.places[i], x) + (if x == o then 1 else 0)
    ensures Inv(s')
  {
    hide Refs, Covered;
    StillCovered(s.places, i, p);
    forall x ensures Counts(s', x) {
      assert Counts(s, x);
      Replace(s.places, i, p, x);
    }
  }

  lemma OneLess(s: State, s': State, i: nat, p: Place, o: Obj)
    requires Inv(s) && i < |s.places| && Covered(p) && o in s.cells
    requires Refs(s.places[i], o) >= 1
    requires s' == State(s.places[i := p], Released(s.cells, o))
    requires forall x :: Refs(p, x) == Refs(s.places[i], x) - (if x == o then 1 else 0)
    ensures Inv(s')
  {
    HeldIsLive(s, i, o);
    hide Refs, Covered;
    StillCovered(s.places, i, p);
    forall x ensures Counts(s', x) {
      assert Counts(s, x);
      Replace(s.places, i, p, x);
    }
  }

  lemma Same(s: State, s': State, i: nat, p: Place)
    requires Inv(s) && i < |s.places| && Covered(p)
    requires s' == s.(places := s.places[i := p])
    requires forall x :: Refs(p, x) == Refs(s.places[i], x)
    ensures Inv(s')
  {
    hide Refs, Covered;
    StillCovered(s.places, i, p);
    forall x ensures Counts(s', x) {
      assert Counts(s, x);
      Replace(s.places, i, p, x);
    }
  }

  /** One reference passes from place i to place j. */
  lemma Passed(s: State, s': State, i: nat, p: Place, j: nat, q: Place, o: Obj)
    requires Inv(s) && i < |s.places| && j < |s.places| && i != j && Covered(p) && Covered(q)
    requires s' == s.(places := s.places[i := p][j := q])
    requires forall x :: Refs(p, x) == Refs(s.places[i], x) - (if x == o then 1 else 0)
    requires forall x :: Refs(q, x) == Refs(s.places[j], x) + (if x == o then 1 else 0)
    ensures Inv(s')
  {
    hide Refs, Covered;
    StillCovered(s.places, i, p);
    StillCovered(s.places[i := p], j, q);
    forall x ensures Counts(s', x) {
      assert Counts(s, x);
      Replace(s.places, i, p, x);
      Replace(s.places[i := p], j, q, x);
    }
  }

  // ---------------------------------------------------------------------------------------------
  // Every step keeps it
  // ---------------------------------------------------------------------------------------------

  lemma CreateInv(s: State, t: nat, o: Obj, s': State)
    requires Inv(s) && Creates(s, t, o, s')
    ensures Inv(s')
  {
    var p := s.places[t].(own := s.places[t].own + multiset{o});
    assert Covered(p);
    assert forall x :: Refs(p, x) == Refs(s.places[t], x) + (if x == o then 1 else 0);
    hide Refs, Covered;
    StillCovered(s.places, t, p);
    forall x ensures Counts(s', x) {
      assert Counts(s, x);
      Replace(s.places, t, p, x);
    }
  }

  lemma InHandHeld(p: Place, o: Obj)
    requires p.Thread? && p.call == None && InHand(p, o)
    ensures Refs(p, o) >= 1
  {
  }

  lemma KeepInv(s: State, t: nat, o: Obj, s': State)
    requires Inv(s) && Keeps(s, t, o, s')
    ensures Inv(s')
  {
    var p := s.places[t].(own := s.places[t].own + multiset{o});
    InHandHeld(s.places[t], o);
    HeldIsLive(s, t, o);
    OneMore(s, s', t, p, o);
  }

  lemma LetGoInv(s: State, t: nat, o: Obj, s': State)
    requires Inv(s) && LetsGo(s, t, o, s')
    ensures Inv(s')
  {
    var p := s.places[t].(own := s.places[t].own - multiset{o});
    OneLess(s, s', t, p, o);
  }

  lemma SendInv(s: State, t: nat, o: Obj, queues: seq<nat>, s': State)
    requires Inv(s) && Sends(s, t, o, queues, s')
    ensures Inv(s')
  {
    FanoutFunded(queues, |queues|);
    var p := s.places[t].(call := Some(Call(o, Fanout(queues))));
    assert InHand(p, o) && Covered(p);
    Same(s, s', t, p);
  }

  lemma GiveInv(s: State, t: nat, o: Obj, script: seq<Act>, s': State)
    requires Inv(s) && Gives(s, t, o, script, s')
    requires Balance(script) == 1 && Funded(script, 1)
    ensures Inv(s')
  {
    var p := s.places[t].(own := s.places[t].own - multiset{o}, call := Some(Call(o, script)));
    LessSpare(script);
    assert Covered(p);
    Same(s, s', t, p);
  }

  lemma {:induction false} LessSpare(script: seq<Act>)
    requires Funded(script, 1)
    ensures Funded(script, 0)
  {
    if script != [] {
      LessSpare(script[1..]);
    }
  }

  /** What one act does to the references of the call that performs it. */
  lemma ActRefs(p: Place)
    requires p.Thread? && p.call.Some? && Covered(p)
    ensures Covered(Advanced(p))
    ensures p.call.value.script == [] ==> forall x :: Refs(Advanced(p), x) == Refs(p, x)
    ensures p.call.value.script != [] ==> forall x ::
      Refs(Advanced(p), x) == Refs(p, x) - (if x == p.call.value.obj then Owed(p.call.value.script[0]) else 0)
    ensures p.call.value.script != [] ==> Refs(p, p.call.value.obj) >= 1
  {
  }

  lemma AdvanceInv(s: State, t: nat, accepted: bool, s': State)
    requires Inv(s) && Advances(s, t, accepted, s')
    ensures Inv(s')
  {
    var p := s.places[t];
    var c, p' := p.call.value, Advanced(p);
    ActRefs(p);
    hide Refs, Covered, Advanced, Counts;
    if c.script == [] {
      Same(s, s', t, p');
    } else {
      HeldIsLive(s, t, c.obj);
      match c.script[0]
      case Retain => OneMore(s, s', t, p', c.obj);
      case Release => OneLess(s, s', t, p', c.obj);
      case Deliver(q) =>
        if accepted {
          var to := s.places[q].(items := s.places[q].items + [c.obj]);
          Enqueue(s.places[q], c.obj);
          Passed(s, s', t, p', q, to, c.obj);
        } else {
          OneLess(s, s', t, p', c.obj);
        }
    }
  }

  lemma Enqueue(p: Place, o: Obj)
    requires p.Queue?
    ensures var to := p.(items := p.items + [o]);
      Covered(to) && forall x :: Refs(to, x) == Refs(p, x) + (if x == o then 1 else 0)
  {
  }

  lemma Dequeue(p: Place)
    requires p.Queue? && p.items != []
    ensures var rest := p.(items := p.items[1..]);
      Covered(rest) && forall x :: Refs(rest, x) == Refs(p, x) - (if x == p.items[0] then 1 else 0)
  {
    assert p.items == [p.items[0]] + p.items[1..];
  }

  lemma EvictInv(s: State, t: nat, s': State)
    requires Inv(s) && Evicts(s, t, s')
    ensures Inv(s')
  {
    var q := s.places[t].call.value.script[0].queue;
    var from, o := s.places[q], s.places[q].items[0];
    Dequeue(from);
    var p := s.places[t].(victim := Some(o));
    assert Covered(s.places[t]) && Covered(p);
    Passed(s, s', q, from.(items := from.items[1..]), t, p, o);
  }

  lemma DropVictimInv(s: State, t: nat, s': State)
    requires Inv(s) && DropsVictim(s, t, s')
    ensures Inv(s')
  {
    var p := s.places[t].(victim := None);
    assert Covered(s.places[t]) && Covered(p);
    OneLess(s, s', t, p, s.places[t].victim.value);
  }

  lemma TakeInv(s: State, t: nat, q: nat, s': State)
    requires Inv(s) && Takes(s, t, q, s')
    ensures Inv(s')
  {
    var from, o := s.places[q], s.places[q].items[0];
    Dequeue(from);
    var p := s.places[t].(event := Some(o));
    Passed(s, s', q, from.(items := from.items[1..]), t, p, o);
  }

  lemma FinishInv(s: State, t: nat, s': State)
    requires Inv(s) && Finishes(s, t, s')
    ensures Inv(s')
  {
    OneLess(s, s', t, s.places[t].(event := None), s.places[t].event.value);
  }

  lemma StepInv(s: State, step: Step, s': State)
    requires Inv(s) && Next(s, step, s')
    ensures Inv(s')
  {
    hide Inv, Creates, Keeps, LetsGo, Sends, Gives, Advances, Evicts, DropsVictim, Takes, Finishes;
    match step
    case Create(t, o) => CreateInv(s, t, o, s');
    case Keep(t, o) => KeepInv(s, t, o, s');
    case LetGo(t, o) => LetGoInv(s, t, o, s');
    case Send(t, o, queues) => SendInv(s, t, o, queues, s');
    case HandOver(t, o, q) =>
      assert [Deliver(q)][1..] == [];
      GiveInv(s, t, o, [Deliver(q)], s');
    case BroadcastTo(t, o, queues) =>
      BroadcastFunded(queues);
      GiveInv(s, t, o, Broadcast(queues), s');
    case Advance(t, accepted) => AdvanceInv(s, t, accepted, s');
    case Evict(t) => EvictInv(s, t, s');
    case DropVictim(t) => DropVictimInv(s, t, s');
    case Take(t, q) => TakeInv(s, t, q, s');
    case Finish(t) => FinishInv(s, t, s');
  }

  lemma InitInv(s: State)
    requires Init(s)
    ensures Inv(s)
  {
    forall i, o: Obj | 0 <= i < |s.places| ensures Refs(s.places[i], o) == 0 {
      assert Vacant(s.places[i]);
    }
    forall o: Obj ensures Counts(s, o) {
      NonNegative(s.places, o);
    }
    forall i | 0 <= i < |s.places| ensures Covered(s.places[i]) {
      assert Vacant(s.places[i]);
    }
  }

  // ---------------------------------------------------------------------------------------------
  // Main results
  // ---------------------------------------------------------------------------------------------

  lemma {:induction false} EveryRun(ss: seq<State>, steps: seq<Step>, n: nat)
    requires Run(ss, steps) && n < |ss|
    ensures Inv(ss[n])
  {
    hide Next, Inv, Init;
    if n == 0 {
      InitInv(ss[0]);
    } else {
      EveryRun(ss, steps, n - 1);
      StepInv(ss[n - 1], steps[n - 1], ss[n]);
    }
  }

  ghost predicate Unheld(places: seq<Place>, o: Obj) {
    forall k :: 0 <= k < |places| ==> Refs(places[k], o) == 0
  }

  /** In every reachable state of every run the count of an object is the number of its holders; it
      has been recycled at most once, and exactly once precisely when nobody holds it. */
  lemma CountIsHolders(ss: seq<State>, steps: seq<Step>, n: nat, o: Obj)
    requires Run(ss, steps) && n < |ss| && o in ss[n].cells
    ensures ss[n].cells[o].count == Holders(ss[n].places, o)
    ensures ss[n].cells[o].recycled <= 1
    ensures ss[n].cells[o].recycled == 1 <==> Unheld(ss[n].places, o)
  {
    EveryRun(ss, steps, n);
    assert Counts(ss[n], o);
    hide Refs;
    RefsNonNegative(ss[n].places, o);
    NonNegative(ss[n].places, o);
  }

  /** What sits in a queue, runs in a handler, or is owned by plugin code is never a recycled object. */
  lemma NeverWhileHeld(ss: seq<State>, steps: seq<Step>, n: nat, i: nat, o: Obj)
    requires Run(ss, steps) && n < |ss| && i < |ss[n].places|
    requires match ss[n].places[i]
      case Queue(items, _) => o in items
      case Thread(own, event, victim, call) =>
        o in own || event == Some(o) || victim == Some(o) || (call.Some? && call.value.script != [] && call.value.obj == o)
    ensures o in ss[n].cells && ss[n].cells[o].recycled == 0 && ss[n].cells[o].count >= 1
  {
    EveryRun(ss, steps, n);
    var p := ss[n].places[i];
    assert Covered(p);
    if p.Queue? {
      assert multiset(p.items)[o] >= 1;
    }
    HeldIsLive(ss[n], i, o);
  }

  /** No step changes the count of an object that is back in the pool, and a recycled object stays
      recycled exactly once. */
  lemma {:induction false} RecycledIsFinal(ss: seq<State>, steps: seq<Step>, m: nat, n: nat, o: Obj)
    requires Run(ss, steps) && m <= n < |ss| && o in ss[m].cells && ss[m].cells[o].recycled >= 1
    ensures o in ss[n].cells && ss[n].cells[o] == Cell(0, 1)
  {
    if m == n {
      EveryRun(ss, steps, n);
      assert Counts(ss[n], o);
    } else {
      RecycledIsFinal(ss, steps, m, n - 1, o);
      EveryRun(ss, steps, n - 1);
      UnheldStays(ss[n - 1], steps[n - 1], ss[n], o);
    }
  }

  lemma UnheldStays(s: State, step: Step, s': State, o: Obj)
    requires Inv(s) && Next(s, step, s') && o in s.cells && s.cells[o] == Cell(0, 1)
    ensures o in s'.cells && s'.cells[o] == Cell(0, 1)
  {
    if o !in s'.cells || s'.cells[o] != s.cells[o] {
      var t := step.t;
      assert Refs(s.places[t], o) >= 1 by {
        assert Covered(s.places[t]);
      }
      HeldIsLive(s, t, o);
      assert false;
    }
  }

  /** When every queue has been emptied and every thread has given back what it held, every object
      ever created is back in the pool, exactly once. */
  lemma QuietMeansRecycled(ss: seq<State>, steps: seq<Step>, n: nat)
    requires Run(ss, steps) && n < |ss|
    requires forall i :: 0 <= i < |ss[n].places| ==> Vacant(ss[n].places[i])
    ensures forall o :: o in ss[n].cells ==> ss[n].cells[o] == Cell(0, 1)
  {
    EveryRun(ss, steps, n);
    var s := ss[n];
    forall o | o in s.cells ensures s.cells[o] == Cell(0, 1) {
      forall i | 0 <= i < |s.places| ensures Refs(s.places[i], o) == 0 {
        assert Vacant(s.places[i]);
      }
      NonNegative(s.places, o);
      assert Counts(s, o);
    }
  }
}
