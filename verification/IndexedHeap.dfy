/** The binary heap that both connection pools allocate from: the up, down, Push, Fix and Remove
    steps of Go's `container/heap`, over a queue whose Swap keeps every item's `index` field
    pointing at its own slot.

    `items` is the linear view of the heap, one record per id.  Every operation is specified on that
    view alone, so its callers never see the layout of the queue. */
module IndexedHeap {

  /** The fields Less reads, and whatever else a pool keeps in its record. */
  datatype Item<+B> = Item(id: nat, priority: nat, load: nat, body: B)

  /** Lexicographic in (priority, load, id). */
  predicate Less<B>(a: Item<B>, b: Item<B>) {
    || a.priority < b.priority
    || (a.priority == b.priority && a.load < b.load)
    || (a.priority == b.priority && a.load == b.load && a.id < b.id)
  }

  function Parent(c: nat): nat {
    if c == 0 then 0 else (c - 1) / 2
  }

  /** The heap condition on the edge from slot c to its parent. */
  ghost predicate Edge<B>(q: seq<Item<B>>, c: nat)
    requires c < |q|
  {
    !Less(q[c], q[Parent(c)])
  }

  /** The first n slots form a heap. */
  ghost predicate Ordered<B>(q: seq<Item<B>>, n: nat)
    requires n <= |q|
  {
    forall c :: 0 < c < n ==> Edge(q, c)
  }

  /** The first n slots form a heap but for the edges at slot i, and skipping i the order still holds. */
  ghost predicate OrderedAround<B>(q: seq<Item<B>>, n: nat, i: nat)
    requires n <= |q| && i < n
  {
    && (forall c :: 0 < c < n && c != i && Parent(c) != i ==> Edge(q, c))
    && (forall c :: 0 < c < n && Parent(c) == i && 0 < i ==> !Less(q[c], q[Parent(i)]))
  }

  ghost predicate ChildrenFine<B>(q: seq<Item<B>>, n: nat, i: nat)
    requires n <= |q| && i < n
  {
    forall c :: 0 < c < n && Parent(c) == i ==> Edge(q, c)
  }

  /** What a linear scan finds: the smallest priority, among those the smallest load, and among those
      the smallest id. */
  ghost predicate IsLeast<B>(items: map<nat, Item<B>>, id: nat) {
    id in items && forall other :: other in items && other != id ==>
      && items[id].priority <= items[other].priority
      && (items[id].priority == items[other].priority ==> items[id].load <= items[other].load)
      && (items[id].priority == items[other].priority && items[id].load == items[other].load ==> items[id].id < items[other].id)
  }

  lemma {:induction false} RootIsLeast<B>(q: seq<Item<B>>, n: nat, i: nat)
    requires n <= |q| && i < n && Ordered(q, n)
    ensures q[0].priority <= q[i].priority
    ensures q[0].priority == q[i].priority ==> q[0].load <= q[i].load
    ensures q[0].priority == q[i].priority && q[0].load == q[i].load ==> q[0].id <= q[i].id
    decreases i
  {
    if i > 0 {
      assert Edge(q, i);
      RootIsLeast(q, n, Parent(i));
    }
  }

  function Swapped<B>(q: seq<Item<B>>, i: nat, j: nat): seq<Item<B>>
    requires i < |q| && j < |q|
  {
    q[i := q[j]][j := q[i]]
  }

  /** One step of up: the disorder moves from slot j to its parent. */
  lemma UpStep<B>(q: seq<Item<B>>, n: nat, j: nat)
    requires 0 < j < n <= |q| && OrderedAround(q, n, j) && ChildrenFine(q, n, j)
    requires Less(q[j], q[Parent(j)])
    ensures var s := Swapped(q, Parent(j), j);
            OrderedAround(s, n, Parent(j)) && ChildrenFine(s, n, Parent(j))
  {
    var i := Parent(j);
    var s := Swapped(q, i, j);
    forall c | 0 < c < n && c != i ensures Edge(s, c) {
      if c != j { assert Edge(q, c); }
    }
    forall c | 0 < c < n && Parent(c) == i && 0 < i ensures !Less(s[c], s[Parent(i)]) {
      assert Edge(q, i);
      if c != j { assert Edge(q, c); }
    }
  }

  /** One step of down: the disorder moves from slot i to its smaller child j. */
  lemma DownStep<B>(q: seq<Item<B>>, n: nat, i: nat, j: nat)
    requires i < n <= |q| && 0 < j < n && Parent(j) == i && OrderedAround(q, n, i)
    requires forall c :: 0 < c < n && Parent(c) == i ==> !Less(q[c], q[j])
    requires Less(q[j], q[i])
    ensures var s := Swapped(q, i, j); OrderedAround(s, n, j) && Edge(s, j)
  {
    var s := Swapped(q, i, j);
    forall c | 0 < c < n && c != j && Parent(c) != j ensures Edge(s, c) {
      if c != i && Parent(c) != i { assert Edge(q, c); }
    }
    forall c | 0 < c < n && Parent(c) == j ensures !Less(s[c], s[Parent(j)]) {
      assert Edge(q, c);
    }
  }

  /** Once the children of slot i are in order, only its own edge can be wrong. */
  lemma AllEdges<B>(q: seq<Item<B>>, n: nat, i: nat)
    requires i < n <= |q| && OrderedAround(q, n, i) && ChildrenFine(q, n, i)
    requires i == 0 || Edge(q, i)
    ensures Ordered(q, n)
  {
    forall c | 0 < c < n ensures Edge(q, c) {
      if c != i && Parent(c) != i { assert Edge(q, c); }
    }
  }

  /** Overwriting one slot of a heap can only disturb the edges at that slot. */
  lemma OverwriteSlot<B>(q: seq<Item<B>>, n: nat, i: nat, item: Item<B>)
    requires i < n <= |q| && Ordered(q, n)
    ensures OrderedAround(q[i := item], n, i)
  {
    var s := q[i := item];
    forall c | 0 < c < n && c != i && Parent(c) != i ensures Edge(s, c) {
      assert Edge(q, c);
    }
    forall c | 0 < c < n && Parent(c) == i && 0 < i ensures !Less(s[c], s[Parent(i)]) {
      assert Edge(q, c) && Edge(q, i);
    }
  }

  /** The child that down compares slot i with: no child of i comes before it. */
  function SmallerChild<B>(q: seq<Item<B>>, n: nat, i: nat): (j: nat)
    requires 2 * i + 1 < n <= |q|
    ensures 0 < j < n && Parent(j) == i
    ensures forall c :: 0 < c < n && Parent(c) == i ==> !Less(q[c], q[j])
  {
    var j := 2 * i + 1;
    assert forall c: nat :: 0 < c && Parent(c) == i ==> c == j || c == j + 1;
    if j + 1 < n && Less(q[j + 1], q[j]) then j + 1 else j
  }

  /** Where down stops, the children of slot i are in order. */
  lemma DownStops<B>(q: seq<Item<B>>, n: nat, i: nat)
    requires i < n <= |q|
    requires 2 * i + 1 < n ==> !Less(q[SmallerChild(q, n, i)], q[i])
    ensures ChildrenFine(q, n, i)
  {
  }

  lemma AppendSlot<B>(q: seq<Item<B>>, item: Item<B>)
    requires Ordered(q, |q|)
    ensures OrderedAround(q + [item], |q| + 1, |q|) && ChildrenFine(q + [item], |q| + 1, |q|)
  {
    forall c | 0 < c < |q| ensures Edge(q + [item], c) {
      assert Edge(q, c);
    }
  }

  lemma TakePrefix<B>(q: seq<Item<B>>, n: nat)
    requires n <= |q| && Ordered(q, n)
    ensures Ordered(q[..n], n)
  {
    forall c | 0 < c < n ensures Edge(q[..n], c) {
      assert Edge(q, c);
    }
  }

  lemma OrderedAroundExt<B>(q: seq<Item<B>>, s: seq<Item<B>>, n: nat, i: nat)
    requires i < n <= |q| == |s| && OrderedAround(q, n, i)
    requires forall c :: 0 <= c < n ==> q[c] == s[c]
    ensures OrderedAround(s, n, i)
  {
    forall c | 0 < c < n && c != i && Parent(c) != i ensures Edge(s, c) {
      assert Edge(q, c);
    }
  }

  lemma SameRanks<B>(q: seq<Item<B>>, s: seq<Item<B>>, n: nat)
    requires n <= |q| == |s| && Ordered(q, n)
    requires forall c :: 0 <= c < n ==> q[c].(body := s[c].body) == s[c]
    ensures Ordered(s, n)
  {
    forall c | 0 < c < n ensures Edge(s, c) {
      assert Edge(q, c);
      assert q[c].(body := s[c].body) == s[c] && q[Parent(c)].(body := s[Parent(c)].body) == s[Parent(c)];
    }
  }

  class Heap<B> {
    var queue: seq<Item<B>>
    var index: map<nat, int>
    ghost var items: map<nat, Item<B>>

    /** Queue, back pointers and linear view agree; a popped item is left with index -1. */
    ghost predicate Tracked()
      reads this
    {
      && (forall i :: 0 <= i < |queue| ==> queue[i].id in items && items[queue[i].id] == queue[i])
      && (forall i :: 0 <= i < |queue| ==> queue[i].id in index && index[queue[i].id] == i)
      && (forall id :: id in items ==> id in index && 0 <= index[id] < |queue| && queue[index[id]].id == id)
      && (forall id :: id in index && id !in items ==> index[id] == -1)
    }

    ghost predicate Valid()
      reads this
    {
      Tracked() && Ordered(queue, |queue|)
    }

    constructor ()
      ensures Valid() && items == map[]
    {
      queue, index, items := [], map[], map[];
    }

    /** The record of an item, found through its back pointer. */
    function Get(id: nat): (item: Item<B>)
      requires Valid() && id in items
      reads this
      ensures item == items[id]
    {
      queue[index[id]]
    }

    /** The root, when there is one, is the unique least item of the linear view. */
    lemma Root()
      requires Valid()
      ensures queue == [] <==> items == map[]
      ensures queue != [] ==> IsLeast(items, queue[0].id) && items[queue[0].id] == queue[0]
    {
      if queue != [] {
        assert queue[0].id in items;
        forall other | other in items && other != queue[0].id
          ensures queue[0].priority <= items[other].priority
          ensures queue[0].priority == items[other].priority ==> queue[0].load <= items[other].load
          ensures queue[0].priority == items[other].priority && queue[0].load == items[other].load ==> queue[0].id < items[other].id
        {
          RootIsLeast(queue, |queue|, index[other]);
        }
      } else {
        assert forall id :: id !in items;
      }
    }

    lemma QueueKeys()
      requires Valid()
      ensures (set i | 0 <= i < |queue| :: queue[i].id) == items.Keys
    {
      forall id | id in items ensures id in set i | 0 <= i < |queue| :: queue[i].id {
        assert queue[index[id]].id == id;
      }
    }

    method Swap(i: nat, j: nat)
      requires Tracked() && i < |queue| && j < |queue|
      modifies this`queue, this`index
      ensures Tracked()
      ensures queue == Swapped(old(queue), i, j)
    {
      queue := queue[i := queue[j]][j := queue[i]];
      index := index[queue[i].id := i];
      index := index[queue[j].id := j];
    }

    method Up(start: nat, ghost n: nat)
      requires Tracked() && start < n <= |queue|
      requires OrderedAround(queue, n, start) && ChildrenFine(queue, n, start)
      modifies this`queue, this`index
      ensures Tracked() && |queue| == old(|queue|)
      ensures queue[n..] == old(queue[n..])
      ensures Ordered(queue, n)
    {
      var j: nat := start;
      while true
        invariant j < n <= |queue| == old(|queue|) && Tracked()
        invariant queue[n..] == old(queue[n..])
        invariant OrderedAround(queue, n, j) && ChildrenFine(queue, n, j)
        decreases j
      {
        var i := Parent(j);
        if i == j || !Less(queue[j], queue[i]) {
          break;
        }
        UpStep(queue, n, j);
        Swap(i, j);
        j := i;
      }
      AllEdges(queue, n, j);
    }

    method Down(start: nat, n: nat) returns (moved: bool)
      requires Tracked() && start < n <= |queue| && OrderedAround(queue, n, start)
      modifies this`queue, this`index
      ensures Tracked() && |queue| == old(|queue|)
      ensures queue[n..] == old(queue[n..])
      ensures moved ==> Ordered(queue, n)
      ensures !moved ==> queue == old(queue) && ChildrenFine(queue, n, start)
    {
      hide Tracked, Ordered, OrderedAround, Edge, ChildrenFine, Less;
      var i: nat := start;
      while true
        invariant start <= i < n <= |queue| == old(|queue|) && Tracked()
        invariant queue[n..] == old(queue[n..])
        invariant OrderedAround(queue, n, i)
        invariant i == start ==> queue == old(queue)
        invariant i > start ==> Edge(queue, i)
        decreases n - i
      {
        if 2 * i + 1 >= n {
          break;
        }
        var j := SmallerChild(queue, n, i);
        if !Less(queue[j], queue[i]) {
          break;
        }
        DownStep(queue, n, i, j);
        Swap(i, j);
        i := j;
      }
      DownStops(queue, n, i);
      moved := i > start;
      if moved {
        AllEdges(queue, n, i);
      }
    }

    method Push(item: Item<B>)
      requires Valid() && item.id !in items
      modifies this
      ensures Valid() && items == old(items)[item.id := item]
    {
      index := index[item.id := |queue|];
      AppendSlot(queue, item);
      queue := queue + [item];
      items := items[item.id := item];
      Up(|queue| - 1, |queue|);
    }

    /** Writes fields that Less does not read. */
    method Put(item: Item<B>)
      requires Valid() && item.id in items
      requires item.priority == items[item.id].priority && item.load == items[item.id].load
      modifies this`queue, this`items
      ensures Valid() && items == old(items)[item.id := item]
    {
      var i := index[item.id];
      SameRanks(queue, queue[i := item], |queue|);
      queue := queue[i := item];
      items := items[item.id := item];
    }

    /** Overwrites the fields of an item in its slot and restores the order around that slot. */
    method Fix(item: Item<B>)
      requires Valid() && item.id in items
      modifies this
      ensures Valid() && items == old(items)[item.id := item]
    {
      var i := index[item.id];
      OverwriteSlot(queue, |queue|, i, item);
      queue := queue[i := item];
      items := items[item.id := item];
      var moved := Down(i, |queue|);
      if !moved {
        Up(i, |queue|);
      }
    }

    /** Drops the queue and every record with it. */
    method Clear()
      modifies this
      ensures Valid() && items == map[]
    {
      queue, index, items := [], map[], map[];
    }

    method Pop()
      requires Tracked() && queue != [] && Ordered(queue, |queue| - 1)
      modifies this
      ensures Valid() && items == old(items) - {old(queue[|queue| - 1].id)}
    {
      var last := |queue| - 1;
      TakePrefix(queue, last);
      index := index[queue[last].id := -1];
      items := items - {queue[last].id};
      queue := queue[..last];
    }

    method Remove(id: nat)
      requires Valid() && id in items
      modifies this
      ensures Valid() && items == old(items) - {id}
    {
      var i, n: nat := index[id], |queue| - 1;
      if n != i {
        OverwriteSlot(queue, n, i, queue[n]);
        OrderedAroundExt(queue[i := queue[n]], Swapped(queue, i, n), n, i);
        Swap(i, n);
        var moved := Down(i, n);
        if !moved {
          Up(i, n);
        }
        assert queue[n] == queue[n..][0];
      }
      Pop();
    }
  }
}
