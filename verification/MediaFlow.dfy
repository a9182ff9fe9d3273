/** Sending a media object to nodes, as one thread runs it to the end: the loops that retain, deliver
    and release, on objects that are updated in place. */
module MediaFlow {
  import opened RefCount

  const AUDIO_RECYCLE_CAP: nat := 65536
  const ENTRIES_RECYCLE_CAP: nat := 256

  /** A pooled audio object.  Of its buffer and its property list only length and capacity matter here. */
  class Audio {
    var count: int
    var bytes: nat
    var bytesCap: nat
    var entries: nat
    var entriesCap: nat
    var readOnly: bool
    var name: string
    var sampleRate: int
    var channels: int
    var duration: int
    /** How often it went back to the pool. */
    ghost var recycled: nat

    ghost function Counter(): Cell
      reads this
    {
      Cell(count, recycled)
    }

    ghost predicate Blank()
      reads this
    {
      && count == 0 && bytes == 0 && entries == 0 && !readOnly
      && name == "" && sampleRate == 0 && channels == 0 && duration == 0
      && bytesCap <= AUDIO_RECYCLE_CAP && entriesCap < ENTRIES_RECYCLE_CAP
    }

    method Retain()
      modifies this`count
      ensures count == old(count) + 1
    {
      count := count + 1;
    }

    /** The last reference recycles the object, and then it is blank. */
    method Release()
      modifies this
      ensures Counter() == Lowered(old(Counter()))
      ensures recycled != old(recycled) ==> Blank()
      ensures recycled == old(recycled) ==>
        && unchanged(`bytes) && unchanged(`entries) && unchanged(`readOnly)
        && unchanged(`name) && unchanged(`sampleRate) && unchanged(`channels) && unchanged(`duration)
    {
      count := count - 1;
      if count > 0 {
        return;
      }
      Recycle();
    }

    /** Large buffers are let go, small ones kept for the next use. */
    method Recycle()
      modifies this
      ensures Blank() && recycled == old(recycled) + 1
      ensures old(bytesCap) <= AUDIO_RECYCLE_CAP ==> bytesCap == old(bytesCap)
      ensures old(entriesCap) < ENTRIES_RECYCLE_CAP ==> entriesCap == old(entriesCap)
    {
      readOnly := false;
      if entriesCap >= ENTRIES_RECYCLE_CAP {
        entriesCap := 0;
      }
      entries := 0;
      name := "";
      if bytesCap > AUDIO_RECYCLE_CAP {
        bytesCap := 0;
      }
      bytes := 0;
      sampleRate, channels, duration := 0, 0, 0;
      count := 0;
      recycled := recycled + 1;
    }
  }

  class MediaNode {
    const capacity: nat
    var running: bool
    var queue: seq<Audio>

    /** A live context, a running node and room in the queue: the object is queued. */
    predicate Accepts(live: bool)
      reads this
    {
      live && running && |queue| < capacity
    }

    /** Consumes one reference of the object: into the queue, or released. */
    method Input(live: bool, audio: Audio)
      modifies this`queue, audio
      ensures queue == if old(Accepts(live)) then old(queue) + [audio] else old(queue)
      ensures audio.Counter() == if old(Accepts(live)) then old(audio.Counter()) else Lowered(old(audio.Counter()))
    {
      if !live || !running {
        audio.Release();
        return;
      }
      if |queue| >= capacity {
        audio.Release();
      } else {
        queue := queue + [audio];
      }
    }
  }

  /** How many of the nodes accept. */
  function Accepting(nodes: seq<MediaNode>, live: bool): nat
    reads nodes
  {
    if nodes == [] then 0
    else Accepting(nodes[..|nodes| - 1], live) + if nodes[|nodes| - 1].Accepts(live) then 1 else 0
  }

  ghost predicate Separate(nodes: seq<MediaNode>) {
    forall i, j :: 0 <= i < j < |nodes| ==> nodes[i] != nodes[j]
  }

  /** The queues of the first n nodes after a delivery to each. */
  twostate predicate Delivered(nodes: seq<MediaNode>, n: nat, live: bool, audio: Audio)
    requires n <= |nodes|
    reads nodes
  {
    forall i :: 0 <= i < |nodes| ==>
      nodes[i].queue == old(nodes[i].queue) + if i < n && old(nodes[i].Accepts(live)) then [audio] else []
  }

  /** Fan-out: every downstream that accepts gets one reference, every other reference is released, and
      the caller's own is untouched; the object is not recycled on the way. */
  method SendAudio(running: bool, live: bool, nodes: seq<MediaNode>, audio: Audio)
    requires Separate(nodes) && audio.count >= 1
    modifies nodes, audio
    ensures audio.recycled == old(audio.recycled)
    ensures audio.count == old(audio.count) + if running && live then old(Accepting(nodes, live)) else 0
    ensures running && live ==> Delivered(nodes, |nodes|, live, audio)
    ensures !(running && live) ==> Delivered(nodes, 0, live, audio)
    ensures forall i :: 0 <= i < |nodes| ==> nodes[i].running == old(nodes[i].running)
  {
    var n := |nodes|;
    if n == 0 || !live || !running {
      return;
    }
    for i := 0 to n
      invariant audio.count == old(audio.count) + i && audio.recycled == old(audio.recycled)
      invariant forall j :: 0 <= j < n ==> unchanged(nodes[j])
    {
      audio.Retain();
    }
    assert nodes[..0] == [];
    for i := 0 to n
      invariant audio.recycled == old(audio.recycled)
      invariant audio.count == old(audio.count) + n - i + old(Accepting(nodes[..i], live))
      invariant Delivered(nodes, i, live, audio)
      invariant forall j :: 0 <= j < n ==> nodes[j].running == old(nodes[j].running)
    {
      assert nodes[..i + 1][..i] == nodes[..i];
      nodes[i].Input(live, audio);
    }
    assert nodes[..n] == nodes;
  }

  /** Broadcast: every node that accepts gets one reference and the caller's is consumed, so the object
      is recycled exactly when it had no other reference and nobody accepts. */
  method Broadcast(running: bool, live: bool, nodes: seq<MediaNode>, audio: Audio) returns (ok: bool)
    requires Separate(nodes) && audio.count >= 1
    modifies nodes, audio
    ensures ok == running
    ensures !ok ==> Delivered(nodes, 0, live, audio) && audio.Counter() == old(audio.Counter())
    ensures ok ==> Delivered(nodes, |nodes|, live, audio)
    ensures ok ==> audio.count == old(audio.count) - 1 + old(Accepting(nodes, live))
    ensures ok ==> audio.recycled == old(audio.recycled) + if audio.count == 0 then 1 else 0
  {
    if !running {
      return false;
    }
    assert nodes[..0] == [];
    for i := 0 to |nodes|
      invariant audio.recycled == old(audio.recycled)
      invariant audio.count == old(audio.count) + old(Accepting(nodes[..i], live))
      invariant Delivered(nodes, i, live, audio)
      invariant forall j :: 0 <= j < |nodes| ==> nodes[j].running == old(nodes[j].running)
    {
      assert nodes[..i + 1][..i] == nodes[..i];
      audio.Retain();
      nodes[i].Input(live, audio);
    }
    assert nodes[..|nodes|] == nodes;
    audio.Release();
    return true;
  }
}
