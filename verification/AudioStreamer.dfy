/** The speech streamer: raw synthesised audio goes in in pieces of any size, fixed-size audio events
    come out between a start and an end signal. */
module AudioStreaming {
  import opened Cutting

  datatype Event = SpeechStart | Audio(bytes: seq<Byte>) | SpeechEnd

  /** One call of write. */
  datatype Chunk = Chunk(data: seq<Byte>, isLast: bool)

  // ---------------------------------------------------------------------------------------------
  // Reference: concatenate, then cut
  // ---------------------------------------------------------------------------------------------

  function Audios(blocks: seq<seq<Byte>>): seq<Event> {
    seq(|blocks|, i requires 0 <= i < |blocks| => Audio(blocks[i]))
  }

  function Opening(started: bool): seq<Event> {
    if started then [] else [SpeechStart]
  }

  /** What closes an utterance: one last short block if bytes are left over, and the end signal. */
  function Closing(rest: seq<Byte>): seq<Event> {
    (if rest == [] then [] else [Audio(rest)]) + [SpeechEnd]
  }

  /** An utterance, cut from all of its bytes at once. */
  function Utterance(n: nat, bytes: seq<Byte>): seq<Event>
    requires n > 0
  {
    [SpeechStart] + Audios(Blocks(n, bytes)) + Closing(Tail(n, bytes))
  }

  /** The events of one call, with `carry` bytes already waiting. */
  function WriteEvents(n: nat, started: bool, carry: seq<Byte>, w: Chunk): seq<Event>
    requires n > 0
  {
    Opening(started) + Audios(Blocks(n, carry + w.data)) + if w.isLast then Closing(Tail(n, carry + w.data)) else []
  }

  function WriteCarry(n: nat, carry: seq<Byte>, w: Chunk): seq<Byte>
    requires n > 0
  {
    if w.isLast then [] else Tail(n, carry + w.data)
  }

  /** The events of a sequence of calls. */
  function AllEvents(n: nat, started: bool, carry: seq<Byte>, ws: seq<Chunk>): seq<Event>
    requires n > 0
    decreases |ws|
  {
    if ws == [] then []
    else WriteEvents(n, started, carry, ws[0]) + AllEvents(n, !ws[0].isLast, WriteCarry(n, carry, ws[0]), ws[1..])
  }

  // ---------------------------------------------------------------------------------------------
  // The shape of a trace
  // ---------------------------------------------------------------------------------------------

  /** Start, audio..., End, again and again; `open` when an utterance has begun and not ended. */
  predicate Shaped(events: seq<Event>, open: bool) {
    if events == [] then !open
    else
      var init, last := events[..|events| - 1], events[|events| - 1];
      match last
      case SpeechStart => open && Shaped(init, false)
      case Audio(_) => open && Shaped(init, true)
      case SpeechEnd => !open && Shaped(init, true)
  }

  lemma ShapedMore(events: seq<Event>, e: Event, open: bool)
    requires Shaped(events, !e.SpeechStart?)
    requires open == !e.SpeechEnd?
    ensures Shaped(events + [e], open)
  {
    assert (events + [e])[..|events|] == events;
  }

  /** The bytes an event list carries. */
  function Carried(events: seq<Event>): seq<Byte> {
    if events == [] then []
    else (if events[0].Audio? then events[0].bytes else []) + Carried(events[1..])
  }

  lemma {:induction false} CarriedAppend(a: seq<Event>, b: seq<Event>)
    ensures Carried(a + b) == Carried(a) + Carried(b)
  {
    if a == [] {
      assert a + b == b;
    } else {
      CarriedAppend(a[1..], b);
      assert (a + b)[1..] == a[1..] + b;
    }
  }

  lemma {:induction false} AudiosCarry(blocks: seq<seq<Byte>>)
    ensures Carried(Audios(blocks)) == Flat(blocks)
  {
    if blocks != [] {
      AudiosCarry(blocks[1..]);
      assert Audios(blocks)[1..] == Audios(blocks[1..]);
    }
  }

  /** An utterance carries every byte written to it, in order. */
  lemma UtteranceConserves(n: nat, bytes: seq<Byte>)
    requires n > 0
    ensures Carried(Utterance(n, bytes)) == bytes
  {
    var cut, rest := Blocks(n, bytes), Tail(n, bytes);
    CarriedAppend([SpeechStart] + Audios(cut), Closing(rest));
    CarriedAppend([SpeechStart], Audios(cut));
    assert [SpeechStart][1..] == [];
    AudiosCarry(cut);
    BlocksConserve(n, bytes);
    if rest == [] {
      assert Closing(rest) == [SpeechEnd] && [SpeechEnd][1..] == [];
    } else {
      assert Closing(rest) == [Audio(rest), SpeechEnd];
      assert Closing(rest)[1..] == [SpeechEnd] && [SpeechEnd][1..] == [];
    }
  }

  /** An utterance is a start, audio events, an end.  All audio events but the last are of the full size;
      the last is not empty and not larger. */
  lemma UtteranceSizes(n: nat, bytes: seq<Byte>)
    requires n > 0
    ensures var u := Utterance(n, bytes);
      && |u| >= 2 && u[0] == SpeechStart && u[|u| - 1] == SpeechEnd
      && (forall i :: 0 < i < |u| - 1 ==> u[i].Audio? && 0 < |u[i].bytes| <= n)
      && (forall i :: 0 < i < |u| - 2 ==> |u[i].bytes| == n)
  {
    var u, cut, rest := Utterance(n, bytes), Audios(Blocks(n, bytes)), Tail(n, bytes);
    assert u == [SpeechStart] + cut + Closing(rest);
    hide Utterance;
    forall i | 0 < i <= |cut| ensures u[i].Audio? && |u[i].bytes| == n {
      assert u[i] == cut[i - 1] == Audio(Blocks(n, bytes)[i - 1]);
    }
    if rest != [] {
      assert u[|cut| + 1] == Audio(rest) && u[|cut| + 2] == SpeechEnd && |u| == |cut| + 3;
    } else {
      assert u[|cut| + 1] == SpeechEnd && |u| == |cut| + 2;
    }
  }

  lemma AudiosAppend(a: seq<seq<Byte>>, b: seq<seq<Byte>>)
    ensures Audios(a + b) == Audios(a) + Audios(b)
  {
  }

  /** All the bytes of some calls. */
  function Bytes(ws: seq<Chunk>): seq<Byte> {
    if ws == [] then [] else ws[0].data + Bytes(ws[1..])
  }

  /** However an utterance is split over calls, its events are those of cutting it at once. */
  lemma {:induction false} SplitDoesNotMatter(n: nat, started: bool, carry: seq<Byte>, ws: seq<Chunk>)
    requires n > 0 && ws != []
    requires forall i :: 0 <= i < |ws| ==> (ws[i].isLast <==> i == |ws| - 1)
    ensures AllEvents(n, started, carry, ws) ==
      Opening(started) + Audios(Blocks(n, carry + Bytes(ws))) + Closing(Tail(n, carry + Bytes(ws)))
    decreases |ws|
  {
    hide Blocks, Tail, Audios, Closing;
    var w, rest := ws[0], ws[1..];
    if |ws| == 1 {
      assert rest == [] && Bytes(ws) == w.data;
      assert AllEvents(n, false, WriteCarry(n, carry, w), rest) == [];
    } else {
      var next := carry + w.data;
      SplitDoesNotMatter(n, true, Tail(n, next), rest);
      var tail := Tail(n, next) + Bytes(rest);
      assert next + Bytes(rest) == carry + Bytes(ws);
      CutInTwo(n, next, Bytes(rest));
      AudiosAppend(Blocks(n, next), Blocks(n, tail));
      calc {
        AllEvents(n, started, carry, ws);
        (Opening(started) + Audios(Blocks(n, next)) + []) + AllEvents(n, true, Tail(n, next), rest);
        (Opening(started) + Audios(Blocks(n, next)) + []) + ([] + Audios(Blocks(n, tail)) + Closing(Tail(n, tail)));
        Opening(started) + (Audios(Blocks(n, next)) + Audios(Blocks(n, tail))) + Closing(Tail(n, tail));
      }
    }
  }

  /** From a closed streamer: the calls of one utterance produce exactly the utterance. */
  lemma WholeUtterance(n: nat, ws: seq<Chunk>)
    requires n > 0 && ws != []
    requires forall i :: 0 <= i < |ws| ==> (ws[i].isLast <==> i == |ws| - 1)
    ensures AllEvents(n, false, [], ws) == Utterance(n, Bytes(ws))
    ensures Carried(AllEvents(n, false, [], ws)) == Bytes(ws)
  {
    SplitDoesNotMatter(n, false, [], ws);
    assert [] + Bytes(ws) == Bytes(ws);
    UtteranceConserves(n, Bytes(ws));
  }

  // ---------------------------------------------------------------------------------------------
  // The streamer
  // ---------------------------------------------------------------------------------------------

  /** A context that is cancelled once and for all after some number of looks at it. */
  class Context {
    var looks: nat

    constructor (looks: nat)
      ensures this.looks == looks
    {
      this.looks := looks;
    }

    method Live() returns (live: bool)
      modifies this
      ensures live == (old(looks) > 0)
      ensures looks == if live then old(looks) - 1 else 0
    {
      live := looks > 0;
      if live { looks := looks - 1; }
    }
  }

  class AudioStreamer {
    const bufferSize: nat
    const buffer: array<Byte>
    var offset: nat
    var started: bool
    /** The events sent since the last reset. */
    var sent: seq<Event>

    ghost predicate Valid()
      reads this, buffer
    {
      bufferSize > 0 && buffer.Length == bufferSize && offset < bufferSize && Shaped(sent, started)
    }

    ghost function Carry(): seq<Byte>
      requires Valid()
      reads this, buffer
    {
      buffer[..offset]
    }

    constructor (bufferSize: nat)
      requires bufferSize > 0
      ensures Valid() && fresh(buffer) && this.bufferSize == bufferSize
      ensures Carry() == [] && !started && sent == []
    {
      this.bufferSize := bufferSize;
      buffer := new Byte[bufferSize](_ => 0);
      offset, started, sent := 0, false, [];
    }

    method Reset()
      requires Valid()
      modifies this
      ensures Valid() && Carry() == [] && !started && sent == []
    {
      started, offset, sent := false, 0, [];
    }

    /** Send one event. */
    method Emit(e: Event)
      requires Shaped(sent, !e.SpeechStart?)
      modifies this`sent
      ensures sent == old(sent) + [e] && Shaped(sent, !e.SpeechEnd?)
    {
      ShapedMore(sent, e, !e.SpeechEnd?);
      sent := sent + [e];
    }

    /** Copy as much of data[from..] as the buffer has room for. */
    method Fill(data: seq<Byte>, from: nat) returns (read: nat)
      requires Valid() && from <= |data|
      modifies this`offset, buffer
      ensures read == if |data| - from < bufferSize - old(offset) then |data| - from else bufferSize - old(offset)
      ensures offset == old(offset) + read
      ensures buffer[..offset] == old(buffer[..offset]) + data[from..from + read]
    {
      read := if |data| - from < bufferSize - offset then |data| - from else bufferSize - offset;
      forall i | 0 <= i < read {
        buffer[offset + i] := data[from + i];
      }
      offset := offset + read;
      assert buffer[..offset] == old(buffer[..offset]) + data[from..from + read];
    }

    /** Top up the buffer, and send it when it is full. */
    method BufferPiece(data: seq<Byte>, from: nat, ghost was: seq<Byte>, ghost base: seq<Event>) returns (read: nat)
      requires Valid() && from < |data| && started && Carry() == Tail(bufferSize, was)
      requires sent == base + Audios(Blocks(bufferSize, was))
      modifies this`offset, this`sent, buffer
      ensures Valid() && 0 < read && from + read <= |data|
      ensures Carry() == Tail(bufferSize, was + data[from..from + read])
      ensures sent == base + Audios(Blocks(bufferSize, was + data[from..from + read]))
    {
      hide Blocks, Tail, Shaped;
      read := Fill(data, from);
      ghost var piece := data[from..from + read];
      SendPiece(bufferSize, was, piece);
      if offset == bufferSize {
        assert buffer[..offset] == buffer[..];
        Emit(Audio(buffer[..]));
        offset := 0;
      }
    }

    /** A piece as long as the buffer, with nothing waiting, goes out as it is. */
    method SendThrough(block: seq<Byte>, ghost was: seq<Byte>, ghost base: seq<Event>)
      requires Valid() && started && |block| == bufferSize && offset == 0 && Carry() == Tail(bufferSize, was)
      requires sent == base + Audios(Blocks(bufferSize, was))
      modifies this`sent
      ensures Valid()
      ensures Carry() == Tail(bufferSize, was + block)
      ensures sent == base + Audios(Blocks(bufferSize, was + block))
    {
      hide Blocks, Tail, Shaped;
      SendPiece(bufferSize, was, block);
      assert Tail(bufferSize, was) + block == block;
      Emit(Audio(block));
    }

    /** The copying loop.  It has taken `taken` bytes when it stops: all of them unless cancelled. */
    method Cut(ctx: Context, data: seq<Byte>) returns (taken: nat)
      requires Valid() && (ctx.looks > 0 ==> started)
      modifies this`offset, this`sent, buffer, ctx
      ensures Valid() && taken <= |data|
      ensures sent == old(sent) + Audios(Blocks(bufferSize, old(Carry()) + data[..taken]))
      ensures Carry() == Tail(bufferSize, old(Carry()) + data[..taken])
      ensures ctx.looks > 0 ==> taken == |data|
      ensures ctx.looks <= old(ctx.looks)
    {
      ghost var before := old(Carry());
      taken := 0;
      assert before + data[..0] == before && Audios([]) == [];
      hide Blocks, Tail, Shaped, Audios;
      CarryIsTail(bufferSize, before);
      var live := ctx.Live();
      while live && |data| > taken
        invariant Valid() && taken <= |data| && (live ==> started)
        invariant sent == old(sent) + Audios(Blocks(bufferSize, before + data[..taken]))
        invariant Carry() == Tail(bufferSize, before + data[..taken])
        invariant !live ==> ctx.looks == 0
        invariant ctx.looks <= old(ctx.looks)
        decreases |data| - taken
      {
        ghost var was := before + data[..taken];
        assert |data| - taken < bufferSize || taken + bufferSize <= |data|;
        var read: nat;
        if |data| - taken < bufferSize || offset != 0 {
          read := BufferPiece(data, taken, was, old(sent));
        } else {
          read := bufferSize;
          SendThrough(data[taken..taken + read], was, old(sent));
        }
        assert was + data[taken..taken + read] == before + data[..taken + read];
        taken := taken + read;
        live := ctx.Live();
      }
    }

    /** One call of write.  It stops taking bytes when the context is cancelled; the utterance is
        closed when this is the last piece and the context is still live at the end. */
    method Write(ctx: Context, data: seq<Byte>, isLast: bool) returns (ghost taken: nat, ghost closed: bool)
      requires Valid()
      modifies this, buffer, ctx
      ensures Valid() && taken <= |data|
      ensures closed ==> taken == |data| && isLast
      ensures sent == old(sent) + (if started || closed then Opening(old(started)) else [])
        + Audios(Blocks(bufferSize, old(Carry()) + data[..taken]))
        + (if closed then Closing(Tail(bufferSize, old(Carry()) + data)) else [])
      ensures Carry() == if closed then [] else Tail(bufferSize, old(Carry()) + data[..taken])
      ensures started == (!closed && (old(started) || old(ctx.looks) > 0))
      ensures ctx.looks > 0 ==> (
        && sent == old(sent) + WriteEvents(bufferSize, old(started), old(Carry()), Chunk(data, isLast))
        && Carry() == WriteCarry(bufferSize, old(Carry()), Chunk(data, isLast))
        && started == !isLast)
    {
      hide Blocks, Tail, Shaped, Audios, Closing, Opening;
      closed := false;
      Open(ctx);
      ghost var begun := sent;
      assert Carry() == old(Carry());
      taken := Cut(ctx, data);
      assert taken == |data| ==> data[..taken] == data;
      if isLast {
        var live := ctx.Live();
        if live {
          Finish(begun, old(Carry()) + data);
          closed := true;
        }
      }
    }

    /** Announce the utterance unless that was done already. */
    method Open(ctx: Context)
      requires Valid()
      modifies this`started, this`sent, ctx
      ensures Valid()
      ensures started == (old(started) || old(ctx.looks) > 0)
      ensures sent == old(sent) + if started then Opening(old(started)) else []
      ensures ctx.looks <= old(ctx.looks) && (ctx.looks > 0 ==> started)
    {
      if !started {
        var live := ctx.Live();
        if live {
          Emit(SpeechStart);
          started := true;
        }
      }
    }

    /** Send what is left and the end signal. */
    method Finish(ghost base: seq<Event>, ghost bytes: seq<Byte>)
      requires Valid() && started && Carry() == Tail(bufferSize, bytes)
      requires sent == base + Audios(Blocks(bufferSize, bytes))
      modifies this
      ensures Valid() && offset == 0 && !started
      ensures sent == base + Audios(Blocks(bufferSize, bytes)) + Closing(Tail(bufferSize, bytes))
    {
      hide Blocks, Tail, Shaped;
      if offset > 0 {
        Emit(Audio(buffer[..offset]));
        offset := 0;
      }
      Emit(SpeechEnd);
      started := false;
    }
  }

  lemma CarryIsTail(n: nat, carry: seq<Byte>)
    requires n > 0 && |carry| < n
    ensures Blocks(n, carry) == [] && Tail(n, carry) == carry
  {
  }

  /** The event, if any, that one more piece completes. */
  lemma SendPiece(n: nat, was: seq<Byte>, piece: seq<Byte>)
    requires n > 0 && |Tail(n, was)| + |piece| <= n
    ensures var joined := Tail(n, was) + piece;
      && Audios(Blocks(n, was + piece)) == Audios(Blocks(n, was)) + (if |joined| == n then [Audio(joined)] else [])
      && Tail(n, was + piece) == if |joined| == n then [] else joined
  {
    CutPiece(n, was, piece);
    AudiosAppend(Blocks(n, was), [Tail(n, was) + piece]);
  }
}
