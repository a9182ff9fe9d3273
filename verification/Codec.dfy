/** The wire format: a packet is an eight-byte header and a payload; between gateway and machine it
    travels behind the sixteen-byte key of its session. */
module Codec {
  import opened Cutting
  import opened Options

  const HEADER_SIZE: nat := 8
  const MAGIC_1: Byte := 0x56
  const MAGIC_2: Byte := 0x43
  const KEY_SIZE: nat := 16
  const RECYCLE_CAP: nat := 65536
  const SIZES: nat := 0x1_0000_0000

  datatype Error = InvalidHeader | MagicMismatch | PayloadMismatch

  /** What a packet means to its receiver. */
  datatype Message = Message(kind: Byte, encode: Byte, payload: seq<Byte>)

  datatype Result = Ok(message: Message) | Err(error: Error)

  // ---------------------------------------------------------------------------------------------
  // Big-endian sizes
  // ---------------------------------------------------------------------------------------------

  /** Most significant byte first. */
  function SizeBytes(n: nat): (b: seq<Byte>)
    requires n < SIZES
    ensures |b| == 4 && b[0] == n / 16777216 && b[1] == n / 65536 % 256 && b[2] == n / 256 % 256 && b[3] == n % 256
  {
    [n / 0x100_0000, n / 0x1_0000 % 256, n / 256 % 256, n % 256]
  }

  function SizeOf(b: seq<Byte>): (n: nat)
    requires |b| == 4
    ensures n < SIZES && n / 16777216 == b[0] && n % 256 == b[3]
  {
    var b0: int, b1: int, b2: int, b3: int := b[0], b[1], b[2], b[3];
    b0 * 0x100_0000 + b1 * 0x1_0000 + b2 * 256 + b3
  }

  lemma SizeRoundTrip(n: nat)
    requires n < SIZES
    ensures SizeOf(SizeBytes(n)) == n
  {
    assert n / 256 == n / 0x1_0000 * 256 + n / 256 % 256;
    assert n / 0x1_0000 == n / 0x100_0000 * 256 + n / 0x1_0000 % 256;
  }

  lemma BytesRoundTrip(b: seq<Byte>)
    requires |b| == 4
    ensures SizeBytes(SizeOf(b)) == b
  {
    var n := SizeOf(b);
    var b0: int, b1: int, b2: int, b3: int := b[0], b[1], b[2], b[3];
    Low8(n, b0 * 0x1_0000 + b1 * 256 + b2, b3);
    Low16(n, b0 * 256 + b1, b2 * 256 + b3);
    Low24(n, b0, b1 * 0x1_0000 + b2 * 256 + b3);
    Low8(n / 256, b0 * 256 + b1, b2);
    Low8(n / 0x1_0000, b0, b1);
  }

  lemma Low8(n: nat, high: nat, low: nat)
    requires n == high * 256 + low && low < 256
    ensures n / 256 == high && n % 256 == low
  {
  }

  lemma Low16(n: nat, high: nat, low: nat)
    requires n == high * 0x1_0000 + low && low < 0x1_0000
    ensures n / 0x1_0000 == high
  {
  }

  lemma Low24(n: nat, high: nat, low: nat)
    requires n == high * 0x100_0000 + low && low < 0x100_0000
    ensures n / 0x100_0000 == high
  {
  }

  // ---------------------------------------------------------------------------------------------
  // The format
  // ---------------------------------------------------------------------------------------------

  function HeaderBytes(kind: Byte, encode: Byte, size: nat): (b: seq<Byte>)
    requires size < SIZES
    ensures |b| == 8 && b[0] == 0x56 && b[1] == 0x43 && b[2] == kind && b[3] == encode
    ensures b[4] == size / 16777216 && b[5] == size / 65536 % 256 && b[6] == size / 256 % 256 && b[7] == size % 256
  {
    [MAGIC_1, MAGIC_2, kind, encode] + SizeBytes(size)
  }

  /** A message on the wire: its size field holds the payload's length, cut to 32 bits. */
  function Encoded(m: Message): seq<Byte> {
    HeaderBytes(m.kind, m.encode, |m.payload| % SIZES) + m.payload
  }

  function Decoded(content: seq<Byte>): Result {
    if |content| < HEADER_SIZE then Err(InvalidHeader)
    else if content[0] != MAGIC_1 || content[1] != MAGIC_2 then Err(MagicMismatch)
    else if SizeOf(content[4..8]) != |content| - HEADER_SIZE then Err(PayloadMismatch)
    else Ok(Message(content[2], content[3], content[HEADER_SIZE..]))
  }

  /** Which contents are refused, and why: the checks come in this order, on fixed bytes. */
  lemma Refusals(content: seq<Byte>)
    ensures Decoded(content) == Err(InvalidHeader) <==> |content| < 8
    ensures Decoded(content) == Err(MagicMismatch) <==> |content| >= 8 && (content[0] != 0x56 || content[1] != 0x43)
    ensures Decoded(content) == Err(PayloadMismatch) <==>
      && |content| >= 8 && content[0] == 0x56 && content[1] == 0x43
      && SizeOf(content[4..8]) != |content| - 8
    ensures Decoded(content).Ok? ==> Decoded(content).message == Message(content[2], content[3], content[8..])
  {
  }

  /** Decoding undoes encoding exactly for payloads under 2^32 bytes; a longer one is refused. */
  lemma DecodeEncoded(m: Message)
    ensures |m.payload| < SIZES ==> Decoded(Encoded(m)) == Ok(m)
    ensures |m.payload| >= SIZES ==> Decoded(Encoded(m)) == Err(PayloadMismatch)
  {
    var size := |m.payload| % SIZES;
    SizeRoundTrip(size);
    var c := Encoded(m);
    assert c[4..8] == SizeBytes(size) && c[HEADER_SIZE..] == m.payload;
  }

  /** What decodes is the encoding of what it decodes to. */
  lemma EncodeDecoded(content: seq<Byte>)
    requires Decoded(content).Ok?
    ensures Encoded(Decoded(content).message) == content
    ensures |Decoded(content).message.payload| < SIZES
  {
    BytesRoundTrip(content[4..8]);
    var m := Decoded(content).message;
    assert content == content[..4] + content[4..8] + content[8..];
    assert content[..4] == [MAGIC_1, MAGIC_2, m.kind, m.encode];
  }

  // ---------------------------------------------------------------------------------------------
  // The packet
  // ---------------------------------------------------------------------------------------------

  /** A packet out of a pool.  The payload is the first `used` bytes of a buffer that is kept from one
      use to the next and holds anything beyond them. */
  class Packet {
    var kind: Byte
    var encode: Byte
    var size: nat
    var buffer: array<Byte>
    var used: nat
    const header: array<Byte>

    ghost predicate Valid()
      reads this
    {
      size < SIZES && used <= buffer.Length && header.Length == HEADER_SIZE && buffer != header
    }

    ghost function Payload(): seq<Byte>
      requires Valid()
      reads this, buffer
    {
      buffer[..used]
    }

    constructor ()
      ensures Valid() && fresh(buffer) && fresh(header)
      ensures kind == 0 && encode == 0 && size == 0 && Payload() == []
    {
      kind, encode, size, used := 0, 0, 0, 0;
      buffer := new Byte[0];
      header := new Byte[HEADER_SIZE](_ => 0);
    }

    /** Back into the pool: a buffer over the cap is let go, any other is kept for the next use. */
    method Recycle()
      requires Valid()
      modifies this, header
      ensures Valid() && kind == 0 && encode == 0 && size == 0 && Payload() == []
      ensures header[..] == seq(HEADER_SIZE, _ => 0)
      ensures buffer == old(buffer) <==> old(buffer).Length <= RECYCLE_CAP
      ensures buffer != old(buffer) ==> fresh(buffer) && buffer.Length == 0
    {
      kind, encode, size, used := 0, 0, 0, 0;
      if buffer.Length > RECYCLE_CAP {
        buffer := new Byte[0];
      }
      for i := 0 to HEADER_SIZE
        modifies header
        invariant forall k :: 0 <= k < i ==> header[k] == 0
      {
        header[i] := 0;
      }
    }

    /** The payload becomes a copy of the data, whatever the buffer held. */
    method SetPayload(data: seq<Byte>)
      requires Valid()
      modifies this`buffer, this`used, this`size, buffer
      ensures Valid() && Payload() == data && size == |data| % SIZES
      ensures buffer == old(buffer) || fresh(buffer)
    {
      if |data| == 0 {
        used, size := 0, 0;
        return;
      }
      if buffer.Length < |data| {
        buffer := new Byte[|data|](_ => 0);
      }
      used := |data|;
      forall i | 0 <= i < |data| {
        buffer[i] := data[i];
      }
      size := |data| % SIZES;
      assert buffer[..used] == data;
    }

    method Header() returns (h: seq<Byte>)
      requires Valid()
      modifies header
      ensures Valid() && h == HeaderBytes(kind, encode, size)
    {
      var sizeBytes := SizeBytes(size);
      header[0], header[1], header[2], header[3] := MAGIC_1, MAGIC_2, kind, encode;
      forall i | 0 <= i < 4 {
        header[4 + i] := sizeBytes[i];
      }
      h := header[..];
      assert h[..4] == [MAGIC_1, MAGIC_2, kind, encode] && h[4..] == sizeBytes;
    }

    method Marshal() returns (content: seq<Byte>)
      requires Valid()
      modifies header
      ensures Valid() && content == HeaderBytes(kind, encode, size) + Payload()
      ensures size == used % SIZES ==> content == Encoded(Message(kind, encode, Payload()))
    {
      var h := Header();
      content := h + buffer[..used];
    }

    /** On success the packet is what the content decodes to; a failure leaves the payload alone. */
    method Unmarshal(content: seq<Byte>) returns (error: Option<Error>)
      requires Valid()
      modifies this, buffer
      ensures Valid()
      ensures error == match Decoded(content) case Ok(_) => None case Err(e) => Some(e)
      ensures error.None? ==> Decoded(content) == Ok(Message(kind, encode, Payload())) && size == used
      ensures error.Some? ==> Payload() == old(Payload())
      ensures buffer == old(buffer) || fresh(buffer)
    {
      error := UnmarshalHeader(content);
      if error.None? {
        SetPayload(content[HEADER_SIZE..]);
      }
    }

    /** Only the header: type, encoding and size are taken from it, the payload is not touched. */
    method UnmarshalHeader(content: seq<Byte>) returns (error: Option<Error>)
      requires Valid()
      modifies this`kind, this`encode, this`size
      ensures Valid()
      ensures error == match Decoded(content) case Ok(_) => None case Err(e) => Some(e)
      ensures error in {None, Some(PayloadMismatch)} ==>
        kind == content[2] && encode == content[3] && size == SizeOf(content[4..8])
      ensures error !in {None, Some(PayloadMismatch)} ==>
        kind == old(kind) && encode == old(encode) && size == old(size)
      ensures error.None? ==> size == |content| - HEADER_SIZE
    {
      if |content| < HEADER_SIZE {
        return Some(InvalidHeader);
      }
      if content[0] != MAGIC_1 || content[1] != MAGIC_2 {
        return Some(MagicMismatch);
      }
      kind, encode, size := content[2], content[3], SizeOf(content[4..8]);
      if size != |content| - HEADER_SIZE {
        return Some(PayloadMismatch);
      }
      return None;
    }
  }

  /** A packet sent through the wire into any other packet, whatever that one held, arrives as it was. */
  method Transfer(from: Packet, to: Packet) returns (error: Option<Error>)
    requires from.Valid() && to.Valid() && from.size == from.used % SIZES
    requires from != to && from.header != to.buffer && from.buffer != to.buffer
    modifies from.header, to, to.buffer
    ensures to.Valid() && (error.None? <==> from.used < SIZES)
    ensures error.None? ==> to.kind == from.kind && to.encode == from.encode && to.Payload() == old(from.Payload())
  {
    var content := from.Marshal();
    DecodeEncoded(Message(from.kind, from.encode, from.Payload()));
    error := to.Unmarshal(content);
  }

  // ---------------------------------------------------------------------------------------------
  // Session frames
  // ---------------------------------------------------------------------------------------------

  /** A gateway connection writes only while it is active; with no parts there is nothing to write.
      `written` is the socket's verdict on the frame it is given. */
  method Write(active: bool, written: bool, pooled: array<Byte>, key: seq<Byte>, parts: seq<seq<Byte>>)
    returns (ok: bool, frame: Option<seq<Byte>>)
    requires |key| == KEY_SIZE
    modifies pooled
    ensures ok <==> active && (parts == [] || written)
    ensures frame == if active && parts != [] then Some(key + Flat(parts)) else None
  {
    if !active {
      return false, None;
    }
    if |parts| == 0 {
      return true, None;
    }
    var out, required := Frame(pooled, key, parts);
    if !written {
      return false, Some(out[..required]);
    }
    return true, Some(out[..required]);
  }

  /** The gateway lays key and parts out one after the other in a pooled buffer. */
  method Frame(pooled: array<Byte>, key: seq<Byte>, parts: seq<seq<Byte>>) returns (out: array<Byte>, required: nat)
    requires |key| == KEY_SIZE
    modifies pooled
    ensures out == pooled || fresh(out)
    ensures required <= out.Length && out[..required] == key + Flat(parts)
  {
    required := KEY_SIZE;
    for i := 0 to |parts|
      invariant required == KEY_SIZE + |Flat(parts[..i])|
    {
      required := required + |parts[i]|;
      FlatNext(parts, i);
    }
    assert parts[..|parts|] == parts;
    out := pooled;
    if out.Length < required {
      out := new Byte[required](_ => 0);
    }
    var offset := Lay(out, 0, key);
    assert out[..offset] == key + Flat(parts[..0]);
    for i := 0 to |parts|
      invariant offset == KEY_SIZE + |Flat(parts[..i])| && offset <= required <= out.Length
      invariant out[..offset] == key + Flat(parts[..i])
    {
      FlatNext(parts, i);
      FlatFits(parts, i + 1);
      offset := Lay(out, offset, parts[i]);
    }
  }

  /** Copy a part to a place in the buffer, and give the place after it. */
  method Lay(out: array<Byte>, at: nat, part: seq<Byte>) returns (next: nat)
    requires at + |part| <= out.Length
    modifies out
    ensures next == at + |part| && out[..next] == old(out[..at]) + part
  {
    next := at + |part|;
    forall i | 0 <= i < |part| {
      out[at + i] := part[i];
    }
    assert out[..next] == old(out[..at]) + part;
  }

  lemma FlatNext(parts: seq<seq<Byte>>, i: nat)
    requires i < |parts|
    ensures Flat(parts[..i + 1]) == Flat(parts[..i]) + parts[i]
  {
    FlatAppend(parts[..i], [parts[i]]);
    FlatOne(parts[i]);
    assert parts[..i + 1] == parts[..i] + [parts[i]];
  }

  lemma FlatFits(parts: seq<seq<Byte>>, i: nat)
    requires i <= |parts|
    ensures |Flat(parts[..i])| <= |Flat(parts)|
  {
    FlatAppend(parts[..i], parts[i..]);
    assert parts == parts[..i] + parts[i..];
  }

  /** What the machine makes of a frame: nothing when it is too short or does not decode. */
  function Received(body: seq<Byte>): Option<(seq<Byte>, Message)> {
    if |body| < KEY_SIZE then None
    else match Decoded(body[KEY_SIZE..])
      case Ok(m) => Some((body[..KEY_SIZE], m))
      case Err(_) => None
  }

  /** What the gateway makes of a frame: the key, and the packet's bytes as they are. */
  function Dispatched(body: seq<Byte>): Option<(seq<Byte>, seq<Byte>)> {
    if |body| < KEY_SIZE then None else Some((body[..KEY_SIZE], body[KEY_SIZE..]))
  }

  /** A packet framed for a session arrives under the same key as the same message. */
  lemma FrameArrives(key: seq<Byte>, m: Message)
    requires |key| == KEY_SIZE && |m.payload| < SIZES
    ensures var body := key + Flat([HeaderBytes(m.kind, m.encode, |m.payload|), m.payload]);
      Received(body) == Some((key, m)) && Dispatched(body) == Some((key, Encoded(m)))
  {
    hide Flat, Encoded, Decoded, HeaderBytes, SizeBytes, SizeOf;
    FlatTwo(HeaderBytes(m.kind, m.encode, |m.payload|), m.payload);
    EncodedParts(m);
    DecodeEncoded(m);
    var body := key + Encoded(m);
    assert body[..KEY_SIZE] == key && body[KEY_SIZE..] == Encoded(m);
  }

  lemma EncodedParts(m: Message)
    requires |m.payload| < SIZES
    ensures Encoded(m) == HeaderBytes(m.kind, m.encode, |m.payload|) + m.payload
  {
  }

  /** What the machine accepts was framed from that key and that message, and from nothing else. */
  lemma ArrivedWasFramed(body: seq<Byte>)
    requires Received(body).Some?
    ensures var (key, m) := Received(body).value; |key| == KEY_SIZE && body == key + Encoded(m)
  {
    EncodeDecoded(body[KEY_SIZE..]);
    assert body == body[..KEY_SIZE] + body[KEY_SIZE..];
  }

  // ---------------------------------------------------------------------------------------------
  // The gateway's check on clients
  // ---------------------------------------------------------------------------------------------

  /** The check compares the size field with the length cut to 32 bits. */
  predicate ClientAccepted(data: seq<Byte>) {
    && |data| >= HEADER_SIZE && data[0] == MAGIC_1 && data[1] == MAGIC_2
    && SizeOf(data[4..8]) == (|data| - HEADER_SIZE) % SIZES
  }

  /** The check passes exactly the encodings, of messages of any length. */
  lemma ClientAcceptsEncodings(data: seq<Byte>)
    ensures ClientAccepted(data) <==> exists m :: data == Encoded(m)
  {
    if ClientAccepted(data) {
      AcceptedIsEncoding(data);
    }
    if m :| data == Encoded(m) {
      EncodingIsAccepted(m);
    }
  }

  lemma AcceptedIsEncoding(data: seq<Byte>)
    requires ClientAccepted(data)
    ensures data == Encoded(Message(data[2], data[3], data[HEADER_SIZE..]))
  {
    BytesRoundTrip(data[4..8]);
    assert data == data[..4] + data[4..8] + data[8..];
  }

  lemma EncodingIsAccepted(m: Message)
    ensures ClientAccepted(Encoded(m))
  {
    SizeRoundTrip(|m.payload| % SIZES);
    assert Encoded(m)[4..8] == SizeBytes(|m.payload| % SIZES);
  }

  /** The check accepts exactly what unmarshalling accepts, and beyond that exactly the encodings of
      payloads of 2^32 bytes or more, which unmarshalling refuses for their size. */
  lemma ClientCheck(data: seq<Byte>)
    ensures |data| < HEADER_SIZE + SIZES ==> (ClientAccepted(data) <==> Decoded(data).Ok?)
    ensures |data| >= HEADER_SIZE + SIZES ==> !Decoded(data).Ok?
    ensures ClientAccepted(data) && !Decoded(data).Ok? <==>
      |data| >= HEADER_SIZE + SIZES && exists m :: data == Encoded(m)
  {
    ClientAcceptsEncodings(data);
    SameBelow(data);
    hide Encoded, Decoded, ClientAccepted;
  }

  lemma SameBelow(data: seq<Byte>)
    ensures |data| < HEADER_SIZE + SIZES ==> (ClientAccepted(data) <==> Decoded(data).Ok?)
    ensures |data| >= HEADER_SIZE + SIZES ==> !Decoded(data).Ok?
  {
    if HEADER_SIZE <= |data| < HEADER_SIZE + SIZES {
      assert (|data| - HEADER_SIZE) % SIZES == |data| - HEADER_SIZE;
    }
  }

  /** Such a message exists. */
  lemma OversizedPassesCheck()
    ensures exists data :: ClientAccepted(data) && !Decoded(data).Ok?
  {
    var m := Message(1, 0, seq(SIZES, _ => 0));
    var data := Encoded(m);
    EncodingIsAccepted(m);
    SameBelow(data);
    assert ClientAccepted(data) && !Decoded(data).Ok?;
  }
}
