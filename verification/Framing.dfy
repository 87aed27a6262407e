/** The receive loop of the client (Main.cpp, ReceiveThread): a byte stream arrives in chunks, and packets are cut
    off the front of the buffer by the size field of their header. */
module Framing {

  type Byte = b: int | 0 <= b < 256
  type Bytes = seq<Byte>

  /** sizeof(PacketHeader): two little-endian uint16, size and id. */
  const HEADER := 4

  /** header->size */
  function SizeField(b: Bytes): (n: nat)
    requires |b| >= HEADER
    ensures n < 0x1_0000
  {
    (b[0] as int) + 256 * (b[1] as int)
  }

  /** The buffer, the packets handled so far, and whether the inner loop is caught: a size field of 0 removes nothing,
      so the loop handles the same packet again and again and never receives another byte. */
  datatype Receiver = Receiver(buffer: Bytes, packets: seq<Bytes>, caught: bool)

  /** A full packet stands at the front of the buffer. */
  predicate Ready(b: Bytes) {
    |b| >= HEADER && |b| >= SizeField(b)
  }

  /** The inner while loop. */
  function Parse(r: Receiver): Receiver
    decreases |r.buffer|
  {
    if r.caught || !Ready(r.buffer) then r
    else
      var n := SizeField(r.buffer);
      if n == 0 then r.(caught := true)
      else Parse(Receiver(r.buffer[n..], r.packets + [r.buffer[..n]], false))
  }

  /** One chunk from recv; a caught loop never calls recv again. */
  function Feed(r: Receiver, chunk: Bytes): Receiver {
    if r.caught then r else Parse(r.(buffer := r.buffer + chunk))
  }

  function FeedAll(r: Receiver, chunks: seq<Bytes>): Receiver
    decreases chunks
  {
    if chunks == [] then r else FeedAll(Feed(r, chunks[0]), chunks[1..])
  }

  function Flat(chunks: seq<Bytes>): Bytes {
    if chunks == [] then [] else chunks[0] + Flat(chunks[1..])
  }

  const Start := Receiver([], [], false)

  // ----- chunk independence -----

  /** The same packets, the same fate, and unless caught the same remainder. */
  predicate SameOutcome(r: Receiver, q: Receiver) {
    r.packets == q.packets && r.caught == q.caught && (!r.caught ==> r.buffer == q.buffer)
  }

  /** Parsing what there is and then the rest is parsing it all at once. */
  lemma {:induction false} ParseInTwo(r: Receiver, more: Bytes)
    requires !r.caught
    ensures SameOutcome(Feed(Parse(r), more), Parse(r.(buffer := r.buffer + more)))
    decreases |r.buffer|
  {
    var all := r.buffer + more;
    if Ready(r.buffer) {
      var n := SizeField(r.buffer);
      assert SizeField(all) == n && all[..n] == r.buffer[..n];
      if n > 0 {
        assert all[n..] == r.buffer[n..] + more;
        ParseInTwo(Receiver(r.buffer[n..], r.packets + [r.buffer[..n]], false), more);
      }
    }
  }

  lemma {:induction false} FeedAllIsFeedFlat(r: Receiver, chunks: seq<Bytes>)
    requires r == Parse(r)
    ensures SameOutcome(FeedAll(r, chunks), Feed(r, Flat(chunks)))
    decreases chunks
  {
    if chunks == [] {
      assert r.buffer + [] == r.buffer;
    } else if r.caught {
      FeedAllIsFeedFlat(r, chunks[1..]);
    } else {
      var r0 := r.(buffer := r.buffer + chunks[0]);
      var r1 := Parse(r0);
      ParseIdempotent(r0);
      FeedAllIsFeedFlat(r1, chunks[1..]);
      ParseInTwo(r0, Flat(chunks[1..]));
      assert r0.buffer + Flat(chunks[1..]) == r.buffer + Flat(chunks);
    }
  }

  lemma {:induction false} ParseIdempotent(r: Receiver)
    ensures Parse(Parse(r)) == Parse(r)
    decreases |r.buffer|
  {
    if !r.caught && Ready(r.buffer) && SizeField(r.buffer) > 0 {
      var n := SizeField(r.buffer);
      ParseIdempotent(Receiver(r.buffer[n..], r.packets + [r.buffer[..n]], false));
    }
  }

  /** However the stream is cut into chunks, the same packets come out and the same bytes stay behind. */
  lemma ChunkingDoesNotMatter(chunks1: seq<Bytes>, chunks2: seq<Bytes>)
    requires Flat(chunks1) == Flat(chunks2)
    ensures SameOutcome(FeedAll(Start, chunks1), FeedAll(Start, chunks2))
  {
    FeedAllIsFeedFlat(Start, chunks1);
    FeedAllIsFeedFlat(Start, chunks2);
  }

  // ----- nothing is lost -----

  lemma {:induction false} FlatAppend(a: seq<Bytes>, b: seq<Bytes>)
    ensures Flat(a + b) == Flat(a) + Flat(b)
  {
    if a == [] {
      assert a + b == b;
    } else {
      assert (a + b)[0] == a[0] && (a + b)[1..] == a[1..] + b;
      FlatAppend(a[1..], b);
      assert a[0] + (Flat(a[1..]) + Flat(b)) == (a[0] + Flat(a[1..])) + Flat(b);
    }
  }

  lemma FlatOne(p: Bytes)
    ensures Flat([p]) == p
  {
    assert [p][1..] == [] && p + [] == p;
  }

  lemma {:induction false} ParseKeepsBytes(r: Receiver)
    ensures Flat(Parse(r).packets) + Parse(r).buffer == Flat(r.packets) + r.buffer
    decreases |r.buffer|
  {
    if !r.caught && Ready(r.buffer) && SizeField(r.buffer) > 0 {
      var n := SizeField(r.buffer);
      var p := r.buffer[..n];
      ParseKeepsBytes(Receiver(r.buffer[n..], r.packets + [p], false));
      FlatAppend(r.packets, [p]);
      FlatOne(p);
      assert (Flat(r.packets) + p) + r.buffer[n..] == Flat(r.packets) + r.buffer;
    }
  }

  /** The packets and the remainder together are the input. */
  lemma BytesAreConserved(chunks: seq<Bytes>)
    requires !FeedAll(Start, chunks).caught
    ensures var r := FeedAll(Start, chunks); Flat(r.packets) + r.buffer == Flat(chunks)
  {
    FeedAllIsFeedFlat(Start, chunks);
    ParseKeepsBytes(Start.(buffer := Start.buffer + Flat(chunks)));
    assert Start.buffer + Flat(chunks) == Flat(chunks);
  }

  // ----- the round trip -----

  /** The size field tells the truth and covers the header. */
  predicate WellFormed(frame: Bytes) {
    |frame| >= HEADER && SizeField(frame) == |frame|
  }

  lemma {:induction false} ParseFrames(frames: seq<Bytes>, rest: Bytes, before: seq<Bytes>)
    requires forall f :: f in frames ==> WellFormed(f)
    requires !Ready(rest)
    ensures Parse(Receiver(Flat(frames) + rest, before, false)) == Receiver(rest, before + frames, false)
    decreases frames
  {
    if frames == [] {
      assert Flat(frames) + rest == rest && before + frames == before;
    } else {
      var f, all := frames[0], Flat(frames) + rest;
      assert f in frames;
      assert all == f + (Flat(frames[1..]) + rest);
      assert all[..|f|] == f && all[|f|..] == Flat(frames[1..]) + rest;
      assert SizeField(all) == |f|;
      ParseFrames(frames[1..], rest, before + [f]);
      assert (before + [f]) + frames[1..] == before + frames;
    }
  }

  /** Sending well-formed frames, cut into any chunks, and possibly the beginning of a next one, delivers exactly these
      frames and keeps the beginning. */
  lemma RoundTrip(frames: seq<Bytes>, rest: Bytes, chunks: seq<Bytes>)
    requires forall f :: f in frames ==> WellFormed(f)
    requires !Ready(rest) && Flat(chunks) == Flat(frames) + rest
    ensures FeedAll(Start, chunks) == Receiver(rest, frames, false)
  {
    FeedAllIsFeedFlat(Start, chunks);
    ParseFrames(frames, rest, []);
    assert Start.buffer + Flat(chunks) == Flat(frames) + rest;
    assert [] + frames == frames;
  }

  // ----- the header, byte by byte -----

  /** A message of the protocol: the id in its header and what follows the header. */
  datatype Message = Message(id: int, payload: Bytes)

  /** It fits the 16-bit size and id fields. */
  predicate Sendable(m: Message) {
    0 <= m.id < 65536 && 4 + |m.payload| < 65536
  }

  /** The bytes of a packet as the senders lay it out: size of the whole, then id, low byte first. */
  function Frame(m: Message): (f: Bytes)
    requires Sendable(m)
    ensures |f| == 4 + |m.payload|
  {
    var n := 4 + |m.payload|;
    [n % 256, n / 256, m.id % 256, m.id / 256] + m.payload
  }

  function Frames(ms: seq<Message>): seq<Bytes>
    requires forall m :: m in ms ==> Sendable(m)
  {
    if ms == [] then [] else [Frame(ms[0])] + Frames(ms[1..])
  }

  lemma FrameIsWellFormed(m: Message)
    requires Sendable(m)
    ensures WellFormed(Frame(m))
  {
    var n := 4 + |m.payload|;
    assert n == n % 256 + 256 * (n / 256);
  }

  lemma {:induction false} FramesAreWellFormed(ms: seq<Message>)
    requires forall m :: m in ms ==> Sendable(m)
    ensures forall f :: f in Frames(ms) ==> WellFormed(f)
  {
    if ms != [] {
      FrameIsWellFormed(ms[0]);
      FramesAreWellFormed(ms[1..]);
    }
  }

  lemma PartOfFrameIsNotReady(m: Message, n: nat)
    requires Sendable(m) && n < |Frame(m)|
    ensures !Ready(Frame(m)[..n])
  {
    FrameIsWellFormed(m);
    if n >= HEADER {
      assert SizeField(Frame(m)[..n]) == SizeField(Frame(m));
    }
  }

  /** However the packets of any messages, and a part of the packet of one more, are cut into chunks, the receiver gets
      exactly these packets and keeps the part. */
  lemma MessagesArrive(ms: seq<Message>, next: Message, n: nat, chunks: seq<Bytes>)
    requires (forall m :: m in ms ==> Sendable(m)) && Sendable(next) && n < |Frame(next)|
    requires Flat(chunks) == Flat(Frames(ms)) + Frame(next)[..n]
    ensures FeedAll(Start, chunks) == Receiver(Frame(next)[..n], Frames(ms), false)
  {
    FramesAreWellFormed(ms);
    PartOfFrameIsNotReady(next, n);
    RoundTrip(Frames(ms), Frame(next)[..n], chunks);
  }

  /** The packets determine the messages: nothing of a message is lost in its frame. */
  lemma {:induction false} FramesAreDistinct(ms: seq<Message>, ns: seq<Message>)
    requires (forall m :: m in ms ==> Sendable(m)) && (forall m :: m in ns ==> Sendable(m))
    requires Frames(ms) == Frames(ns)
    ensures ms == ns
  {
    if ms == [] || ns == [] {
      assert |Frames(ms)| == 0;
      assert ms == [] && ns == [];
    } else {
      var m, n := ms[0], ns[0];
      assert Frames(ms)[0] == Frame(m) && Frames(ns)[0] == Frame(n);
      assert Frames(ms)[1..] == Frames(ms[1..]) && Frames(ns)[1..] == Frames(ns[1..]);
      FrameIsInjective(m, n);
      FramesAreDistinct(ms[1..], ns[1..]);
      assert ms == [m] + ms[1..] && ns == [n] + ns[1..];
    }
  }

  lemma FrameIsInjective(m: Message, n: Message)
    requires Sendable(m) && Sendable(n) && Frame(m) == Frame(n)
    ensures m == n
  {
    assert Frame(m)[4..] == m.payload && Frame(n)[4..] == n.payload;
    assert Frame(m)[2] == m.id % 256 && Frame(m)[3] == m.id / 256;
    assert Frame(n)[2] == n.id % 256 && Frame(n)[3] == n.id / 256;
    assert m.id == m.id % 256 + 256 * (m.id / 256) && n.id == n.id % 256 + 256 * (n.id / 256);
  }

  // ----- when the loop gets caught -----

  /** Some point reached by cutting off packets shows a size field of 0. */
  predicate ReachesZero(b: Bytes)
    decreases |b|
  {
    Ready(b) && (SizeField(b) == 0 || ReachesZero(b[SizeField(b)..]))
  }

  /** The loop never ends iff a packet boundary of the stream shows a zero size field. */
  lemma {:induction false} ParseCaughtIff(b: Bytes, before: seq<Bytes>)
    ensures Parse(Receiver(b, before, false)).caught <==> ReachesZero(b)
    decreases |b|
  {
    if Ready(b) && SizeField(b) > 0 {
      var n := SizeField(b);
      ParseCaughtIff(b[n..], before + [b[..n]]);
    }
  }

  lemma CaughtIff(chunks: seq<Bytes>)
    ensures FeedAll(Start, chunks).caught <==> ReachesZero(Flat(chunks))
  {
    FeedAllIsFeedFlat(Start, chunks);
    assert Start.buffer + Flat(chunks) == Flat(chunks);
    ParseCaughtIff(Flat(chunks), []);
  }

  // ----- the loop itself -----

  class ReceiveThread {
    var buffer: Bytes
    var packets: seq<Bytes>
    var caught: bool

    ghost function Value(): Receiver
      reads this
    {
      Receiver(buffer, packets, caught)
    }

    constructor ()
      ensures Value() == Start
    {
      buffer, packets, caught := [], [], false;
    }

    /** What happens after recv has returned `chunk`. Being caught stands for running the loop for ever. */
    method OnReceive(chunk: Bytes)
      requires !caught
      modifies this
      ensures Value() == Feed(old(Value()), chunk)
    {
      buffer := buffer + chunk;
      while |buffer| >= HEADER
        invariant Parse(Value()) == Feed(old(Value()), chunk)
        invariant caught ==> |buffer| >= HEADER && SizeField(buffer) == 0
        decreases |buffer|, !caught
      {
        var size := SizeField(buffer);
        if |buffer| < size { break; }
        if size == 0 {
          caught := true;
          break;
        }
        packets := packets + [buffer[..size]];
        buffer := buffer[size..];
      }
    }
  }
}
