/**
 * Packets on the wire: the four-byte header sendMessage writes and the parse
 * loop of rxLoop over one 65535-byte read buffer.
 */
module Framing {
  import opened Types

  const BUFFER: nat := 65535

  const HELLO: byte := 1
  const KEEPALIVE: byte := 2
  const SUBSCRIBE: byte := 3
  const UNSUBSCRIBE: byte := 4
  const UPDATE: byte := 5

  datatype Frame = Frame(kind: byte, payload: seq<byte>)

  /** What the deserializer for a message type does with a payload; Die is a nil pointer dereference. */
  datatype Verdict = Accept | Refuse | Die

  type Decoder = (byte, seq<byte>) -> Verdict

  function BigEndian(high: int, low: int): int {
    high * 256 + low
  }

  /** sendMessage: version 1, big-endian length, type, payload. */
  function Encode(f: Frame): seq<byte> {
    [1, (|f.payload| / 256) % 256, |f.payload| % 256, f.kind] + f.payload
  }

  function EncodeAll(fs: seq<Frame>): seq<byte> {
    if fs == [] then [] else Encode(fs[0]) + EncodeAll(fs[1..])
  }

  /** How a pass over the buffer ends; Panic is an index out of range or a nil pointer. */
  datatype Outcome = Done | Reset | Stopped | Panic

  datatype Parsed = Parsed(frames: seq<Frame>, outcome: Outcome)

  predicate Accepted(decodes: Decoder, f: Frame) {
    f.kind == KEEPALIVE || (f.kind in {HELLO, SUBSCRIBE, UNSUBSCRIBE, UPDATE} && decodes(f.kind, f.payload).Accept?)
  }

  predicate Fatal(decodes: Decoder, f: Frame) {
    f.kind in {HELLO, SUBSCRIBE, UNSUBSCRIBE, UPDATE} && decodes(f.kind, f.payload).Die?
  }

  predicate Known(kind: byte) {
    HELLO <= kind <= UPDATE
  }

  /** One packet of the parse loop: the frame and where the next one starts, or how the pass ends here. */
  datatype Packet = Packet(frame: Frame, next: nat) | End(outcome: Outcome)

  function ReadPacket(buf: seq<byte>, start: nat, decodes: Decoder): (r: Packet)
    ensures r.Packet? ==> start + 4 <= r.next <= |buf|
    ensures r.End? ==> r.outcome != Done
  {
    if start >= |buf| then End(Panic)
    else if buf[start] != 1 then End(Reset)
    else if start + 3 >= |buf| then End(Panic)
    else
      var next := start + 4 + BigEndian(buf[start + 1], buf[start + 2]);
      if next > |buf| then End(Panic)
      else
        var f := Frame(buf[start + 3], buf[start + 4..next]);
        if !Known(f.kind) then End(Stopped)
        else if Fatal(decodes, f) then End(Panic)
        else if !Accepted(decodes, f) then End(Reset)
        else Packet(f, next)
  }

  /** The parse loop from `start` on, `n` bytes having been read; bytes beyond `n` are left from earlier reads. */
  function ParseFrom(buf: seq<byte>, start: nat, n: nat, decodes: Decoder): Parsed
    decreases |buf| - start
  {
    match ReadPacket(buf, start, decodes)
    case End(outcome) => Parsed([], outcome)
    case Packet(f, next) =>
      if next < n then
        var rest := ParseFrom(buf, next, n, decodes);
        Parsed([f] + rest.frames, rest.outcome)
      else Parsed([f], Done)
  }

  /** What one packet contributes to a pass. */
  lemma {:induction false} ParseOne(buf: seq<byte>, start: nat, n: nat, decodes: Decoder, frames: seq<Frame>)
    ensures var p := ReadPacket(buf, start, decodes);
      var whole := ParseFrom(buf, start, n, decodes);
      && (p.End? ==> Parsed(frames + whole.frames, whole.outcome) == Parsed(frames, p.outcome))
      && (p.Packet? && p.next >= n ==> Parsed(frames + whole.frames, whole.outcome) == Parsed(frames + [p.frame], Done))
      && (p.Packet? && p.next < n ==>
            var rest := ParseFrom(buf, p.next, n, decodes);
            Parsed(frames + whole.frames, whole.outcome) == Parsed(frames + [p.frame] + rest.frames, rest.outcome))
  {
    hide ReadPacket;
    var p := ReadPacket(buf, start, decodes);
    if p.Packet? && p.next < n {
      var rest := ParseFrom(buf, p.next, n, decodes);
      assert frames + ([p.frame] + rest.frames) == frames + [p.frame] + rest.frames;
    }
  }

  /** One pass of rxLoop over the buffer after a read of `bytesRead` bytes. */
  method ParseRead(buf: array<byte>, bytesRead: nat, decodes: Decoder) returns (frames: seq<Frame>, outcome: Outcome)
    ensures bytesRead >= buf.Length ==> frames == [] && outcome == Reset
    ensures bytesRead < buf.Length ==> Parsed(frames, outcome) == ParseFrom(buf[..], 0, bytesRead, decodes)
  {
    hide ReadPacket;
    hide ParseFrom;
    frames := [];
    if bytesRead >= buf.Length {
      return frames, Reset;
    }
    var pktStart: nat := 0;
    while true
      invariant var rest := ParseFrom(buf[..], pktStart, bytesRead, decodes);
        ParseFrom(buf[..], 0, bytesRead, decodes) == Parsed(frames + rest.frames, rest.outcome)
      decreases buf.Length - pktStart
    {
      ParseOne(buf[..], pktStart, bytesRead, decodes, frames);
      var packet := ParsePacket(buf, pktStart, decodes);
      if packet.End? {
        return frames, packet.outcome;
      }
      pktStart, frames := packet.next, frames + [packet.frame];
      if pktStart >= bytesRead {
        return frames, Done;
      }
    }
  }

  /** The body of the parse loop: one header and its payload. */
  method ParsePacket(buf: array<byte>, pktStart: nat, decodes: Decoder) returns (packet: Packet)
    ensures packet == ReadPacket(buf[..], pktStart, decodes)
  {
    if pktStart >= buf.Length {
      return End(Panic);
    }
    if buf[pktStart] != 1 {
      return End(Reset);
    }
    if pktStart + 3 >= buf.Length {
      return End(Panic);
    }
    var pktLen := BigEndian(buf[pktStart + 1], buf[pktStart + 2]);
    var kind := buf[pktStart + 3];
    if pktStart + 4 + pktLen > buf.Length {
      return End(Panic);
    }
    var f := Frame(kind, buf[pktStart + 4..pktStart + 4 + pktLen]);
    assert f.payload == buf[..][pktStart + 4..pktStart + 4 + pktLen];
    if !Known(kind) {
      return End(Stopped);
    }
    if Fatal(decodes, f) {
      return End(Panic);
    }
    if !Accepted(decodes, f) {
      return End(Reset);
    }
    packet := Packet(f, pktStart + 4 + pktLen);
  }

  // Round trip

  predicate Sendable(decodes: Decoder, f: Frame) {
    |f.payload| < 0x1_0000 && Accepted(decodes, f)
  }

  ghost predicate AllSendable(decodes: Decoder, fs: seq<Frame>) {
    forall f :: f in fs ==> Sendable(decodes, f)
  }

  /** `bytes` stand in the buffer from `start` on. */
  ghost predicate Stands(buf: seq<byte>, start: nat, bytes: seq<byte>) {
    start + |bytes| <= |buf| && buf[start..start + |bytes|] == bytes
  }

  lemma {:induction false} StandsSplit(buf: seq<byte>, start: nat, xs: seq<byte>, ys: seq<byte>)
    ensures Stands(buf, start, xs + ys) <==> Stands(buf, start, xs) && Stands(buf, start + |xs|, ys)
  {
    if start + |xs| + |ys| <= |buf| {
      assert buf[start..start + |xs + ys|] == buf[start..start + |xs|] + buf[start + |xs|..start + |xs| + |ys|];
      if buf[start..start + |xs + ys|] == xs + ys {
        assert xs == (xs + ys)[..|xs|] && ys == (xs + ys)[|xs|..];
      }
    }
  }

  /** A frame that stands in the buffer is found there, up to what its type and payload are worth. */
  lemma {:induction false} FrameFound(buf: seq<byte>, start: nat, f: Frame)
    requires Stands(buf, start, Encode(f)) && |f.payload| < 0x1_0000
    ensures start + 4 + |f.payload| <= |buf| && buf[start] == 1 && buf[start + 3] == f.kind
    ensures buf[start + 1] as int * 256 + buf[start + 2] == |f.payload|
    ensures buf[start + 4..start + 4 + |f.payload|] == f.payload
  {
    var enc := Encode(f);
    assert forall i :: 0 <= i < |enc| ==> buf[start + i] == buf[start..start + |enc|][i] == enc[i];
    assert buf[start] == enc[0] && buf[start + 1] == enc[1] && buf[start + 2] == enc[2] && buf[start + 3] == enc[3];
    assert BigEndian(enc[1], enc[2]) == |f.payload|;
    assert buf[start + 4..start + 4 + |f.payload|] == enc[4..] == f.payload;
  }

  lemma {:induction false} ReadsBack(buf: seq<byte>, start: nat, f: Frame, decodes: Decoder)
    requires Stands(buf, start, Encode(f)) && Sendable(decodes, f)
    ensures ReadPacket(buf, start, decodes) == Packet(f, start + |Encode(f)|)
  {
    FrameFound(buf, start, f);
  }

  /** A frame whose deserializer dereferences nil takes the reader down with it. */
  lemma {:induction false} FatalFrame(buf: seq<byte>, start: nat, f: Frame, decodes: Decoder)
    requires Stands(buf, start, Encode(f)) && |f.payload| < 0x1_0000 && Fatal(decodes, f)
    ensures ReadPacket(buf, start, decodes) == End(Panic)
  {
    FrameFound(buf, start, f);
  }

  /**
   * How a pass ends at a packet that is not read: another version resets the
   * connection, a payload beyond the buffer panics, a type other than 1 to 5
   * stops the reader, and so does a payload its deserializer refuses, by a reset.
   */
  lemma {:induction false} RefusedPacket(buf: seq<byte>, start: nat, decodes: Decoder)
    requires start + 4 <= |buf|
    ensures var n := buf[start + 1] as int * 256 + buf[start + 2];
      var kind := buf[start + 3];
      var fits := start + 4 + n <= |buf|;
      && (ReadPacket(buf, start, decodes) == End(Reset) <==>
            || buf[start] != 1
            || (fits && kind in {1, 3, 4, 5} && decodes(kind, buf[start + 4..start + 4 + n]) == Refuse))
      && (ReadPacket(buf, start, decodes) == End(Stopped) <==> buf[start] == 1 && fits && (kind < 1 || kind > 5))
      && (ReadPacket(buf, start, decodes) == End(Panic) <==>
            buf[start] == 1 && (!fits || (kind in {1, 3, 4, 5} && decodes(kind, buf[start + 4..start + 4 + n]) == Die)))
  {
  }

  lemma HeaderLength(f: Frame)
    ensures |Encode(f)| == 4 + |f.payload|
  {
  }

  /** Whole frames come out as they went in, and the loop stays in bounds. */
  lemma {:induction false} ParsesWholeFrames(buf: seq<byte>, start: nat, fs: seq<Frame>, decodes: Decoder)
    requires fs != [] && AllSendable(decodes, fs)
    requires Stands(buf, start, EncodeAll(fs))
    ensures ParseFrom(buf, start, start + |EncodeAll(fs)|, decodes) == Parsed(fs, Done)
    decreases |fs|
  {
    hide ReadPacket;
    hide Stands;
    hide Encode;
    hide Sendable;
    var f, rest := fs[0], fs[1..];
    assert f in fs && fs == [f] + rest;
    StandsSplit(buf, start, Encode(f), EncodeAll(rest));
    ReadsBack(buf, start, f, decodes);
    if rest != [] {
      HeaderLength(rest[0]);
      ParsesWholeFrames(buf, start + |Encode(f)|, rest, decodes);
    }
  }

  lemma {:induction false} EncodesBack(buf: seq<byte>, start: nat, decodes: Decoder)
    requires ReadPacket(buf, start, decodes).Packet?
    ensures var p := ReadPacket(buf, start, decodes);
      Sendable(decodes, p.frame) && p.next == start + |Encode(p.frame)| && Stands(buf, start, Encode(p.frame))
  {
    var p := ReadPacket(buf, start, decodes);
    var enc := Encode(p.frame);
    assert |p.frame.payload| == BigEndian(buf[start + 1], buf[start + 2]);
    assert enc[1] == buf[start + 1] && enc[2] == buf[start + 2];
    assert buf[start..p.next] == buf[start..start + 4] + buf[start + 4..p.next];
  }

  /** A pass that ends normally has read frames whose bytes stand in the buffer from `start` on. */
  lemma {:induction false} ParsedBytes(buf: seq<byte>, start: nat, n: nat, decodes: Decoder)
    requires ParseFrom(buf, start, n, decodes).outcome == Done
    ensures var fs := ParseFrom(buf, start, n, decodes).frames;
      && fs != [] && AllSendable(decodes, fs)
      && Stands(buf, start, EncodeAll(fs))
      && n <= start + |EncodeAll(fs)|
    decreases |buf| - start
  {
    hide ReadPacket;
    hide Stands;
    hide Encode;
    hide Sendable;
    var p := ReadPacket(buf, start, decodes);
    EncodesBack(buf, start, decodes);
    if p.next < n {
      ParsedBytes(buf, p.next, n, decodes);
      var rest := ParseFrom(buf, p.next, n, decodes).frames;
      assert ([p.frame] + rest)[1..] == rest;
      StandsSplit(buf, start, Encode(p.frame), EncodeAll(rest));
    } else {
      assert [p.frame][1..] == [];
      assert EncodeAll([p.frame]) == Encode(p.frame) + EncodeAll([]) == Encode(p.frame);
    }
  }

  /** A read is understood as what was sent exactly when it consists of whole acceptable frames. */
  lemma {:induction false} ReadUnderstoodIff(buf: seq<byte>, n: nat, decodes: Decoder)
    requires n < |buf|
    ensures (exists fs :: fs != [] && AllSendable(decodes, fs) && EncodeAll(fs) == buf[..n]) <==>
      var p := ParseFrom(buf, 0, n, decodes);
      p.outcome == Done && EncodeAll(p.frames) == buf[..n]
  {
    hide ParseFrom;
    hide EncodeAll;
    if exists fs :: fs != [] && AllSendable(decodes, fs) && EncodeAll(fs) == buf[..n] {
      var fs :| fs != [] && AllSendable(decodes, fs) && EncodeAll(fs) == buf[..n];
      assert Stands(buf, 0, EncodeAll(fs));
      ParsesWholeFrames(buf, 0, fs, decodes);
    }
    if ParseFrom(buf, 0, n, decodes).outcome == Done {
      ParsedBytes(buf, 0, n, decodes);
    }
  }

  // A whole connection

  /** One read: the bytes land at the start of the buffer, what was there behind them stays. */
  function Filled(buf: seq<byte>, read: seq<byte>): seq<byte>
    requires |read| <= |buf|
  {
    read + buf[|read|..]
  }

  /** rxLoop over the reads the connection delivers, ending at the first pass that does not end normally. */
  function ReceiveAll(buf: seq<byte>, chunks: seq<seq<byte>>, decodes: Decoder): Parsed
    requires |buf| == BUFFER
    requires forall r :: r in chunks ==> |r| <= BUFFER
    decreases |chunks|
  {
    if chunks == [] then Parsed([], Done)
    else
      var read := chunks[0];
      if |read| >= |buf| then Parsed([], Reset)
      else
        var first := ParseFrom(Filled(buf, read), 0, |read|, decodes);
        if first.outcome != Done then first
        else
          var rest := ReceiveAll(Filled(buf, read), chunks[1..], decodes);
          Parsed(first.frames + rest.frames, rest.outcome)
  }

  function Flatten(groups: seq<seq<Frame>>): seq<Frame> {
    if groups == [] then [] else groups[0] + Flatten(groups[1..])
  }

  function EncodeGroups(groups: seq<seq<Frame>>): (chunks: seq<seq<byte>>)
    ensures |chunks| == |groups|
    ensures forall i :: 0 <= i < |groups| ==> chunks[i] == EncodeAll(groups[i])
  {
    seq(|groups|, i requires 0 <= i < |groups| => EncodeAll(groups[i]))
  }

  /**
   * Whatever the buffer held before, and however the stream of frames is cut
   * into reads at frame boundaries: the receiver sees exactly what was sent.
   */
  lemma {:induction false} ReceivesWhatWasSent(buf: seq<byte>, groups: seq<seq<Frame>>, decodes: Decoder)
    requires |buf| == BUFFER
    requires forall g :: g in groups ==> g != [] && AllSendable(decodes, g) && |EncodeAll(g)| < BUFFER
    ensures forall r :: r in EncodeGroups(groups) ==> |r| <= BUFFER
    ensures ReceiveAll(buf, EncodeGroups(groups), decodes) == Parsed(Flatten(groups), Done)
    decreases |groups|
  {
    GroupsFit(groups);
    if groups != [] {
      var g := groups[0];
      assert g in groups;
      var filled := Filled(buf, EncodeAll(g));
      FirstReadUnderstood(buf, g, decodes);
      ReceivesWhatWasSent(filled, groups[1..], decodes);
      assert EncodeGroups(groups)[1..] == EncodeGroups(groups[1..]);
    }
  }

  lemma {:induction false} GroupsFit(groups: seq<seq<Frame>>)
    requires forall g :: g in groups ==> |EncodeAll(g)| < BUFFER
    ensures forall r :: r in EncodeGroups(groups) ==> |r| <= BUFFER
  {
    forall r | r in EncodeGroups(groups) ensures |r| <= BUFFER {
      var i :| 0 <= i < |groups| && EncodeGroups(groups)[i] == r;
      assert groups[i] in groups;
    }
  }

  lemma {:induction false} FirstReadUnderstood(buf: seq<byte>, g: seq<Frame>, decodes: Decoder)
    requires |buf| == BUFFER && g != [] && AllSendable(decodes, g) && |EncodeAll(g)| < BUFFER
    ensures ParseFrom(Filled(buf, EncodeAll(g)), 0, |EncodeAll(g)|, decodes) == Parsed(g, Done)
  {
    var filled := Filled(buf, EncodeAll(g));
    assert Stands(filled, 0, EncodeAll(g));
    ParsesWholeFrames(filled, 0, g, decodes);
  }

  /** A cut inside a header is fatal: the reader stops without a reset and the KEEPALIVE is lost. */
  lemma {:induction false} CutHeaderStopsTheReader(buf: seq<byte>, decodes: Decoder)
    requires |buf| == BUFFER && buf[2] == 0 && buf[3] == 0
    ensures Encode(Frame(KEEPALIVE, [])) == [1, 0] + [0, 2]
    ensures ReceiveAll(buf, [[1, 0], [0, 2]], decodes) == Parsed([], Stopped)
  {
    var filled := Filled(buf, [1, 0]);
    assert filled[0] == 1 && filled[1] == 0 && filled[2] == 0 && filled[3] == 0;
  }
}
