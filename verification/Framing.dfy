/** Packet framing (`protocol/conn.go`): a length, then the packet, or once compression is on
a data length and a body that is raw when that is zero and a zlib stream otherwise. zlib
itself is any pair of functions of which one undoes the other. */
module Framing {
  import opened Words
  import opened Wire

  const MAX_PACKET_SIZE := 0x80_0000
  const INT32_LIMIT := 0x8000_0000

  /** `inflate(body, n)` is the first n bytes a zlib stream holds, if it holds that many. */
  datatype Zlib = Zlib(deflate: bytes -> bytes, inflate: (bytes, nat) -> Option<bytes>)
  {
    ghost predicate Inverse() { forall p: bytes {:trigger deflate(p)} :: inflate(deflate(p), |p|) == Some(p) }
  }

  datatype Packet = Packet(id: int32, data: bytes)

  // --------------------------------------------------------------------- specification

  predicate Compressed(threshold: int, payload: bytes) { threshold >= 0 && |payload| >= threshold }

  function FrameOf(z: Zlib, threshold: int, payload: bytes): bytes {
    if threshold < 0 then payload
    else if |payload| < threshold then VarIntBytes(0) + payload
    else VarIntBytes(ToI32(|payload|)) + z.deflate(payload)
  }

  function WireBytes(z: Zlib, threshold: int, payload: bytes): bytes {
    VarIntBytes(ToI32(|FrameOf(z, threshold, payload)|)) + FrameOf(z, threshold, payload)
  }

  /** A payload as a packet: its id, and what is left. */
  function Parsed(payload: bytes): Option<Packet> {
    if At(payload).AfterVarInt().Broken? then None
    else Some(Packet(At(payload).VarInt(), At(payload).AfterVarInt().rest))
  }

  function Unwrapped(z: Zlib, frame: bytes): Option<bytes> {
    var s := At(frame);
    if s.AfterVarInt().Broken? then None
    else if s.VarInt() == 0 then Some(s.AfterVarInt().rest)
    else if s.VarInt() < 0 || s.VarInt() > MAX_PACKET_SIZE then None
    else z.inflate(s.AfterVarInt().rest, s.VarInt())
  }

  /** The packet at the front of a stream, and the stream after it. */
  function ReadAt(z: Zlib, threshold: int, stream: bytes): Option<(Packet, bytes)> {
    var n, body := At(stream).VarInt(), At(stream).AfterVarInt();
    if body.Broken? || n < 0 || n > MAX_PACKET_SIZE || n > |body.rest| then None
    else
      var frame := if threshold >= 0 then Unwrapped(z, body.rest[..n]) else Some(body.rest[..n]);
      if frame == None || Parsed(frame.value) == None then None
      else Some((Parsed(frame.value).value, body.rest[n..]))
  }

  // ---------------------------------------------------------------------- the connection

  class Conn {
    const z: Zlib
    var threshold: int
    var incoming: bytes
    var outgoing: bytes

    constructor (z: Zlib, incoming: bytes)
      ensures this.z == z && threshold == -1 && this.incoming == incoming && outgoing == []
    {
      this.z, threshold, this.incoming, outgoing := z, -1, incoming, [];
    }

    /** Before compression is agreed on, the packet alone; a short one behind a zero; a longer
        one deflated, behind its length. */
    method EncodeFrame(payload: bytes) returns (frame: bytes)
      ensures frame == FrameOf(z, threshold, payload)
      ensures threshold < 0 ==> frame == payload
      ensures 0 <= threshold && |payload| < threshold ==> frame == [0] + payload
      ensures 0 <= threshold <= |payload| < 0x8000_0000 ==> frame == VarIntBytes(|payload|) + z.deflate(payload)
    {
      if |payload| < INT32_LIMIT { SmallWord(|payload|); }
      if threshold < 0 { return payload; }
      if |payload| < threshold {
        var marker := AppendVar([], 0);
        return marker + payload;
      }
      var header := AppendVar([], ToI32(|payload|) % WORD32);
      assert header == VarIntBytes(ToI32(|payload|));
      frame := header + z.deflate(payload);
    }

    method WritePacket(payload: bytes)
      modifies this`outgoing
      ensures outgoing == old(outgoing) + WireBytes(z, threshold, payload)
      ensures |FrameOf(z, threshold, payload)| < 0x8000_0000 ==>
                outgoing == old(outgoing)
                  + (VarIntBytes(|FrameOf(z, threshold, payload)|) + FrameOf(z, threshold, payload))
    {
      var frame := EncodeFrame(payload);
      if |frame| < INT32_LIMIT { SmallWord(|frame|); }
      var out := AppendVar([], ToI32(|frame|) % WORD32);
      assert out == VarIntBytes(ToI32(|frame|));
      outgoing := outgoing + (out + frame);
    }

    method DecompressFrame(frame: bytes) returns (payload: Option<bytes>)
      ensures payload == Unwrapped(z, frame)
    {
      var fr := new Reader(frame);
      var dataLength := fr.VarInt();
      if fr.failed { return None; }
      var body := fr.tail;
      if dataLength == 0 { return Some(body); }
      if dataLength < 0 || dataLength > MAX_PACKET_SIZE { return None; }
      payload := z.inflate(body, dataLength);
    }

    /** On an error nothing is promised of the stream: the connection is not used again. */
    method ReadPacket() returns (p: Option<Packet>)
      modifies this`incoming
      ensures match ReadAt(z, threshold, old(incoming))
              case None => p == None
              case Some(r) => p == Some(r.0) && incoming == r.1
    {
      var r := new Reader(incoming);
      var length := r.VarInt();
      if r.failed || length < 0 || length > MAX_PACKET_SIZE || length > |r.tail| { return None; }
      var frame := r.tail[..length];
      incoming := r.tail[length..];
      if threshold >= 0 {
        var payload := DecompressFrame(frame);
        if payload == None { return None; }
        frame := payload.value;
      }
      var pr := new Reader(frame);
      var id := pr.VarInt();
      if pr.failed { return None; }
      p := Some(Packet(id, pr.tail));
    }
  }

  // ------------------------------------------------------------------------ the theorems

  /** Small enough to be read back: the writer does not check. */
  predicate Sendable(z: Zlib, threshold: int, payload: bytes) {
    && |FrameOf(z, threshold, payload)| <= 0x80_0000
    && (Compressed(threshold, payload) ==> |payload| <= 0x80_0000)
  }

  lemma UnwrapInverts(z: Zlib, threshold: int, payload: bytes)
    requires z.Inverse() && threshold >= 0 && |payload| < INT32_LIMIT
    ensures Unwrapped(z, FrameOf(z, threshold, payload))
         == if |payload| < threshold then Some(payload)
            else if payload == [] then Some(z.deflate(payload))
            else if |payload| <= MAX_PACKET_SIZE then Some(payload)
            else None
  {
    SmallWord(|payload|);
    if |payload| < threshold {
      VarIntAt(0, payload);
    } else {
      VarIntAt(|payload|, z.deflate(payload));
    }
  }

  function Then(p: Option<Packet>, rest: bytes): Option<(Packet, bytes)> {
    if p == None then None else Some((p.value, rest))
  }

  lemma SmallWord(n: nat)
    requires n < INT32_LIMIT
    ensures ToI32(n) == n
  {
    ToI32Mod(n);
    DivUnique(n, WORD32, 0, n);
  }

  /** A length below zero, above 8 MiB, or beyond what has come, is no packet. */
  lemma BadLength(z: Zlib, threshold: int, n: int32, rest: bytes)
    requires n < 0 || n > 0x80_0000 || n > |rest|
    ensures ReadAt(z, threshold, VarIntBytes(n) + rest) == None
  {
    VarIntAt(n, rest);
  }

  /** A frame reads back as the payload it carries exactly when the payload is itself a
      packet and is small enough; an empty payload sent compressed is the one that does not
      fail outright, because its zero length marks a raw body. */
  lemma FrameReadsBack(z: Zlib, threshold: int, payload: bytes, suffix: bytes)
    requires z.Inverse() && |payload| < INT32_LIMIT && |FrameOf(z, threshold, payload)| < INT32_LIMIT
    ensures var got := ReadAt(z, threshold, WireBytes(z, threshold, payload) + suffix);
            if payload == [] && Compressed(threshold, payload) then
              Sendable(z, threshold, payload) ==> got == Then(Parsed(z.deflate([])), suffix)
            else got == if Sendable(z, threshold, payload) then Then(Parsed(payload), suffix) else None
  {
    hide Stream.VarInt, Stream.AfterVarInt, VarIntBytes, Parsed, Unwrapped;
    var frame := FrameOf(z, threshold, payload);
    SmallWord(|frame|);
    assert WireBytes(z, threshold, payload) + suffix == VarIntBytes(|frame|) + (frame + suffix);
    VarIntAt(|frame|, frame + suffix);
    assert (frame + suffix)[..|frame|] == frame && (frame + suffix)[|frame|..] == suffix;
    if threshold >= 0 { UnwrapInverts(z, threshold, payload); }
  }

  /** A payload fit to send: it begins with an id, and fits. */
  predicate Good(z: Zlib, threshold: int, payload: bytes) {
    |payload| < INT32_LIMIT && Sendable(z, threshold, payload) && Parsed(payload).Some?
  }

  function WireAll(z: Zlib, threshold: int, payloads: seq<bytes>): bytes {
    if payloads == [] then [] else WireBytes(z, threshold, payloads[0]) + WireAll(z, threshold, payloads[1..])
  }

  /** The packets at the front of a stream, n of them if they are there. */
  function ReadAll(z: Zlib, threshold: int, n: nat, stream: bytes): Option<(seq<Packet>, bytes)> {
    if n == 0 then Some(([], stream))
    else
      var p := ReadAt(z, threshold, stream);
      if p == None then None
      else
        var rest := ReadAll(z, threshold, n - 1, p.value.1);
        if rest == None then None else Some(([p.value.0] + rest.value.0, rest.value.1))
  }

  function ParsedAll(payloads: seq<bytes>): seq<Packet>
    requires forall p | p in payloads :: Parsed(p).Some?
  {
    if payloads == [] then [] else [Parsed(payloads[0]).value] + ParsedAll(payloads[1..])
  }

  /** Frames written one after another read back as the packets they carry, in order, leaving
      exactly what follows them. */
  lemma {:induction false} FramesReadBack(z: Zlib, threshold: int, payloads: seq<bytes>, suffix: bytes)
    requires z.Inverse() && (forall p | p in payloads :: Parsed(p).Some?)
    requires (forall p | p in payloads :: Good(z, threshold, p))
    ensures ReadAll(z, threshold, |payloads|, WireAll(z, threshold, payloads) + suffix)
         == Some((ParsedAll(payloads), suffix))
    decreases |payloads|
  {
    hide ReadAt, WireBytes, Parsed, FrameOf;
    if payloads == [] {
      assert WireAll(z, threshold, payloads) + suffix == suffix;
    } else {
      var first, rest := payloads[0], payloads[1..];
      assert first in payloads;
      assert Parsed([]).None? by { EmptyIsNoPacket(); }
      FrameReadsBack(z, threshold, first, WireAll(z, threshold, rest) + suffix);
      assert WireAll(z, threshold, payloads) + suffix
          == WireBytes(z, threshold, first) + (WireAll(z, threshold, rest) + suffix);
      FramesReadBack(z, threshold, rest, suffix);
    }
  }

  lemma EmptyIsNoPacket()
    ensures Parsed([]) == None
  {
  }

  method SendAll(c: Conn, payloads: seq<bytes>)
    modifies c
    ensures c.outgoing == old(c.outgoing) + WireAll(c.z, c.threshold, payloads) && c.threshold == old(c.threshold)
  {
    hide WireBytes;
    ghost var all := c.outgoing + WireAll(c.z, c.threshold, payloads);
    for i := 0 to |payloads|
      invariant c.threshold == old(c.threshold)
      invariant c.outgoing + WireAll(c.z, c.threshold, payloads[i..]) == all
    {
      ghost var was, one := c.outgoing, WireBytes(c.z, c.threshold, payloads[i]);
      ghost var rest := WireAll(c.z, c.threshold, payloads[i + 1..]);
      assert payloads[i..][0] == payloads[i] && payloads[i..][1..] == payloads[i + 1..];
      c.WritePacket(payloads[i]);
      assert was + (one + rest) == (was + one) + rest;
    }
    assert c.outgoing + [] == c.outgoing;
  }

  method ReceiveAll(c: Conn, n: nat) returns (packets: Option<seq<Packet>>)
    modifies c
    ensures match ReadAll(c.z, c.threshold, n, old(c.incoming))
            case None => packets == None
            case Some(r) => packets == Some(r.0) && c.incoming == r.1
    ensures c.threshold == old(c.threshold)
  {
    hide ReadAt, ReadAll;
    var got := [];
    ghost var all := ReadAll(c.z, c.threshold, n, c.incoming);
    Prefixed(got, all);
    for i := 0 to n
      invariant c.threshold == old(c.threshold)
      invariant all == After(got, ReadAll(c.z, c.threshold, n - i, c.incoming))
    {
      OneRead(c.z, c.threshold, n - i, c.incoming, got);
      var p := c.ReadPacket();
      if p == None { return None; }
      got := got + [p.value];
    }
    NoneLeft(c.z, c.threshold, c.incoming);
    assert got + [] == got;
    packets := Some(got);
  }

  /** Packets already read, and the rest of the reading. */
  function After(got: seq<Packet>, rest: Option<(seq<Packet>, bytes)>): Option<(seq<Packet>, bytes)> {
    if rest == None then None else Some((got + rest.value.0, rest.value.1))
  }

  lemma Prefixed(got: seq<Packet>, rest: Option<(seq<Packet>, bytes)>)
    ensures got == [] ==> After(got, rest) == rest
  {
    if rest.Some? { assert [] + rest.value.0 == rest.value.0; }
  }

  lemma NoneLeft(z: Zlib, threshold: int, stream: bytes)
    ensures ReadAll(z, threshold, 0, stream) == Some(([], stream))
  {
  }

  lemma OneRead(z: Zlib, threshold: int, n: nat, stream: bytes, got: seq<Packet>)
    requires n > 0
    ensures var p, all := ReadAt(z, threshold, stream), After(got, ReadAll(z, threshold, n, stream));
            all == if p == None then None else After(got + [p.value.0], ReadAll(z, threshold, n - 1, p.value.1))
  {
    hide ReadAt;
    var p := ReadAt(z, threshold, stream);
    if p.Some? {
      var rest := ReadAll(z, threshold, n - 1, p.value.1);
      if rest.Some? { assert got + ([p.value.0] + rest.value.0) == (got + [p.value.0]) + rest.value.0; }
    }
  }
}
