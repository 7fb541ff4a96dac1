/** VarInts, fixed-width fields, and the packet reader with its sticky error
(`protocol/varint.go`, `protocol/reader.go`). */
module Wire {
  import opened Words

  type bytes = seq<byte>

  datatype Option<+T> = None | Some(value: T)

  // ------------------------------------------------------------------------ VarInts

  const VARINT_BYTES := 5
  const VARLONG_BYTES := 10

  function Pow128(n: nat): (p: nat)
    ensures p > 0
  {
    if n == 0 then 1 else 128 * Pow128(n - 1)
  }

  /** The canonical encoding of an unsigned value: seven bits a byte, low bits first. */
  function VarBytes(u: nat): (s: bytes)
    ensures s != [] && (s[0] == 0 <==> u == 0)
  {
    if u < 128 then [u] else [u % 128 + 128] + VarBytes(u / 128)
  }

  function VarIntBytes(v: int32): bytes { VarBytes(v % WORD32) }

  function VarLongBytes(v: int64): bytes { VarBytes(v % WORD64) }

  /** Decoding from byte i on, with `value` gathered so far; at most `max` bytes. */
  function VarFrom(s: bytes, i: nat, value: int, max: nat, word: int): Option<(int, bytes)>
    requires i <= max && word > 0
    decreases max - i
  {
    if i == max || s == [] then None
    else
      var value' := (value + s[0] % 128 * Pow128(i)) % word;
      if s[0] < 128 then Some((value', s[1..]))
      else VarFrom(s[1..], i + 1, value', max, word)
  }

  lemma {:induction false} VarFromInverts(u: nat, suffix: bytes, i: nat, value: nat, max: nat, word: int)
    requires i + |VarBytes(u)| <= max
    requires value + u * Pow128(i) < word
    ensures VarFrom(VarBytes(u) + suffix, i, value, max, word) == Some((value + u * Pow128(i), suffix))
    decreases u
  {
    var s, p := VarBytes(u) + suffix, Pow128(i);
    SplitSeven(u, p);
    var sum := value + s[0] % 128 * p;
    assert s[0] % 128 == u % 128;
    DivUnique(sum, word, 0, sum);
    if u < 128 {
      assert s[1..] == suffix;
    } else {
      assert s[1..] == VarBytes(u / 128) + suffix;
      VarFromInverts(u / 128, suffix, i + 1, sum, max, word);
    }
  }

  lemma SplitSeven(u: nat, p: nat)
    ensures u * p == u % 128 * p + u / 128 * (128 * p)
    ensures 0 <= u % 128 * p <= u * p
  {
    assert u == u % 128 + u / 128 * 128;
    MulAssoc(u / 128, 128, p);
  }

  lemma {:induction false} VarBytesLength(u: nat, n: nat)
    ensures n >= 1 && u < Pow128(n) ==> |VarBytes(u)| <= n
    ensures |VarBytes(u)| <= n ==> u < Pow128(n)
    decreases n
  {
    if n == 0 {
    } else if u < 128 {
      MulAtLeast(Pow128(n - 1), 128);
    } else if n == 1 {
    } else {
      VarBytesLength(u / 128, n - 1);
    }
  }

  lemma VarWidths()
    ensures WORD32 <= Pow128(VARINT_BYTES) && WORD64 <= Pow128(VARLONG_BYTES)
  {
    assert Pow128(5) == 128 * 128 * 128 * 128 * 128;
    assert Pow128(10) == Pow128(5) * Pow128(5) by {
      assert Pow128(10) == 128 * 128 * 128 * 128 * 128 * Pow128(5);
    }
  }

  /** Decoding inverts encoding in front of any suffix. */
  lemma VarRoundTrip(u: nat, suffix: bytes, max: nat, word: int)
    requires max >= 1 && u < word <= Pow128(max)
    ensures 1 <= |VarBytes(u)| <= max
    ensures VarFrom(VarBytes(u) + suffix, 0, 0, max, word) == Some((u, suffix))
  {
    VarBytesLength(u, max);
    VarFromInverts(u, suffix, 0, 0, max, word);
  }

  lemma VarIntRoundTrip(v: int32, suffix: bytes)
    ensures 1 <= |VarIntBytes(v)| <= VARINT_BYTES
    ensures VarFrom(VarIntBytes(v) + suffix, 0, 0, VARINT_BYTES, WORD32) == Some((v % WORD32, suffix))
    ensures ToI32(v % WORD32) == v
  {
    VarWidths();
    ToI32Mod(v);
    VarRoundTrip(v % WORD32, suffix, VARINT_BYTES, WORD32);
  }

  lemma VarLongRoundTrip(v: int64, suffix: bytes)
    ensures 1 <= |VarLongBytes(v)| <= VARLONG_BYTES
    ensures VarFrom(VarLongBytes(v) + suffix, 0, 0, VARLONG_BYTES, WORD64) == Some((v % WORD64, suffix))
    ensures ToI64(v % WORD64) == v
  {
    VarWidths();
    ToI64Mod(v);
    VarRoundTrip(v % WORD64, suffix, VARLONG_BYTES, WORD64);
  }

  /** What a successful decode consumed: a non-empty prefix, at least as long as the
      canonical encoding of the value it returns. */
  lemma {:induction false} VarFromConsumes(s: bytes, i: nat, value: nat, max: nat, word: int)
    requires i <= max && word > 0 && value < Pow128(i)
    ensures match VarFrom(s, i, value, max, word)
            case None => true
            case Some(r) =>
              && |r.1| < |s| && r.1 == s[|s| - |r.1|..]
              && 0 <= r.0 < word && r.0 < Pow128(i + |s| - |r.1|)
              && |VarBytes(r.0)| <= i + |s| - |r.1| <= max
    decreases max - i
  {
    if i < max && s != [] {
      var sum := value + s[0] % 128 * Pow128(i);
      assert sum < Pow128(i + 1) by { MulAtLeast(128 - s[0] % 128, Pow128(i)); }
      ModAtMost(sum, word);
      if s[0] < 128 {
        VarBytesLength(sum % word, i + 1);
      } else {
        VarFromConsumes(s[1..], i + 1, sum % word, max, word);
      }
    }
  }

  /** The number seven bits of each byte make, low bits first. */
  function Groups(s: bytes): nat { if s == [] then 0 else s[0] % 128 + 128 * Groups(s[1..]) }

  /** Every byte but the last of these goes on. */
  predicate OneVar(s: bytes) { s != [] && (forall i | 0 <= i < |s| :: s[i] >= 128 <==> i < |s| - 1) }

  /** An encoding is its value's groups, the last byte alone not going on, and no group more
      than it needs. */
  lemma {:induction false} VarBytesIs(u: nat)
    ensures var s := VarBytes(u); Groups(s) == u && OneVar(s) && (|s| > 1 ==> s[|s| - 1] != 0)
    decreases u
  {
    if u >= 128 {
      var rest := VarBytes(u / 128);
      VarBytesIs(u / 128);
      assert VarBytes(u) == [u % 128 + 128] + rest;
      assert ([u % 128 + 128] + rest)[1..] == rest;
    }
  }

  /** Decoding reads up to the first byte that does not go on, as the number its groups make
      in a word, canonical or not. */
  lemma VarFromIs(s: bytes, rest: bytes, max: nat, word: int)
    requires word > 0 && OneVar(s) && |s| <= max
    ensures VarFrom(s + rest, 0, 0, max, word) == Some((Groups(s) % word, rest))
  {
    VarFromGroups(s, rest, 0, 0, max, word);
  }

  lemma {:induction false} VarFromGroups(s: bytes, rest: bytes, i: nat, value: int, max: nat, word: int)
    requires word > 0 && OneVar(s) && i + |s| <= max
    ensures VarFrom(s + rest, i, value, max, word) == Some(((value + Groups(s) * Pow128(i)) % word, rest))
    decreases s
  {
    var low, p := s[0] % 128, Pow128(i);
    if |s| == 1 {
      assert s[1..] == [] && (s + rest)[1..] == rest;
    } else {
      assert (s + rest)[1..] == s[1..] + rest;
      VarFromGroups(s[1..], rest, i + 1, (value + low * p) % word, max, word);
      MulAdd(low, 128 * Groups(s[1..]), p);
      MulAssoc(Groups(s[1..]), 128, p);
      AddMod(value + low * p, Groups(s[1..]) * Pow128(i + 1), word);
    }
  }

  lemma AddMod(x: int, y: int, m: int)
    requires m > 0
    ensures (x % m + y) % m == (x + y) % m
  {
    var z := x % m + y;
    Euclid(x, m);
    Euclid(z, m);
    MulAdd(x / m, z / m, m);
    DivUnique(x + y, m, x / m + z / m, z % m);
  }

  lemma ModAtMost(x: nat, m: int)
    requires m > 0
    ensures 0 <= x % m <= x
  {
    Euclid(x, m);
    if x / m >= 1 { MulAtLeast(x / m, m); }
  }

  /** `VarIntLen` counts the bytes the encoder writes. */
  method VarIntLen(v: int32) returns (n: nat)
    ensures n == |VarIntBytes(v)| && 1 <= n <= VARINT_BYTES
  {
    VarIntRoundTrip(v, []);
    var u := v % WORD32;
    n := 1;
    while u >= 128
      invariant u >= 0 && n - 1 + |VarBytes(u)| == |VarIntBytes(v)|
    {
      u := u / 128;
      n := n + 1;
    }
  }

  /** `AppendVarInt` and `AppendVarLong`: the loop both share, on the unsigned pattern. */
  method AppendVar(dst: bytes, pattern: nat) returns (out: bytes)
    ensures out == dst + VarBytes(pattern)
  {
    out := dst;
    var u := pattern;
    while u >= 128
      invariant u >= 0 && out + VarBytes(u) == dst + VarBytes(pattern)
    {
      assert VarBytes(u) == [u % 128 + 128] + VarBytes(u / 128);
      out := out + [u % 128 + 128];
      u := u / 128;
    }
    out := out + [u];
  }

  // ------------------------------------------------------------- fixed-width numbers

  function Pow256(n: nat): (p: nat)
    ensures p > 0
  {
    if n == 0 then 1 else 256 * Pow256(n - 1)
  }

  function BigEndian(s: bytes): (u: nat)
    ensures u < Pow256(|s|)
  {
    if s == [] then 0
    else
      var u := BigEndian(s[..|s| - 1]) * 256 + s[|s| - 1];
      assert u < Pow256(|s|);
      u
  }

  function BigEndianBytes(u: nat, width: nat): (s: bytes)
    ensures |s| == width
  {
    if width == 0 then [] else BigEndianBytes(u / 256, width - 1) + [u % 256]
  }

  lemma {:induction false} BigEndianRoundTrip(u: nat, width: nat)
    requires u < Pow256(width)
    ensures BigEndian(BigEndianBytes(u, width)) == u
    decreases width
  {
    if width > 0 {
      BigEndianRoundTrip(u / 256, width - 1);
      var s := BigEndianBytes(u, width);
      assert s[..|s| - 1] == BigEndianBytes(u / 256, width - 1);
    }
  }

  function I64Bytes(v: int64): bytes { BigEndianBytes(v % WORD64, 8) }

  lemma I64RoundTrip(v: int64)
    ensures ToI64(BigEndian(I64Bytes(v))) == v
  {
    hide BigEndian, BigEndianBytes;
    assert Pow256(8) == WORD64;
    ToI64Mod(v);
    BigEndianRoundTrip(v % WORD64, 8);
  }

  // ------------------------------------------------------- the reader, as a function

  const MAX_STRING_LEN := 32767 * 4
  /** How many zeros a failed read has to answer with. */
  const ZERO_PAD := 16

  lemma {:induction false} ZerosAreZero(s: bytes)
    requires forall i | 0 <= i < |s| :: s[i] == 0
    ensures BigEndian(s) == 0
    decreases |s|
  {
    if s != [] { ZerosAreZero(s[..|s| - 1]); }
  }

  /** What a reader has left: the undecoded tail, or nothing once a read has failed. */
  datatype Stream = Broken | At(rest: bytes)
  {
    predicate Err() { Broken? }

    /** The bytes left; a failed reader has none. */
    function Remaining(): bytes { if At? then rest else [] }

    function Skip(n: int): Stream {
      if At? && 0 <= n <= |rest| then At(rest[n..]) else Broken
    }

    /** The unsigned value of the next n bytes, 0 when the read fails. */
    function Peek(n: nat): (u: nat)
      ensures u < Pow256(n)
    {
      if At? && n <= |rest| then BigEndian(rest[..n]) else 0
    }

    function VarIntStep(): Option<(int, bytes)> {
      if At? then VarFrom(rest, 0, 0, VARINT_BYTES, WORD32) else None
    }

    function VarInt(): int32 {
      match VarIntStep() case Some(r) => ToI32(r.0) case None => 0
    }

    function AfterVarInt(): Stream {
      match VarIntStep() case Some(r) => At(r.1) case None => Broken
    }

    function VarLongStep(): Option<(int, bytes)> {
      if At? then VarFrom(rest, 0, 0, VARLONG_BYTES, WORD64) else None
    }

    function VarLong(): int64 {
      match VarLongStep() case Some(r) => ToI64(r.0) case None => 0
    }

    function AfterVarLong(): Stream {
      match VarLongStep() case Some(r) => At(r.1) case None => Broken
    }

    /** The bytes of a length-prefixed string, none when it does not read. */
    function Text(): bytes {
      if AfterString().At? && VarInt() <= |AfterVarInt().Remaining()| then AfterVarInt().Remaining()[..VarInt()] else []
    }

    /** A length-prefixed string, rejecting implausible lengths. */
    function AfterString(): Stream {
      if 0 <= VarInt() <= MAX_STRING_LEN then AfterVarInt().Skip(VarInt()) else Broken
    }
  }

  /** A successful read leaves a suffix of what was there. */
  ghost predicate Consumed(s: Stream, s': Stream, atLeast: nat)
  {
    s'.At? ==> s.At? && |s'.rest| + atLeast <= |s.rest| && s'.rest == s.rest[|s.rest| - |s'.rest|..]
  }

  lemma ReadsConsume(s: Stream, n: nat)
    ensures Consumed(s, s.AfterVarInt(), 1)
    ensures Consumed(s, s.AfterVarLong(), 1)
    ensures Consumed(s, s.AfterString(), 1)
    ensures Consumed(s, s.Skip(n), n)
  {
    if s.At? {
      VarFromConsumes(s.rest, 0, 0, VARINT_BYTES, WORD32);
      VarFromConsumes(s.rest, 0, 0, VARLONG_BYTES, WORD64);
    }
  }

  lemma VarIntAt(v: int32, suffix: bytes)
    ensures At(VarIntBytes(v) + suffix).VarInt() == v
    ensures At(VarIntBytes(v) + suffix).AfterVarInt() == At(suffix)
    ensures VarIntBytes(v) != [] && (VarIntBytes(v)[0] == 0 <==> v == 0)
  {
    VarIntRoundTrip(v, suffix);
  }

  lemma VarLongAt(v: int64, suffix: bytes)
    ensures At(VarLongBytes(v) + suffix).VarLong() == v
    ensures At(VarLongBytes(v) + suffix).AfterVarLong() == At(suffix)
  {
    VarLongRoundTrip(v, suffix);
  }

  lemma SkipAt(field: bytes, suffix: bytes)
    ensures At(field + suffix).Skip(|field|) == At(suffix)
    ensures At(field + suffix).Peek(|field|) == BigEndian(field)
  {
    assert (field + suffix)[|field|..] == suffix;
    assert (field + suffix)[..|field|] == field;
  }

  /** A VarInt is read up to its first byte that does not go on, as the signed word whose bits
      its groups are. */
  lemma VarIntIs(s: bytes, rest: bytes)
    requires OneVar(s) && |s| <= 5
    ensures At(s + rest).AfterVarInt() == At(rest)
    ensures (At(s + rest).VarInt() - Groups(s)) % 0x1_0000_0000 == 0
  {
    VarFromIs(s, rest, VARINT_BYTES, WORD32);
    hide VarFrom, Groups, OneVar, ToI32;
    To32Is(Groups(s));
  }

  lemma VarLongIs(s: bytes, rest: bytes)
    requires OneVar(s) && |s| <= 10
    ensures At(s + rest).AfterVarLong() == At(rest)
    ensures (At(s + rest).VarLong() - Groups(s)) % 0x1_0000_0000_0000_0000 == 0
  {
    VarFromIs(s, rest, VARLONG_BYTES, WORD64);
    hide VarFrom, Groups, OneVar, ToI64;
    To64Is(Groups(s));
  }

  lemma To32Is(x: int)
    ensures (ToI32(x % WORD32) - x) % WORD32 == 0
  {
    hide ToI32;
    WordIs(ToI32(x % WORD32), x, WORD32);
  }

  lemma To64Is(x: int)
    ensures (ToI64(x % WORD64) - x) % WORD64 == 0
  {
    hide ToI64;
    WordIs(ToI64(x % WORD64), x, WORD64);
  }

  lemma WordIs(v: int, x: int, word: int)
    requires word > 0 && (v - x % word) % word == 0
    ensures (v - x) % word == 0
  {
    Euclid(x, word);
    Euclid(v - x % word, word);
    MulSub((v - x % word) / word, x / word, word);
    DivUnique(v - x, word, (v - x % word) / word - x / word, 0);
  }

  /** A run of five bytes that all go on is no VarInt, and one of ten no VarLong. */
  lemma TooLong(s: bytes)
    ensures |s| >= 5 && (forall i | 0 <= i < 5 :: s[i] >= 128) ==> At(s).AfterVarInt() == Broken
    ensures |s| >= 10 && (forall i | 0 <= i < 10 :: s[i] >= 128) ==> At(s).AfterVarLong() == Broken
  {
    GoesOnTooLong(s, 0, 0, VARINT_BYTES, WORD32);
    GoesOnTooLong(s, 0, 0, VARLONG_BYTES, WORD64);
  }

  lemma {:induction false} GoesOnTooLong(s: bytes, i: nat, value: int, max: nat, word: int)
    requires i <= max && word > 0
    ensures |s| >= max - i && (forall j | 0 <= j < max - i :: s[j] >= 128) ==> VarFrom(s, i, value, max, word) == None
    decreases max - i
  {
    if i < max && s != [] {
      GoesOnTooLong(s[1..], i + 1, (value + s[0] % 128 * Pow128(i)) % word, max, word);
    }
  }

  /** The most significant byte comes first. */
  lemma BigEndianIs(a: byte, b: byte, c: byte, d: byte)
    ensures BigEndian([a, b]) == a * 256 + b
    ensures BigEndian([a, b, c, d]) == ((a * 256 + b) * 256 + c) * 256 + d
  {
    assert BigEndian([]) == 0;
    assert [] + [a] == [a] && [a] + [b] == [a, b] && [a, b] + [c] == [a, b, c] && [a, b, c] + [d] == [a, b, c, d];
    BigEndianNext([], a);
    BigEndianNext([a], b);
    BigEndianNext([a, b], c);
    BigEndianNext([a, b, c], d);
  }

  lemma BigEndianNext(s: bytes, b: byte)
    ensures BigEndian(s + [b]) == BigEndian(s) * 256 + b
  {
    assert (s + [b])[..|s|] == s;
  }

  /** A length below zero or above 131068 fails the read, whatever follows. */
  lemma LongString(n: int32, rest: bytes)
    requires n < 0 || n > 131068
    ensures At(VarIntBytes(n) + rest).AfterString() == Broken
  {
    VarIntAt(n, rest);
  }

  function StringBytes(text: bytes): bytes
    requires |text| <= 131068
  {
    VarIntBytes(|text|) + text
  }

  lemma StringAt(text: bytes, suffix: bytes)
    requires |text| <= 131068
    ensures At(StringBytes(text) + suffix).AfterString() == At(suffix)
    ensures At(StringBytes(text) + suffix).Text() == text
  {
    assert StringBytes(text) + suffix == VarIntBytes(|text|) + (text + suffix);
    VarIntAt(|text|, text + suffix);
    SkipAt(text, suffix);
  }

  // -------------------------------------------------------------- runs of VarInts

  /** `range n` over a count that is not positive runs no round. */
  function Rounds(n: int32): nat { if n < 0 then 0 else n }

  function AfterVarInts(s: Stream, n: nat): Stream
    decreases n
  {
    if n == 0 then s else AfterVarInts(s.AfterVarInt(), n - 1)
  }

  function VarIntsBytes(vs: seq<int32>): bytes {
    if vs == [] then [] else VarIntBytes(vs[0]) + VarIntsBytes(vs[1..])
  }

  lemma {:induction false} VarIntsSkipped(vs: seq<int32>, suffix: bytes)
    ensures AfterVarInts(At(VarIntsBytes(vs) + suffix), |vs|) == At(suffix) && |VarIntsBytes(vs)| >= |vs|
  {
    hide VarIntBytes;
    if vs == [] {
      assert VarIntsBytes(vs) + suffix == suffix;
    } else {
      assert VarIntsBytes(vs) + suffix == VarIntBytes(vs[0]) + (VarIntsBytes(vs[1..]) + suffix);
      VarIntAt(vs[0], VarIntsBytes(vs[1..]) + suffix);
      VarIntsSkipped(vs[1..], suffix);
    }
  }

  lemma {:induction false} VarIntsBroken(n: nat)
    ensures AfterVarInts(Broken, n) == Broken
  {
    if n > 0 { VarIntsBroken(n - 1); }
  }

  // ---------------------------------------------------------- the reader, as an object

  /** Decodes a packet payload. The first failure is sticky: once `failed` is set, later
      reads return zero values and the cursor stays put. The model keeps the undecoded
      tail where the source keeps the whole buffer and an offset into it. `steps` counts
      the primitive reads made, for the bounds on decoding work. */
  class Reader {
    var tail: bytes
    var failed: bool
    ghost var steps: nat

    constructor (buf: bytes)
      ensures State() == At(buf) && steps == 0
    {
      tail, failed, steps := buf, false, 0;
    }

    function State(): Stream
      reads this
    {
      if failed then Broken else At(tail)
    }

    method Fail()
      modifies this
      ensures State() == Broken && steps == old(steps)
    {
      failed := true;
    }

    /** The next n bytes. On a failure the answer is zeros, and may be shorter than n. */
    method Take(n: int) returns (field: bytes)
      modifies this
      ensures State() == old(State()).Skip(n) && steps == old(steps) + 1
      ensures if State().At? then field == old(State()).rest[..n]
              else
                && |field| == (if 0 <= n <= ZERO_PAD then n else ZERO_PAD)
                && forall i | 0 <= i < |field| :: field[i] == 0
    {
      steps := steps + 1;
      if !failed {
        if n < 0 || n > |tail| {
          failed := true;
        } else {
          field := tail[..n];
          tail := tail[n..];
          return;
        }
      }
      field := seq(if 0 <= n <= ZERO_PAD then n else ZERO_PAD, _ => 0);
    }

    method Skip(n: int)
      modifies this
      ensures State() == old(State()).Skip(n) && steps == old(steps) + 1
    {
      var _ := Take(n);
    }

    /** A big-endian unsigned field of `width` bytes; zero once the reader has failed. */
    method Unsigned(width: nat) returns (u: nat)
      modifies this
      ensures State() == old(State()).Skip(width) && steps == old(steps) + 1
      ensures u == old(State()).Peek(width)
    {
      var field := Take(width);
      if failed { ZerosAreZero(field); }
      u := BigEndian(field);
    }

    method Bool() returns (b: bool)
      modifies this
      ensures State() == old(State()).Skip(1) && steps == old(steps) + 1
      ensures b == (old(State()).Peek(1) != 0)
    {
      var u := Unsigned(1);
      b := u != 0;
    }

    method I64() returns (v: int64)
      modifies this
      ensures State() == old(State()).Skip(8) && steps == old(steps) + 1
      ensures v == ToI64(old(State()).Peek(8))
    {
      var u := Unsigned(8);
      v := ToI64(u);
    }

    method ReadByte() returns (b: Option<byte>)
      modifies this
      ensures State() == old(State()).Skip(1) && steps == old(steps)
      ensures b == if old(State()).At? && old(State()).rest != [] then Some(old(State()).rest[0]) else None
    {
      if failed { return None; }
      if tail == [] {
        failed := true;
        return None;
      }
      b := Some(tail[0]);
      tail := tail[1..];
    }

    /** The decoding loop of ReadVarInt and ReadVarLong. Shifting seven fresh bits past the
        ones gathered and oring them in is addition; the word size truncates the sum. */
    method ReadVar(max: nat, word: int) returns (r: Option<int>)
      requires word > 0
      modifies this
      ensures steps == old(steps)
      ensures var was := old(State());
              match (if was.At? then VarFrom(was.rest, 0, 0, max, word) else None)
              case Some(p) => r == Some(p.0) && State() == At(p.1)
              case None => r == None
    {
      var value: int := 0;
      ghost var was := State();
      for i := 0 to max
        invariant steps == old(steps)
        invariant was.Broken? ==> State().Broken?
        invariant was.At? ==> State().At?
        invariant was.At? ==> VarFrom(was.rest, 0, 0, max, word) == VarFrom(State().rest, i, value, max, word)
      {
        var b := ReadByte();
        if b == None { return None; }
        value := (value + b.value % 128 * Pow128(i)) % word;
        if b.value < 128 { return Some(value); }
      }
      return None;
    }

    method VarInt() returns (v: int32)
      modifies this
      ensures State() == old(State()).AfterVarInt() && steps == old(steps) + 1
      ensures v == old(State()).VarInt()
    {
      steps := steps + 1;
      var r := ReadVar(VARINT_BYTES, WORD32);
      if r == None {
        failed := true;
        return 0;
      }
      v := ToI32(r.value);
    }

    method VarLong() returns (v: int64)
      modifies this
      ensures State() == old(State()).AfterVarLong() && steps == old(steps) + 1
      ensures v == old(State()).VarLong()
    {
      steps := steps + 1;
      var r := ReadVar(VARLONG_BYTES, WORD64);
      if r == None {
        failed := true;
        return 0;
      }
      v := ToI64(r.value);
    }

    method String() returns (text: bytes)
      modifies this
      ensures State() == old(State()).AfterString() && steps <= old(steps) + 2
      ensures text == old(State()).Text()
    {
      var n := VarInt();
      if failed { return []; }
      if n < 0 || n > MAX_STRING_LEN {
        failed := true;
        return [];
      }
      text := Take(n);
      if failed { return []; }
    }
  }
}
