/** Stepping over NBT values without decoding them (`internal/nbt/skip.go`). */
module Nbt {
  import opened Words
  import opened Wire

  const TAG_END: byte := 0
  const TAG_BYTE: byte := 1
  const TAG_SHORT: byte := 2
  const TAG_INT: byte := 3
  const TAG_LONG: byte := 4
  const TAG_FLOAT: byte := 5
  const TAG_DOUBLE: byte := 6
  const TAG_BYTE_ARRAY: byte := 7
  const TAG_STRING: byte := 8
  const TAG_LIST: byte := 9
  const TAG_COMPOUND: byte := 10
  const TAG_INT_ARRAY: byte := 11
  const TAG_LONG_ARRAY: byte := 12
  const MAX_DEPTH := 64

  // --------------------------------------------------------------- the skipper's result

  /** The width of a fixed-width tag, 0 for any other. */
  function FixedWidth(tag: byte): nat {
    if tag == TAG_BYTE then 1
    else if tag == TAG_SHORT then 2
    else if tag == TAG_INT || tag == TAG_FLOAT then 4
    else if tag == TAG_LONG || tag == TAG_DOUBLE then 8
    else 0
  }

  /** The element width of an array tag, 0 for any other. */
  function ElementWidth(tag: byte): nat {
    if tag == TAG_BYTE_ARRAY then 1
    else if tag == TAG_INT_ARRAY then 4
    else if tag == TAG_LONG_ARRAY then 8
    else 0
  }

  function Fixed(data: bytes, n: nat): Option<nat> {
    if |data| < n then None else Some(n)
  }

  function NameSpan(data: bytes): (n: Option<nat>)
    ensures n.Some? ==> 2 <= n.value <= |data|
  {
    if |data| < 2 then None else Fixed(data, 2 + BigEndian(data[..2]))
  }

  function ArrayLength(data: bytes, width: nat): (n: Option<nat>)
    requires width > 0
    ensures n.Some? ==> 4 <= n.value <= |data|
  {
    if |data| < 4 then None
    else
      var count := ToI32(BigEndian(data[..4]));
      if count < 0 || count > (|data| - 4) / width then None
      else
        ArrayBound(count, width, |data| - 4);
        Some(4 + count * width)
  }

  lemma ArrayBound(count: nat, width: nat, room: nat)
    requires width > 0 && count <= room / width
    ensures 0 <= count * width <= room
  {
    Euclid(room, width);
    MulSub(room / width, count, width);
    MulSign(room / width - count, width);
    MulSign(count, width);
  }

  lemma MulSign(a: nat, b: nat)
    ensures 0 <= a * b
  {
  }

  /** Levels of nesting left at a depth. */
  function Levels(depth: nat): nat { if depth <= MAX_DEPTH then MAX_DEPTH + 1 - depth else 0 }

  function PayloadSpan(data: bytes, tag: byte, depth: nat): (n: Option<nat>)
    ensures n.Some? ==> 1 <= n.value <= |data|
    decreases Levels(depth), 1, 0
  {
    if depth > MAX_DEPTH then None
    else if FixedWidth(tag) > 0 then Fixed(data, FixedWidth(tag))
    else if tag == TAG_STRING then NameSpan(data)
    else if ElementWidth(tag) > 0 then ArrayLength(data, ElementWidth(tag))
    else if tag == TAG_LIST then ListSpan(data, depth)
    else if tag == TAG_COMPOUND then EntriesSpan(data, depth + 1)
    else None
  }

  /** A typed list: an element type, a count, that many payloads. A count that is not
      positive means an empty list, whatever its element type. */
  function ListSpan(data: bytes, depth: nat): (n: Option<nat>)
    requires depth <= MAX_DEPTH
    ensures n.Some? ==> 1 <= n.value <= |data|
    decreases Levels(depth), 0, 0
  {
    if |data| < 5 then None
    else
      var count := ToI32(BigEndian(data[1..5]));
      if count <= 0 || data[0] == TAG_END then Some(5)
      else Plus(5, ItemsSpan(data[5..], data[0], count, depth + 1))
  }

  /** The bytes of n payloads of one type. */
  function ItemsSpan(data: bytes, elem: byte, n: nat, depth: nat): (k: Option<nat>)
    ensures k.Some? ==> k.value <= |data|
    decreases Levels(depth), 2, n
  {
    if n == 0 then Some(0)
    else match PayloadSpan(data, elem, depth)
      case None => None
      case Some(m) => Plus(m, ItemsSpan(data[m..], elem, n - 1, depth))
  }

  /** A compound entry after its type byte: a name, then a payload. */
  function NamedSpan(data: bytes, tag: byte, depth: nat): (n: Option<nat>)
    ensures n.Some? ==> 1 <= n.value <= |data|
    decreases Levels(depth), 2, 0
  {
    match NameSpan(data)
    case None => None
    case Some(n) => Plus(n, PayloadSpan(data[n..], tag, depth))
  }

  /** Named entries up to and including the end tag. */
  function EntriesSpan(data: bytes, depth: nat): (n: Option<nat>)
    ensures n.Some? ==> 1 <= n.value <= |data|
    decreases Levels(depth), 3, |data|
  {
    if data == [] then None
    else if data[0] == TAG_END then Some(1)
    else match NamedSpan(data[1..], data[0], depth)
      case None => None
      case Some(n) => Plus(1 + n, EntriesSpan(data[1 + n..], depth))
  }

  function Plus(m: nat, n: Option<nat>): Option<nat> {
    match n case None => None case Some(k) => Some(m + k)
  }

  /** A nameless root: a type byte followed straight by the payload. */
  function TagSpan(data: bytes): (n: Option<nat>)
    ensures n.Some? ==> 1 <= n.value <= |data|
  {
    if data == [] then None
    else if data[0] == TAG_END then Some(1)
    else Plus(1, PayloadSpan(data[1..], data[0], 0))
  }

  // ---------------------------------------------------------------- the values encoded

  /** NBT payloads. `Header` is a list without elements, whose element type and count are
      only constrained by being one the reader treats as empty. */
  datatype Tree =
    | Scalar(tag: byte, raw: bytes)
    | Text(chars: bytes)
    | Array(kind: byte, length: nat, cells: bytes)
    | Header(declared: byte, count: bytes)
    | Items(elem: byte, items: Trees)
    | Compound(entries: Entries)

  datatype Trees = Nil | Cons(head: Tree, tail: Trees)

  datatype Entries = End | Entry(name: bytes, value: Tree, rest: Entries)

  function Length(items: Trees): nat {
    match items case Nil => 0 case Cons(_, tail) => 1 + Length(tail)
  }

  function TagOf(t: Tree): byte {
    match t
    case Scalar(tag, _) => tag
    case Text(_) => 8
    case Array(kind, _, _) => kind
    case Header(_, _) => 9
    case Items(_, _) => 9
    case Compound(_) => 10
  }

  /** Bytes, shorts, ints and floats, longs and doubles. */
  predicate ScalarSize(tag: byte, n: nat) {
    (tag == 1 && n == 1) || (tag == 2 && n == 2) || ((tag == 3 || tag == 5) && n == 4)
    || ((tag == 4 || tag == 6) && n == 8)
  }

  /** Arrays of bytes, ints and longs. */
  predicate ArraySize(kind: byte, count: nat, n: nat) {
    (kind == 7 && n == count) || (kind == 11 && n == 4 * count) || (kind == 12 && n == 8 * count)
  }

  ghost predicate Fits(t: Tree, depth: nat)
  {
    && depth <= 64
    && match t
       case Scalar(tag, raw) => ScalarSize(tag, |raw|)
       case Text(chars) => |chars| < 0x1_0000
       case Array(kind, count, cells) => count < 0x8000_0000 && ArraySize(kind, count, |cells|)
       case Header(declared, count) => |count| == 4 && (ToI32(BigEndian(count)) <= 0 || declared == 0)
       case Items(elem, items) =>
         elem != 0 && 0 < Length(items) < 0x8000_0000 && ItemsFit(items, elem, depth + 1)
       case Compound(entries) => EntriesFit(entries, depth + 1)
  }

  ghost predicate ItemsFit(items: Trees, elem: byte, depth: nat)
  {
    match items
    case Nil => true
    case Cons(head, tail) => TagOf(head) == elem && Fits(head, depth) && ItemsFit(tail, elem, depth)
  }

  ghost predicate EntriesFit(entries: Entries, depth: nat)
  {
    match entries
    case End => true
    case Entry(name, value, rest) => |name| < 0x1_0000 && Fits(value, depth) && EntriesFit(rest, depth)
  }

  function NameBytes(name: bytes): bytes { BigEndianBytes(|name|, 2) + name }

  function Payload(t: Tree): bytes
  {
    match t
    case Scalar(_, raw) => raw
    case Text(chars) => NameBytes(chars)
    case Array(_, count, cells) => BigEndianBytes(count, 4) + cells
    case Header(declared, count) => [declared] + count
    case Items(elem, items) => [elem] + BigEndianBytes(Length(items), 4) + ItemsPayload(items)
    case Compound(entries) => EntriesPayload(entries)
  }

  function ItemsPayload(items: Trees): bytes
  {
    match items
    case Nil => []
    case Cons(head, tail) => Payload(head) + ItemsPayload(tail)
  }

  function EntriesPayload(entries: Entries): bytes
  {
    match entries
    case End => [0]
    case Entry(name, value, rest) => [TagOf(value)] + (NameBytes(name) + Payload(value)) + EntriesPayload(rest)
  }

  function RootBytes(root: Option<Tree>): bytes {
    match root case None => [0] case Some(t) => [TagOf(t)] + Payload(t)
  }

  ghost predicate RootFits(root: Option<Tree>) { root.Some? ==> Fits(root.value, 0) }

  // ------------------------------------------------------ encodings are stepped over

  lemma NameSkipped(name: bytes, suffix: bytes)
    requires |name| < 0x1_0000
    ensures NameSpan(NameBytes(name) + suffix) == Some(|NameBytes(name)|)
  {
    assert (NameBytes(name) + suffix)[..2] == BigEndianBytes(|name|, 2);
    assert Pow256(2) == 0x1_0000;
    BigEndianRoundTrip(|name|, 2);
  }

  lemma CountRead(n: nat, before: bytes, after: bytes)
    requires n < WORD32 / 2
    ensures var s := before + BigEndianBytes(n, 4) + after;
            |s| >= |before| + 4 && ToI32(BigEndian(s[|before|..|before| + 4])) == n
  {
    var s := before + BigEndianBytes(n, 4) + after;
    assert s[|before|..|before| + 4] == BigEndianBytes(n, 4);
    assert Pow256(4) == WORD32;
    BigEndianRoundTrip(n, 4);
  }

  lemma ArraySkipped(kind: byte, count: nat, cells: bytes, suffix: bytes)
    requires count < 0x8000_0000 && ArraySize(kind, count, |cells|)
    ensures ElementWidth(kind) > 0 && FixedWidth(kind) == 0 && kind != TAG_STRING
    ensures ArrayLength(BigEndianBytes(count, 4) + cells + suffix, ElementWidth(kind)) == Some(4 + |cells|)
  {
    hide BigEndian, BigEndianBytes;
    var data := BigEndianBytes(count, 4) + cells + suffix;
    assert data == [] + BigEndianBytes(count, 4) + (cells + suffix);
    CountRead(count, [], cells + suffix);
    var width := ElementWidth(kind);
    assert |cells| == count * width;
    RoomFor(count, width, |data| - 4);
  }

  lemma RoomFor(count: nat, width: nat, room: nat)
    requires width > 0 && count * width <= room
    ensures count <= room / width
  {
    ShiftAdd(room - count * width, count, width);
  }

  lemma LeafSkipped(t: Tree, depth: nat, suffix: bytes)
    requires Fits(t, depth) && !t.Items? && !t.Compound?
    ensures PayloadSpan(Payload(t) + suffix, TagOf(t), depth) == Some(|Payload(t)|)
  {
    match t
    case Scalar(_, _) =>
    case Text(chars) => NameSkipped(chars, suffix);
    case Array(kind, count, cells) => ArraySkipped(kind, count, cells, suffix);
    case Header(declared, count) => HeaderSkipped(declared, count, suffix, depth);
  }

  lemma HeaderSkipped(declared: byte, count: bytes, suffix: bytes, depth: nat)
    requires |count| == 4 && (ToI32(BigEndian(count)) <= 0 || declared == TAG_END) && depth <= MAX_DEPTH
    ensures ListSpan([declared] + count + suffix, depth) == Some(5)
  {
    assert ([declared] + count + suffix)[1..5] == count;
  }

  lemma {:induction false} PayloadSkipped(t: Tree, depth: nat, suffix: bytes)
    requires Fits(t, depth)
    ensures PayloadSpan(Payload(t) + suffix, TagOf(t), depth) == Some(|Payload(t)|)
    decreases t, 0
  {
    hide ListSpan, EntriesSpan, EntriesPayload, ItemsPayload, ItemsFit, EntriesFit, BigEndianBytes, Length;
    match t
    case Items(elem, items) =>
      ItemsSkipped(items, elem, depth + 1, suffix);
      ListHeader(elem, Length(items), ItemsPayload(items) + suffix, depth);
      assert Payload(t) + suffix == [elem] + BigEndianBytes(Length(items), 4) + (ItemsPayload(items) + suffix);
    case Compound(entries) => EntriesSkipped(entries, depth + 1, suffix);
    case _ => LeafSkipped(t, depth, suffix);
  }

  lemma ListHeader(elem: byte, n: nat, rest: bytes, depth: nat)
    requires elem != TAG_END && 0 < n < WORD32 / 2 && depth <= MAX_DEPTH
    ensures ListSpan([elem] + BigEndianBytes(n, 4) + rest, depth) == Plus(5, ItemsSpan(rest, elem, n, depth + 1))
  {
    var data := [elem] + BigEndianBytes(n, 4) + rest;
    CountRead(n, [elem], rest);
    assert data[5..] == rest;
  }

  lemma {:induction false} ItemsSkipped(items: Trees, elem: byte, depth: nat, suffix: bytes)
    requires ItemsFit(items, elem, depth)
    ensures ItemsSpan(ItemsPayload(items) + suffix, elem, Length(items), depth) == Some(|ItemsPayload(items)|)
    decreases items
  {
    match items
    case Nil =>
    case Cons(head, tail) =>
      ItemsSkipped(tail, elem, depth, suffix);
      PayloadSkipped(head, depth, ItemsPayload(tail) + suffix);
      Parts(Payload(head), ItemsPayload(tail), suffix);
  }

  lemma Parts(a: bytes, b: bytes, suffix: bytes)
    ensures a + b + suffix == a + (b + suffix) && (a + b + suffix)[|a|..] == b + suffix
  {
  }

  lemma {:induction false} NamedSkipped(name: bytes, value: Tree, depth: nat, suffix: bytes)
    requires |name| < 0x1_0000 && Fits(value, depth)
    ensures NamedSpan(NameBytes(name) + Payload(value) + suffix, TagOf(value), depth)
         == Some(|NameBytes(name) + Payload(value)|)
    decreases value, 1
  {
    NameSkipped(name, Payload(value) + suffix);
    PayloadSkipped(value, depth, suffix);
    Parts(NameBytes(name), Payload(value), suffix);
  }

  lemma {:induction false} EntriesSkipped(entries: Entries, depth: nat, suffix: bytes)
    requires EntriesFit(entries, depth)
    ensures EntriesSpan(EntriesPayload(entries) + suffix, depth) == Some(|EntriesPayload(entries)|)
    decreases entries
  {
    hide EntriesSpan, NamedSpan, Payload, NameBytes, Fits, TagOf;
    match entries
    case End => EndTag(suffix, depth);
    case Entry(name, value, rest) =>
      EntriesSkipped(rest, depth, suffix);
      NamedSkipped(name, value, depth, EntriesPayload(rest) + suffix);
      TagNotEnd(value, depth);
      EntryStep(TagOf(value), NameBytes(name) + Payload(value), EntriesPayload(rest), suffix, depth);
  }

  lemma EndTag(suffix: bytes, depth: nat)
    ensures EntriesSpan([TAG_END] + suffix, depth) == Some(1)
  {
  }

  lemma EntryStep(tag: byte, named: bytes, tail: bytes, suffix: bytes, depth: nat)
    requires tag != TAG_END && NamedSpan(named + (tail + suffix), tag, depth) == Some(|named|)
    requires EntriesSpan(tail + suffix, depth) == Some(|tail|)
    ensures EntriesSpan([tag] + named + tail + suffix, depth) == Some(1 + |named| + |tail|)
  {
    hide NamedSpan;
    var data := [tag] + named + tail + suffix;
    assert data[1..] == named + (tail + suffix);
    assert data[1 + |named|..] == tail + suffix;
  }

  lemma TagNotEnd(t: Tree, depth: nat)
    requires Fits(t, depth)
    ensures TagOf(t) != TAG_END
  {
  }

  // --------------------------------------------- and nothing else is stepped over

  /** Every payload the skipper accepts is the encoding of a value within the depth bound. */
  lemma {:induction false} PayloadIsEncoding(data: bytes, tag: byte, depth: nat) returns (t: Tree)
    requires PayloadSpan(data, tag, depth).Some?
    ensures TagOf(t) == tag && Fits(t, depth)
    ensures var n := PayloadSpan(data, tag, depth).value; 1 <= n <= |data| && Payload(t) == data[..n]
    decreases Levels(depth), 1, 0
  {
    if FixedWidth(tag) > 0 {
      t := Scalar(tag, data[..FixedWidth(tag)]);
    } else if tag == TAG_STRING {
      NameIsEncoding(data);
      t := Text(data[2..NameSpan(data).value]);
    } else if ElementWidth(tag) > 0 {
      t := ArrayIsEncoding(data, tag);
    } else if tag == TAG_LIST {
      var count := ToI32(BigEndian(data[1..5]));
      if count <= 0 || data[0] == TAG_END {
        t := Header(data[0], data[1..5]);
        assert data[..5] == [data[0]] + data[1..5];
      } else {
        var items := ItemsAreEncodings(data[5..], data[0], count, depth + 1);
        t := Items(data[0], items);
        ListIsEncoding(data, items);
      }
    } else {
      var entries := EntriesAreEncodings(data, depth + 1);
      t := Compound(entries);
    }
  }

  lemma ListIsEncoding(data: bytes, items: Trees)
    requires |data| >= 5 && ToI32(BigEndian(data[1..5])) == Length(items)
    requires 0 < Length(items) && |ItemsPayload(items)| <= |data| - 5
    requires ItemsPayload(items) == data[5..][..|ItemsPayload(items)|]
    ensures Payload(Items(data[0], items)) == data[..5 + |ItemsPayload(items)|]
  {
    CountIsEncoding(data[1..5]);
    assert data[..5 + |ItemsPayload(items)|] == [data[0]] + data[1..5] + data[5..][..|ItemsPayload(items)|];
  }

  lemma {:induction false} BigEndianInverts(s: bytes)
    ensures BigEndianBytes(BigEndian(s), |s|) == s
    decreases |s|
  {
    if s != [] {
      BigEndianInverts(s[..|s| - 1]);
      assert s == s[..|s| - 1] + [s[|s| - 1]];
      DivUnique(BigEndian(s), 256, BigEndian(s[..|s| - 1]), s[|s| - 1]);
    }
  }

  lemma CountIsEncoding(s: bytes)
    requires |s| == 4 && ToI32(BigEndian(s)) >= 0
    ensures BigEndianBytes(ToI32(BigEndian(s)), 4) == s
  {
    assert Pow256(4) == WORD32;
    var u := BigEndian(s);
    assert ToI32(u) == u;
    BigEndianInverts(s);
  }

  lemma NameIsEncoding(data: bytes)
    requires NameSpan(data).Some?
    ensures var n := NameSpan(data).value;
            2 <= n <= |data| && n - 2 < 0x1_0000 && NameBytes(data[2..n]) == data[..n]
  {
    var n := NameSpan(data).value;
    assert Pow256(2) == 0x1_0000;
    BigEndianInverts(data[..2]);
    assert data[..n] == data[..2] + data[2..n];
  }

  lemma ArrayIsEncoding(data: bytes, tag: byte) returns (t: Tree)
    requires ElementWidth(tag) > 0 && ArrayLength(data, ElementWidth(tag)).Some?
    ensures TagOf(t) == tag && Fits(t, 0) && t.Array?
    ensures var n := ArrayLength(data, ElementWidth(tag)).value; 4 <= n <= |data| && Payload(t) == data[..n]
  {
    var n, count, width := ArrayLength(data, ElementWidth(tag)).value, ToI32(BigEndian(data[..4])), ElementWidth(tag);
    assert n <= |data|;
    t := Array(tag, count, data[4..n]);
    CountIsEncoding(data[..4]);
    assert data[..n] == data[..4] + data[4..n];
  }

  lemma {:induction false} ItemsAreEncodings(data: bytes, elem: byte, n: nat, depth: nat) returns (items: Trees)
    requires ItemsSpan(data, elem, n, depth).Some?
    ensures Length(items) == n && ItemsFit(items, elem, depth)
    ensures var m := ItemsSpan(data, elem, n, depth).value; m <= |data| && ItemsPayload(items) == data[..m]
    decreases Levels(depth), 2, n
  {
    items := Nil;
    if n > 0 {
      var t := PayloadIsEncoding(data, elem, depth);
      var m := PayloadSpan(data, elem, depth).value;
      var rest := ItemsAreEncodings(data[m..], elem, n - 1, depth);
      items := Cons(t, rest);
      Joined(data, m, |ItemsPayload(rest)|);
    }
  }

  lemma Joined(data: bytes, m: nat, k: nat)
    requires m + k <= |data|
    ensures data[..m + k] == data[..m] + data[m..][..k]
  {
  }

  lemma {:induction false} NamedIsEncoding(data: bytes, tag: byte, depth: nat) returns (name: bytes, value: Tree)
    requires NamedSpan(data, tag, depth).Some?
    ensures |name| < 0x1_0000 && TagOf(value) == tag && Fits(value, depth)
    ensures var n := NamedSpan(data, tag, depth).value;
            3 <= n <= |data| && NameBytes(name) + Payload(value) == data[..n]
    decreases Levels(depth), 2, 0
  {
    NameIsEncoding(data);
    var n := NameSpan(data).value;
    name := data[2..n];
    value := PayloadIsEncoding(data[n..], tag, depth);
    Joined(data, n, |Payload(value)|);
  }

  lemma {:induction false} EntriesAreEncodings(data: bytes, depth: nat) returns (entries: Entries)
    requires EntriesSpan(data, depth).Some?
    ensures EntriesFit(entries, depth)
    ensures var m := EntriesSpan(data, depth).value; 1 <= m <= |data| && EntriesPayload(entries) == data[..m]
    decreases Levels(depth), 3, |data|
  {
    hide EntriesSpan, EntriesWork, NamedSpan, NamedWork, Payload, Fits;
    EntriesUnfold(data, depth);
    entries := End;
    if data[0] == TAG_END {
      assert data[..1] == [TAG_END];
    } else {
      var name, value := NamedIsEncoding(data[1..], data[0], depth);
      var n := NamedSpan(data[1..], data[0], depth).value;
      var rest := EntriesAreEncodings(data[1 + n..], depth);
      entries := Entry(name, value, rest);
      ThreeParts(data, n, |EntriesPayload(rest)|);
    }
  }

  lemma ThreeParts(data: bytes, n: nat, k: nat)
    requires 1 + n + k <= |data|
    ensures data[..1 + n + k] == [data[0]] + data[1..][..n] + data[1 + n..][..k]
  {
  }

  lemma SpansAreRoots(data: bytes)
    requires TagSpan(data).Some?
    ensures IsRoot(data[..TagSpan(data).value])
  {
    hide PayloadSpan, Payload, Fits;
    var n := TagSpan(data).value;
    if data[0] == TAG_END {
      assert RootFits(None) && RootBytes(None) == data[..n];
    } else {
      var t := PayloadIsEncoding(data[1..], data[0], 0);
      assert data[..n] == [data[0]] + data[1..][..n - 1];
      assert RootFits(Some(t)) && RootBytes(Some(t)) == data[..n];
    }
  }

  lemma RootsAreSpanned(data: bytes, n: nat)
    requires n <= |data| && IsRoot(data[..n])
    ensures TagSpan(data) == Some(n)
  {
    hide TagSpan, RootBytes, RootFits;
    var root :| RootFits(root) && RootBytes(root) == data[..n];
    RootSkipped(root, data[n..]);
    assert data == data[..n] + data[n..];
  }

  /** TagSpan succeeds with n exactly when the first n bytes encode a value within the bound. */
  lemma TagSpanIff(data: bytes, n: nat)
    ensures TagSpan(data) == Some(n) <==> n <= |data| && IsRoot(data[..n])
  {
    hide TagSpan, IsRoot;
    if TagSpan(data) == Some(n) { SpansAreRoots(data); }
    if n <= |data| && IsRoot(data[..n]) { RootsAreSpanned(data, n); }
  }

  /** The bytes of one complete value within the depth bound. */
  ghost predicate IsRoot(data: bytes)
  {
    exists root: Option<Tree> :: RootFits(root) && RootBytes(root) == data
  }

  lemma RootSkipped(root: Option<Tree>, suffix: bytes)
    requires RootFits(root)
    ensures TagSpan(RootBytes(root) + suffix) == Some(|RootBytes(root)|)
  {
    hide PayloadSpan, Payload, Fits;
    if root.Some? {
      assert (RootBytes(root) + suffix)[1..] == Payload(root.value) + suffix;
      PayloadSkipped(root.value, 0, suffix);
      TagNotEnd(root.value, 0);
    }
  }

  /** A prefix-free code: a success depends on the bytes it spans and on no others, and no
      strict prefix of those bytes is itself a value. */
  lemma PrefixFree(data: bytes, data': bytes)
    requires TagSpan(data).Some?
    ensures var n := TagSpan(data).value;
            && 1 <= n <= |data|
            && (n <= |data'| && data'[..n] == data[..n] ==> TagSpan(data') == Some(n))
            && (data' < data[..n] ==> TagSpan(data') == None)
  {
    var n := TagSpan(data).value;
    TagSpanIff(data, n);
    TagSpanIff(data', n);
    if data' < data[..n] && TagSpan(data').Some? {
      var m := TagSpan(data').value;
      TagSpanIff(data', m);
      assert data[..m] == data'[..m];
      TagSpanIff(data, m);
    }
  }

  // ------------------------------------------------------------ the skippers themselves

  method SkipTag(data: bytes) returns (n: Option<nat>, ghost work: nat)
    ensures n == TagSpan(data) && work == TagWork(data)
  {
    work := 0;
    if |data| == 0 { return None, work; }
    var tag := data[0];
    if tag == TAG_END { return Some(1), work; }
    n, work := SkipPayload(data[1..], tag, 0);
    if n == None { return; }
    n := Some(n.value + 1);
  }

  method SkipPayload(data: bytes, tag: byte, depth: nat) returns (n: Option<nat>, ghost work: nat)
    ensures n == PayloadSpan(data, tag, depth) && work == PayloadWork(data, tag, depth)
    decreases Levels(depth), 1
  {
    work := 1;
    if depth > MAX_DEPTH { return None, work; }
    if FixedWidth(tag) > 0 { return Fixed(data, FixedWidth(tag)), work; }
    if tag == TAG_STRING { return NameSpan(data), work; }
    if ElementWidth(tag) > 0 { return ArrayLength(data, ElementWidth(tag)), work; }
    if tag == TAG_LIST {
      n, work := SkipList(data, depth);
      work := work + 1;
    } else if tag == TAG_COMPOUND {
      n, work := SkipCompound(data, depth);
      work := work + 1;
    } else {
      return None, work;
    }
  }

  method SkipList(data: bytes, depth: nat) returns (n: Option<nat>, ghost work: nat)
    requires depth <= MAX_DEPTH
    ensures n == ListSpan(data, depth) && work == ListWork(data, depth)
    decreases Levels(depth), 0
  {
    hide ItemsSpan, ItemsWork, PayloadSpan, PayloadWork;
    work := 0;
    if |data| < 5 { return None, work; }
    var elem, count := data[0], ToI32(BigEndian(data[1..5]));
    var off := 5;
    if count <= 0 || elem == TAG_END { return Some(off), work; }
    for i := 0 to count
      invariant 5 <= off <= |data|
      invariant ListSpan(data, depth) == Plus(off, ItemsSpan(data[off..], elem, count - i, depth + 1))
      invariant ListWork(data, depth) == work + ItemsWork(data[off..], elem, count - i, depth + 1)
    {
      ItemsStep(data, off, elem, count - i, depth + 1);
      var m, w := SkipPayload(data[off..], elem, depth + 1);
      work := work + w;
      if m == None { return None, work; }
      off := off + m.value;
    }
    ItemsDone(data[off..], elem, depth + 1);
    return Some(off), work;
  }

  lemma ItemsDone(data: bytes, elem: byte, depth: nat)
    ensures ItemsSpan(data, elem, 0, depth) == Some(0) && ItemsWork(data, elem, 0, depth) == 0
  {
  }

  lemma ItemsStep(data: bytes, off: nat, elem: byte, k: nat, depth: nat)
    requires off <= |data| && k > 0
    ensures var w := PayloadWork(data[off..], elem, depth);
            match PayloadSpan(data[off..], elem, depth)
            case None => ItemsSpan(data[off..], elem, k, depth) == None && ItemsWork(data[off..], elem, k, depth) == w
            case Some(m) =>
              && ItemsSpan(data[off..], elem, k, depth) == Plus(m, ItemsSpan(data[off + m..], elem, k - 1, depth))
              && ItemsWork(data[off..], elem, k, depth) == w + ItemsWork(data[off + m..], elem, k - 1, depth)
  {
    hide PayloadSpan, PayloadWork;
    match PayloadSpan(data[off..], elem, depth)
    case None =>
    case Some(m) => assert data[off..][m..] == data[off + m..];
  }

  method SkipCompound(data: bytes, depth: nat) returns (n: Option<nat>, ghost work: nat)
    requires depth <= MAX_DEPTH
    ensures n == EntriesSpan(data, depth + 1) && work == EntriesWork(data, depth + 1)
    decreases Levels(depth), 0
  {
    hide EntriesSpan, EntriesWork, NamedSpan, NamedWork, NameSpan, PayloadSpan, PayloadWork;
    var off := 0;
    work := 0;
    assert data[0..] == data;
    while true
      invariant 0 <= off <= |data|
      invariant EntriesSpan(data, depth + 1) == Plus(off, EntriesSpan(data[off..], depth + 1))
      invariant EntriesWork(data, depth + 1) == work + EntriesWork(data[off..], depth + 1)
      decreases |data| - off
    {
      EntriesStep(data, off, depth + 1);
      work := work + 1;
      if off >= |data| { return None, work; }
      var inner := data[off];
      off := off + 1;
      if inner == TAG_END { return Some(off), work; }
      var name := NameSpan(data[off..]);
      if name == None { return None, work; }
      off := off + name.value;
      var m, w := SkipPayload(data[off..], inner, depth + 1);
      work := work + w;
      if m == None { return None, work; }
      off := off + m.value;
    }
  }

  lemma Offsets(data: bytes, off: nat, n: nat)
    requires off + 1 + n <= |data|
    ensures data[off..][1 + n..] == data[off + 1 + n..] && data[off + 1..][n..] == data[off + 1 + n..]
  {
  }

  lemma EntriesUnfold(rest: bytes, depth: nat)
    ensures rest == [] ==> EntriesSpan(rest, depth) == None && EntriesWork(rest, depth) == 1
    ensures rest != [] && rest[0] == TAG_END ==> EntriesSpan(rest, depth) == Some(1) && EntriesWork(rest, depth) == 1
    ensures rest != [] && rest[0] != TAG_END ==>
              var w := 1 + NamedWork(rest[1..], rest[0], depth);
              match NamedSpan(rest[1..], rest[0], depth)
              case None => EntriesSpan(rest, depth) == None && EntriesWork(rest, depth) == w
              case Some(n) =>
                && EntriesSpan(rest, depth) == Plus(1 + n, EntriesSpan(rest[1 + n..], depth))
                && EntriesWork(rest, depth) == w + EntriesWork(rest[1 + n..], depth)
  {
    hide NamedSpan, NamedWork;
  }

  /** One turn of the compound loop, from an entry's type byte to the next one's. */
  lemma EntriesStep(data: bytes, off: nat, depth: nat)
    requires off <= |data|
    ensures off == |data| ==> EntriesSpan(data[off..], depth) == None && EntriesWork(data[off..], depth) == 1
    ensures off < |data| && data[off] == TAG_END ==>
              EntriesSpan(data[off..], depth) == Some(1) && EntriesWork(data[off..], depth) == 1
    ensures off < |data| && data[off] != TAG_END ==>
              match NameSpan(data[off + 1..])
              case None => EntriesSpan(data[off..], depth) == None && EntriesWork(data[off..], depth) == 1
              case Some(n) =>
                var at := off + 1 + n;
                var w := 1 + PayloadWork(data[at..], data[off], depth);
                match PayloadSpan(data[at..], data[off], depth)
                case None => EntriesSpan(data[off..], depth) == None && EntriesWork(data[off..], depth) == w
                case Some(m) =>
                  && EntriesSpan(data[off..], depth) == Plus(1 + n + m, EntriesSpan(data[at + m..], depth))
                  && EntriesWork(data[off..], depth) == w + EntriesWork(data[at + m..], depth)
  {
    hide PayloadSpan, PayloadWork, NameSpan, EntriesSpan, EntriesWork;
    var rest := data[off..];
    EntriesUnfold(rest, depth);
    if off < |data| && data[off] != TAG_END {
      assert rest[1..] == data[off + 1..];
      match NameSpan(data[off + 1..])
      case None =>
      case Some(n) =>
        var at := off + 1 + n;
        Offsets(data, off, n);
        match PayloadSpan(data[at..], data[off], depth)
        case None =>
        case Some(m) => Offsets(data, off, n + m);
    }
  }

  // ------------------------------------------------------------------------ their work

  /** Payloads visited and compound entries begun, wherever the walk stops. */
  ghost function PayloadWork(data: bytes, tag: byte, depth: nat): nat
    decreases Levels(depth), 1, 0
  {
    if depth > MAX_DEPTH then 1
    else if tag == TAG_LIST then 1 + ListWork(data, depth)
    else if tag == TAG_COMPOUND then 1 + EntriesWork(data, depth + 1)
    else 1
  }

  ghost function ListWork(data: bytes, depth: nat): nat
    requires depth <= MAX_DEPTH
    decreases Levels(depth), 0, 0
  {
    if |data| < 5 || ToI32(BigEndian(data[1..5])) <= 0 || data[0] == TAG_END then 0
    else ItemsWork(data[5..], data[0], ToI32(BigEndian(data[1..5])), depth + 1)
  }

  ghost function ItemsWork(data: bytes, elem: byte, n: nat, depth: nat): nat
    decreases Levels(depth), 2, n
  {
    if n == 0 then 0
    else
      PayloadWork(data, elem, depth) +
      match PayloadSpan(data, elem, depth)
      case None => 0
      case Some(m) => ItemsWork(data[m..], elem, n - 1, depth)
  }

  ghost function NamedWork(data: bytes, tag: byte, depth: nat): nat
    decreases Levels(depth), 2, 0
  {
    match NameSpan(data)
    case None => 0
    case Some(n) => PayloadWork(data[n..], tag, depth)
  }

  ghost function EntriesWork(data: bytes, depth: nat): nat
    decreases Levels(depth), 3, |data|
  {
    if data == [] || data[0] == TAG_END then 1
    else
      1 + NamedWork(data[1..], data[0], depth) +
      match NamedSpan(data[1..], data[0], depth)
      case None => 0
      case Some(n) => EntriesWork(data[1 + n..], depth)
  }

  ghost function TagWork(data: bytes): nat {
    if data == [] || data[0] == TAG_END then 0 else PayloadWork(data[1..], data[0], 0)
  }

  /** Work against bytes: twice the bytes spanned on success, twice the bytes there on failure. */
  ghost predicate Paid(work: nat, data: bytes, span: Option<nat>, slack: nat)
  {
    match span case Some(n) => work <= 2 * n case None => work <= 2 * |data| + slack
  }

  lemma {:induction false} PayloadWorkPaid(data: bytes, tag: byte, depth: nat)
    ensures Paid(PayloadWork(data, tag, depth), data, PayloadSpan(data, tag, depth), 2)
    decreases Levels(depth), 1, 0
  {
    if depth <= MAX_DEPTH {
      if tag == TAG_LIST && |data| >= 5 && ToI32(BigEndian(data[1..5])) > 0 {
        ItemsWorkPaid(data[5..], data[0], ToI32(BigEndian(data[1..5])), depth + 1);
      } else if tag == TAG_COMPOUND {
        EntriesWorkPaid(data, depth + 1);
      }
    }
  }

  lemma {:induction false} ItemsWorkPaid(data: bytes, elem: byte, n: nat, depth: nat)
    ensures Paid(ItemsWork(data, elem, n, depth), data, ItemsSpan(data, elem, n, depth), 2)
    decreases Levels(depth), 2, n
  {
    if n > 0 {
      PayloadWorkPaid(data, elem, depth);
      match PayloadSpan(data, elem, depth)
      case None =>
      case Some(m) => ItemsWorkPaid(data[m..], elem, n - 1, depth);
    }
  }

  lemma {:induction false} EntriesWorkPaid(data: bytes, depth: nat)
    ensures Paid(EntriesWork(data, depth) + 1, data, EntriesSpan(data, depth), 2)
    decreases Levels(depth), 3, |data|
  {
    if data != [] && data[0] != TAG_END {
      match NameSpan(data[1..])
      case None =>
      case Some(n) => PayloadWorkPaid(data[1..][n..], data[0], depth);
      match NamedSpan(data[1..], data[0], depth)
      case None =>
      case Some(n) => EntriesWorkPaid(data[1 + n..], depth);
    }
  }

  /** Stepping over a tag is linear in the buffer, malformed or not. */
  lemma TagWorkPaid(data: bytes)
    ensures Paid(TagWork(data), data, TagSpan(data), 2)
  {
    if data != [] {
      PayloadWorkPaid(data[1..], data[0], 0);
    }
  }
}
