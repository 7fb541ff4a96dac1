/** Machine words as bounded integers.

A word is the integer its two's complement pattern denotes. On that reading an arithmetic
right shift is floor division by a power of two and masking the low bits is the remainder,
which are Dafny's own `/` and `%` for a positive divisor. Go's narrowing conversions are
the wrap-around functions `ToI32` and `ToI64`. */
module Words {
  const WORD32: int := 0x1_0000_0000
  const WORD64: int := 0x1_0000_0000_0000_0000

  type byte = x: int | 0 <= x < 256
  type int32 = x: int | -0x8000_0000 <= x < 0x8000_0000
  type int64 = x: int | -0x8000_0000_0000_0000 <= x < 0x8000_0000_0000_0000

  function ToI32(x: int): (r: int32)
    ensures (r - x) % WORD32 == 0
  {
    var u := x % WORD32;
    if u < WORD32 / 2 then u else u - WORD32
  }

  function ToI64(x: int): (r: int64)
    ensures (r - x) % WORD64 == 0
  {
    var u := x % WORD64;
    if u < WORD64 / 2 then u else u - WORD64
  }

  lemma ToI32Mod(x: int32)
    ensures ToI32(x % WORD32) == x
  {
  }

  lemma ToI64Mod(x: int64)
    ensures ToI64(x % WORD64) == x
  {
  }

  lemma ToI32Id(x: int32)
    ensures ToI32(x) == x
  {
  }

  function Pow2(n: nat): (p: nat)
    ensures p > 0
    decreases n
  {
    if n == 0 then 1 else 2 * Pow2(n - 1)
  }

  lemma {:induction false} Pow2Add(a: nat, b: nat)
    ensures Pow2(a + b) == Pow2(a) * Pow2(b)
    decreases b
  {
    if b != 0 {
      Pow2Add(a, b - 1);
      assert a + b - 1 == a + (b - 1);
    }
  }

  lemma {:induction false} Pow2Monotone(a: nat, b: nat)
    requires a <= b
    ensures Pow2(a) <= Pow2(b)
    decreases b - a
  {
    if a != b {
      Pow2Monotone(a, b - 1);
    }
  }

  lemma Pow2Step(n: nat)
    ensures Pow2(0) == 1 && Pow2(n + 1) == 2 * Pow2(n)
  {
  }

  lemma Pow2Constants()
    ensures Pow2(4) == 16 && Pow2(15) == 32768 && Pow2(32) == WORD32 && Pow2(64) == WORD64
  {
    hide Pow2;
    Pow2Step(0);
    Pow2Step(1);
    Pow2Step(2);
    Pow2Step(3);
    Pow2Add(4, 4);
    Pow2Add(8, 8);
    Pow2Step(15);
    Pow2Add(16, 16);
    Pow2Add(32, 32);
  }

  // ---------------------------------------------------------------- bit fields

  /** The `bits`-wide field at bit `off`: `(w >> off) & (1<<bits - 1)`. */
  function Field(w: int, off: nat, bits: nat): (v: int)
    ensures 0 <= v < Pow2(bits)
  {
    w / Pow2(off) % Pow2(bits)
  }

  /** Overwriting a field: `(w &^ (mask << off)) | ((v & mask) << off)` on 64-bit words.
      Clearing a field subtracts what it held, and oring into a cleared field adds. */
  function WithField(w: int64, off: nat, bits: nat, v: int): int64
  {
    ToI64(w - Field(w, off, bits) * Pow2(off) + v % Pow2(bits) * Pow2(off))
  }

  lemma MulAtLeast(k: int, p: int)
    requires k >= 1 && p >= 0
    ensures k * p >= p
  {
  }

  lemma MulAssoc(a: int, b: int, c: int)
    ensures (a * b) * c == a * (b * c)
  {
  }

  lemma MulSub(a: int, b: int, c: int)
    ensures (a - b) * c == a * c - b * c
  {
  }

  lemma MulAdd(a: int, b: int, c: int)
    ensures (a + b) * c == a * c + b * c
  {
  }

  lemma Euclid(x: int, p: int)
    requires p > 0
    ensures x == x / p * p + x % p && 0 <= x % p < p
  {
  }

  lemma DivUnique(x: int, p: int, q: int, r: int)
    requires p > 0 && 0 <= r < p && x == q * p + r
    ensures x / p == q && x % p == r
  {
    Euclid(x, p);
    SplitUnique(p, q, r, x / p, x % p);
  }

  lemma SplitUnique(p: int, q: int, r: int, q': int, r': int)
    requires 0 <= r < p && 0 <= r' < p && q * p + r == q' * p + r'
    ensures q == q' && r == r'
  {
    MulSub(q, q', p);
    MulSub(q', q, p);
    if q < q' {
      MulAtLeast(q' - q, p);
    } else if q' < q {
      MulAtLeast(q - q', p);
    }
  }

  lemma ShiftAdd(w: int, k: int, p: int)
    requires p > 0
    ensures (w + k * p) / p == w / p + k
    ensures (w + k * p) % p == w % p
  {
    Euclid(w, p);
    DivUnique(w + k * p, p, w / p + k, w % p);
  }

  lemma DivDiv(x: int, p: int, b: int)
    requires p > 0 && b > 0
    ensures p * b > 0 && x / (p * b) == x / p / b
  {
    Euclid(x, p);
    Euclid(x / p, b);
    TwoSteps(x, p, b, x / p, x % p, x / p / b, x / p % b);
  }

  lemma TwoSteps(x: int, p: int, b: int, y: int, r: int, q: int, s: int)
    requires 0 <= r < p && 0 <= s < b && x == y * p + r && y == q * b + s
    ensures p * b > 0 && x / (p * b) == q
  {
    MulAtLeast(b, p);
    DivDivSplit(p, b, s, r);
    Regroup(x, p, b, y, r, q, s);
    DivUnique(x, b * p, q, s * p + r);
  }

  lemma Regroup(x: int, p: int, b: int, y: int, r: int, q: int, s: int)
    requires x == y * p + r && y == q * b + s
    ensures x == q * (b * p) + (s * p + r)
  {
    MulAdd(q * b, s, p);
    MulAssoc(q, b, p);
  }

  lemma DivDivSplit(p: int, b: int, s: int, r: int)
    requires 0 <= s < b && 0 <= r < p
    ensures 0 <= s * p + r < b * p
  {
    MulAtLeast(b - s, p);
    MulSub(b, s, p);
  }

  /** Adding a multiple of a power of two leaves every field below that bit alone. */
  lemma FieldModulo(w: int, k: int, off: nat, bits: nat, top: nat)
    requires off + bits <= top
    ensures Field(w + k * Pow2(top), off, bits) == Field(w, off, bits)
  {
    var rest := top - off - bits;
    Pow2Add(off + bits, rest);
    Pow2Add(off, bits);
    RegroupShift(k, Pow2(off), Pow2(bits), Pow2(rest));
    ShiftAdd(w, k * Pow2(rest) * Pow2(bits), Pow2(off));
    ShiftAdd(w / Pow2(off), k * Pow2(rest), Pow2(bits));
  }

  lemma RegroupShift(k: int, p: int, b: int, q: int)
    ensures k * (p * b * q) == (k * q * b) * p
  {
  }

  /** Writing a field and reading it back; every field that does not overlap it is kept. */
  lemma WithFieldFrame(w: int64, off: nat, bits: nat, v: int, off': nat)
    requires off + bits <= 64 && off' + bits <= 64
    requires off' == off || off' + bits <= off || off + bits <= off'
    ensures Field(WithField(w, off, bits, v), off', bits)
         == if off' == off then v % Pow2(bits) else Field(w, off', bits)
  {
    var d := v % Pow2(bits) - Field(w, off, bits);
    var x := w + d * Pow2(off);
    WithFieldSum(w, off, bits, v);
    WrapKeepsFields(x, off', bits);
    if off' == off {
      FieldRewritten(w, off, bits, v % Pow2(bits));
    } else if off' + bits <= off {
      FieldModulo(w, d, off', bits, off);
    } else {
      HigherFieldKept(w, off, bits, v % Pow2(bits), off');
    }
  }

  lemma WithFieldSum(w: int64, off: nat, bits: nat, v: int)
    ensures WithField(w, off, bits, v) == ToI64(w + (v % Pow2(bits) - Field(w, off, bits)) * Pow2(off))
  {
    MulSub(v % Pow2(bits), Field(w, off, bits), Pow2(off));
  }

  lemma WrapKeepsFields(x: int, off: nat, bits: nat)
    requires off + bits <= 64
    ensures Field(ToI64(x), off, bits) == Field(x, off, bits)
  {
    Pow2Constants();
    var k := (ToI64(x) - x) / WORD64;
    assert ToI64(x) == x + k * WORD64;
    FieldModulo(x, k, off, bits, 64);
  }

  /** Replacing the field's value n-for-f moves the quotient above the field not at all. */
  lemma FieldReplaced(w: int, off: nat, bits: nat, n: int)
    requires 0 <= n < Pow2(bits)
    ensures (w + (n - Field(w, off, bits)) * Pow2(off)) / Pow2(off)
         == w / Pow2(off) / Pow2(bits) * Pow2(bits) + n
  {
    ShiftAdd(w, n - Field(w, off, bits), Pow2(off));
    Euclid(w / Pow2(off), Pow2(bits));
  }

  lemma FieldRewritten(w: int, off: nat, bits: nat, n: int)
    requires 0 <= n < Pow2(bits)
    ensures Field(w + (n - Field(w, off, bits)) * Pow2(off), off, bits) == n
  {
    FieldReplaced(w, off, bits, n);
    DivUnique(w / Pow2(off) / Pow2(bits) * Pow2(bits) + n, Pow2(bits), w / Pow2(off) / Pow2(bits), n);
  }

  lemma HigherFieldKept(w: int, off: nat, bits: nat, n: int, off': nat)
    requires off + bits <= off' && 0 <= n < Pow2(bits)
    ensures Field(w + (n - Field(w, off, bits)) * Pow2(off), off', bits) == Field(w, off', bits)
  {
    var x := w + (n - Field(w, off, bits)) * Pow2(off);
    FieldReplaced(w, off, bits, n);
    DivUnique(x / Pow2(off), Pow2(bits), w / Pow2(off) / Pow2(bits), n);
    ShiftTwice(w, off, bits, off');
    ShiftTwice(x, off, bits, off');
  }

  lemma ShiftTwice(w: int, off: nat, bits: nat, off': nat)
    requires off + bits <= off'
    ensures w / Pow2(off') == w / Pow2(off) / Pow2(bits) / Pow2(off' - off - bits)
  {
    Pow2Add(off, bits);
    Pow2Add(off + bits, off' - off - bits);
    DivDiv(w, Pow2(off), Pow2(bits));
    DivDiv(w, Pow2(off) * Pow2(bits), Pow2(off' - off - bits));
  }

  lemma ZeroField(off: nat, bits: nat)
    ensures Field(0, off, bits) == 0
  {
    DivUnique(0, Pow2(off), 0, 0);
    DivUnique(0, Pow2(bits), 0, 0);
  }
}
