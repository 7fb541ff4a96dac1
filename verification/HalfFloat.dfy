/** The half-precision floats the client writes (`protocol/writer.go`, float16bits): formats in
section 3.4 and rounding to nearest in section 4.3.1 of IEEE 754-2019. Values are counted in
units of 2^-149, the smallest float32, so that every finite value of both formats is an
integer. */
module HalfFloat {
  import opened Words

  const F32_MANTISSA := 0x80_0000
  const HALF_INFINITY := 0x7c00
  const HALF_NAN := 0x7e00
  const SIGN_BIT := 0x8000

  /** The magnitude of a finite float32, from its exponent and mantissa fields. */
  function SingleValue(exponent: nat, mantissa: nat): nat {
    if exponent == 0 then mantissa else (0x80_0000 + mantissa) * Pow2(exponent - 1)
  }

  /** The magnitude of a half, from its fifteen bits; infinity counts as 65536, one step
      past the largest finite value. */
  function HalfValue(h: nat): nat {
    if h < 1024 then h * Pow2(125) else (1024 + h % 1024) * Pow2(h / 1024 + 124)
  }

  // -------------------------------------------------------------------------- rounding

  /** A right shift that rounds on the last bit shifted out. */
  function RoundShift(m: int, shift: nat): int
    requires shift > 0
  {
    m / Pow2(shift) + m / Pow2(shift - 1) % 2
  }

  /** The fifteen magnitude bits. */
  function Magnitude(exponent: nat, mantissa: nat): int {
    var exp := exponent - 112;
    if exp >= 31 then (if exponent == 255 && mantissa != 0 then HALF_NAN else HALF_INFINITY)
    else if exp < -10 then 0
    else if exp <= 0 then RoundShift(F32_MANTISSA + mantissa, 14 - exp)
    else exp * 1024 + RoundShift(mantissa, 13)
  }

  method Float16Bits(bits: nat) returns (half: int)
    requires bits < WORD32
    ensures half == bits / 0x8000_0000 * 0x8000 + Magnitude(bits / 0x80_0000 % 256, bits % 0x80_0000)
  {
    var sign := if bits / 0x8000_0000 == 1 then SIGN_BIT else 0;
    var field := bits / F32_MANTISSA % 256;
    hide *;
    var magnitude := Float16Magnitude(field, bits % F32_MANTISSA);
    half := sign + magnitude;
  }

  method Float16Magnitude(field: nat, mantissa: nat) returns (half: int)
    ensures half == Magnitude(field, mantissa)
  {
    Powers();
    hide Pow2;
    var exp, m := field - 127 + 15, mantissa;
    if exp >= 0x1f {
      if field == 0xff && m != 0 { return 0x7e00; }
      return 0x7c00;
    } else if exp <= 0 {
      if exp < -10 { return 0; }
      m := m + F32_MANTISSA;
      var shift := 14 - exp;
      half := m / Pow2(shift);
      if m / Pow2(shift - 1) % 2 != 0 { half := half + 1; }
    } else {
      half := exp * 1024 + m / 0x2000;
      if m / 0x1000 % 2 != 0 { half := half + 1; }
    }
  }

  /** What is not finite: infinity is written as infinity, and anything else as one NaN. */
  lemma NotFinite(mantissa: nat)
    ensures Magnitude(255, mantissa) == if mantissa == 0 then 0x7c00 else 0x7e00
  {
  }

  lemma Powers()
    ensures Pow2(10) == 1024 && Pow2(12) == 0x1000 && Pow2(13) == 0x2000 && Pow2(23) == F32_MANTISSA
    ensures Pow2(24) == 2 * F32_MANTISSA
  {
    assert Pow2(5) == 32;
    assert Pow2(10) == 1024;
    assert Pow2(15) == 32768;
    assert Pow2(20) == 1048576;
  }

  /** Rounding a shift on its last bit is rounding to nearest, ties up. */
  lemma RoundShiftNearest(m: nat, shift: nat)
    requires shift > 0
    ensures var p, k := Pow2(shift - 1), RoundShift(m, shift);
            2 * p * k <= m + p < 2 * p * k + 2 * p
  {
    var p := Pow2(shift - 1);
    var q, low := m / p, m % p;
    Euclid(m, p);
    assert Pow2(shift) == 2 * p;
    DivUnique(m, 2 * p, q / 2, q % 2 * p + low) by {
      assert q == q / 2 * 2 + q % 2;
      assert q * p == q / 2 * (2 * p) + q % 2 * p by { Halves(q, p); }
      assert 0 <= q % 2 * p + low < 2 * p by {
        if q % 2 == 0 { assert q % 2 * p == 0; } else { assert q % 2 * p == p; }
      }
    }
    var k := q / 2 + q % 2;
    assert RoundShift(m, shift) == k;
    Halves(q, p);
    if q % 2 == 0 {
      assert 2 * p * k == q / 2 * (2 * p);
    } else {
      assert 2 * p * k == q / 2 * (2 * p) + 2 * p;
    }
  }

  lemma Halves(q: nat, p: nat)
    ensures q * p == q / 2 * (2 * p) + q % 2 * p
  {
    assert q == q / 2 * 2 + q % 2;
    MulAdd(q / 2 * 2, q % 2, p);
    MulAssoc(q / 2, 2, p);
  }

  // --------------------------------------------------------------- the values of halves

  /** In each octave a half counts a fixed step: so many steps of 2^(x+124) past the start. */
  lemma OctaveValue(x: nat, k: nat)
    requires 1 <= x && k <= 2048 && (x > 1 ==> k >= 1024)
    ensures HalfValue((x - 1) * 1024 + k) == k * Pow2(x + 124)
  {
    var h := (x - 1) * 1024 + k;
    assert Pow2(x + 125) == 2 * Pow2(x + 124);
    hide Pow2;
    if h < 1024 {
      assert x == 1;
    } else if k == 2048 {
      DivUnique(h, 1024, x + 1, 0);
    } else if k >= 1024 {
      DivUnique(h, 1024, x, k - 1024);
    }
  }

  /** Later bits are larger values. */
  lemma {:induction false} HalvesGrow(a: nat, b: nat)
    requires a <= b
    ensures HalfValue(a) <= HalfValue(b) && (a < b ==> HalfValue(a) < HalfValue(b))
    decreases b - a
  {
    if a < b {
      HalvesGrow(a, b - 1);
      var x, k := Octave(b - 1);
      OctaveValue(x, k);
      OctaveValue(x, k + 1);
      MulAdd(k, 1, Pow2(x + 124));
    }
  }

  /** The octave a half and the next one are both counted in. */
  lemma Octave(h: nat) returns (x: nat, k: nat)
    ensures 1 <= x && k <= 2047 && (x > 1 ==> k >= 1024) && h == (x - 1) * 1024 + k
  {
    if h < 1024 {
      x, k := 1, h;
    } else {
      x, k := h / 1024, 1024 + h % 1024;
    }
  }

  /** The value lies no lower than halfway down to the half before, and strictly short of
      halfway up to the next. */
  ghost predicate Brackets(value: nat, h: nat) {
    && (h > 0 ==> 2 * value >= HalfValue(h - 1) + HalfValue(h))
    && 2 * value < HalfValue(h) + HalfValue(h + 1)
  }

  lemma OctaveBracket(x: nat, k: nat, m: nat, p: nat, w: nat)
    requires 1 <= x && k <= 2048 && (x > 1 ==> k >= 1024) && p > 0
    requires 2 * p * k <= m + p < 2 * p * k + 2 * p && Pow2(x + 124) == 2 * p * w
    requires x > 1 || k > 1024 ==> m >= 1024 * (2 * p)
    ensures Brackets(m * w, (x - 1) * 1024 + k)
  {
    var h, step := (x - 1) * 1024 + k, Pow2(x + 124);
    OctaveValue(x, k);
    NextValue(x, k);
    Scaled(m, p, w, k, step);
    if h > 0 {
      if x == 1 || k > 1024 {
        OctaveValue(x, k - 1);
        MulSub(k, 1, step);
      } else {
        HalvesGrow(h - 1, h);
        assert m * w >= k * step by { AtLeast(m, p, w, step); }
      }
    }
  }

  lemma NextValue(x: nat, k: nat)
    requires 1 <= x && k <= 2048 && (x > 1 ==> k >= 1024)
    ensures HalfValue((x - 1) * 1024 + k + 1) >= (k + 1) * Pow2(x + 124)
  {
    if k < 2048 {
      OctaveValue(x, k + 1);
    } else {
      OctaveValue(x + 1, 1025);
      assert Pow2(x + 125) == 2 * Pow2(x + 124);
    }
  }

  lemma Scaled(m: nat, p: nat, w: nat, k: nat, step: nat)
    requires 2 * p * k <= m + p < 2 * p * k + 2 * p && step == 2 * p * w && w > 0
    ensures 2 * (m * w) >= (k - 1) * step + k * step
    ensures 2 * (m * w) < k * step + (k + 1) * step
  {
    var a, b := 2 * p * k, 2 * p;
    assert a == k * b;
    MulAssoc(k, b, w);
    var low, mid, high := (2 * a - b) * w, (2 * m) * w, (2 * a + b) * w;
    TimesMonotone(2 * a - b, 2 * m, w);
    TimesStrict(2 * m, 2 * a + b, w);
    MulSub(2 * a, b, w);
    MulAdd(2 * a, b, w);
    MulAssoc(2, a, w);
    MulAssoc(2, m, w);
    MulSub(k, 1, step);
    MulAdd(k, 1, step);
    hide *;
    assert mid == 2 * (m * w) && low == 2 * (k * step) - step && high == 2 * (k * step) + step;
  }

  lemma TimesMonotone(a: int, b: int, w: nat)
    requires a <= b
    ensures a * w <= b * w
  {
    MulSub(b, a, w);
  }

  lemma TimesStrict(a: int, b: int, w: nat)
    requires a < b && w > 0
    ensures a * w < b * w
  {
    MulSub(b, a, w);
    MulAtLeast(b - a, w);
  }

  lemma AtLeast(m: nat, p: nat, w: nat, step: nat)
    requires m >= 1024 * (2 * p) && step == 2 * p * w
    ensures m * w >= 1024 * step
  {
    TimesMonotone(1024 * (2 * p), m, w);
    MulAssoc(1024, 2 * p, w);
  }

  // ------------------------------------------------------------------------ the theorems

  predicate Finite(exponent: nat, mantissa: nat) { exponent < 255 && mantissa < 0x80_0000 }

  lemma TinyBrackets(exponent: nat, mantissa: nat)
    requires Finite(exponent, mantissa) && exponent <= 101
    ensures Brackets(SingleValue(exponent, mantissa), 0)
  {
    hide HalfValue;
    Powers();
    assert HalfValue(0) == 0 && HalfValue(1) == Pow2(125) by { SmallHalves(); }
    assert Pow2(125) == 2 * Pow2(124);
    if exponent == 0 {
      Pow2Monotone(23, 124);
    } else {
      Pow2Add(24, exponent - 1);
      Pow2Monotone(24 + (exponent - 1), 124);
      TimesStrict(F32_MANTISSA + mantissa, 2 * F32_MANTISSA, Pow2(exponent - 1));
    }
  }

  lemma SmallHalves()
    ensures HalfValue(0) == 0 && HalfValue(1) == Pow2(125)
  {
  }

  lemma SubnormalBrackets(exponent: nat, mantissa: nat)
    requires Finite(exponent, mantissa) && 102 <= exponent <= 112
    ensures 0 <= Magnitude(exponent, mantissa) <= 1024
    ensures Brackets(SingleValue(exponent, mantissa), Magnitude(exponent, mantissa))
  {
    var m, shift, w := F32_MANTISSA + mantissa, 126 - exponent, Pow2(exponent - 1);
    var p, k := Pow2(shift - 1), RoundShift(m, shift);
    RoundShiftNearest(m, shift);
    assert Pow2(shift) == 2 * p;
    Pow2Add(shift, exponent - 1);
    Pow2Monotone(14, shift);
    Powers();
    assert Pow2(14) == 0x4000;
    assert 0 <= k <= 1024 by { FitsOctave(m, p, k); }
    OctaveBracket(1, k, m, p, w);
  }

  lemma FitsOctave(m: nat, p: nat, k: int)
    requires 2 * p * k <= m + p < 2 * p * k + 2 * p && 2 * p >= 0x4000 && m < 2 * F32_MANTISSA
    ensures 0 <= k <= 1024
  {
    if k < 0 { TimesMonotone(k + 1, 0, 2 * p); }
    if k > 1024 {
      TimesMonotone(1025, k, 2 * p);
      TimesMonotone(0x4000, 2 * p, 1024);
    }
  }

  lemma NormalShift(mantissa: nat)
    requires mantissa < F32_MANTISSA
    ensures RoundShift(F32_MANTISSA + mantissa, 13) == 1024 + RoundShift(mantissa, 13)
    ensures 0 <= RoundShift(mantissa, 13) <= 1024
  {
    Powers();
    hide Pow2;
  }

  lemma NormalBrackets(exponent: nat, mantissa: nat)
    requires Finite(exponent, mantissa) && 113 <= exponent <= 142
    ensures 1024 <= Magnitude(exponent, mantissa) <= HALF_INFINITY
    ensures Brackets(SingleValue(exponent, mantissa), Magnitude(exponent, mantissa))
  {
    hide Pow2, RoundShift, HalfValue, Brackets;
    var m, x, w := F32_MANTISSA + mantissa, exponent - 112, Pow2(exponent - 1);
    Powers();
    RoundShiftNearest(m, 13);
    NormalShift(mantissa);
    Pow2Add(13, exponent - 1);
    OctaveBracket(x, RoundShift(m, 13), m, 0x1000, w);
  }

  lemma InfinityValue()
    ensures HalfValue(HALF_INFINITY) == Pow2(165)
  {
    OctaveValue(30, 2048);
    Powers();
    hide HalfValue, Pow2;
    Pow2Step(10);
    Pow2Add(11, 154);
  }

  lemma LargeSaturates(exponent: nat, mantissa: nat)
    requires Finite(exponent, mantissa) && exponent > 142
    ensures Magnitude(exponent, mantissa) == HALF_INFINITY
    ensures 2 * SingleValue(exponent, mantissa) >= HalfValue(HALF_INFINITY - 1) + HalfValue(HALF_INFINITY)
  {
    hide HalfValue, Pow2, RoundShift;
    HalvesGrow(HALF_INFINITY - 1, HALF_INFINITY);
    InfinityValue();
    Powers();
    Pow2Add(23, exponent - 1);
    Pow2Monotone(165, 23 + (exponent - 1));
    TimesMonotone(F32_MANTISSA, F32_MANTISSA + mantissa, Pow2(exponent - 1));
  }

  /** Half the sum of two neighbouring halves separates what rounds to each: the magnitude
      written is bracketed, or is infinity at or past halfway from the largest finite half. */
  lemma Bracketed(exponent: nat, mantissa: nat)
    requires Finite(exponent, mantissa)
    ensures var r, value := Magnitude(exponent, mantissa), SingleValue(exponent, mantissa);
            && 0 <= r <= HALF_INFINITY
            && (r < HALF_INFINITY ==> Brackets(value, r))
            && (r == HALF_INFINITY ==> 2 * value >= HalfValue(r - 1) + HalfValue(r))
  {
    hide HalfValue, SingleValue;
    if exponent <= 101 {
      TinyBrackets(exponent, mantissa);
    } else if exponent <= 112 {
      SubnormalBrackets(exponent, mantissa);
    } else if exponent <= 142 {
      NormalBrackets(exponent, mantissa);
    } else {
      LargeSaturates(exponent, mantissa);
    }
  }

  function Distance(a: int, b: int): nat { if a < b then b - a else a - b }

  /** The half written for a finite float32 is at minimal distance from it among all finite
      halves, subnormals and carries included, unless the value is at least halfway from the
      largest finite half to 65536; then it is infinity. */
  lemma Nearest(exponent: nat, mantissa: nat, h: nat)
    requires Finite(exponent, mantissa) && h < HALF_INFINITY
    ensures var r, value := Magnitude(exponent, mantissa), SingleValue(exponent, mantissa);
            && 0 <= r <= HALF_INFINITY
            && (r == HALF_INFINITY <==> 2 * value >= HalfValue(HALF_INFINITY - 1) + HalfValue(HALF_INFINITY))
            && (r < HALF_INFINITY ==> Distance(value, HalfValue(r)) <= Distance(value, HalfValue(h)))
  {
    hide HalfValue, SingleValue, Magnitude;
    Bracketed(exponent, mantissa);
    var r := Magnitude(exponent, mantissa);
    if r < HALF_INFINITY {
      if h < r { HalvesGrow(h, r - 1); } else if h > r { HalvesGrow(r + 1, h); }
      HalvesGrow(r, HALF_INFINITY - 1);
      HalvesGrow(r + 1, HALF_INFINITY);
      HalvesGrow(r, r + 1);
      if r > 0 { HalvesGrow(r - 1, r); }
    }
  }

  /** Ties go up in magnitude. */
  lemma TiesGoUp(exponent: nat, mantissa: nat, h: nat)
    requires Finite(exponent, mantissa) && h < HALF_INFINITY && Midway(SingleValue(exponent, mantissa), h)
    ensures Magnitude(exponent, mantissa) == h + 1
  {
    hide HalfValue, SingleValue, Magnitude;
    Bracketed(exponent, mantissa);
    var r := Magnitude(exponent, mantissa);
    if r <= h {
      HalvesGrow(r, h);
      HalvesGrow(r + 1, h + 1);
    } else if r > h + 1 {
      HalvesGrow(h, r - 1);
      HalvesGrow(h + 1, r);
    }
  }

  ghost predicate Midway(value: nat, h: nat) { 2 * value == HalfValue(h) + HalfValue(h + 1) }

  /** Rounding to nearest, ties to even, as the format's standard defines it and the code's
      comment says, infinity standing for 65536: nothing is nearer, and of two as near the
      even one. */
  ghost predicate NearestEven(value: nat, r: nat) {
    && r <= HALF_INFINITY
    && forall h: nat | h <= HALF_INFINITY && h != r ::
         && Distance(value, HalfValue(r)) <= Distance(value, HalfValue(h))
         && (Distance(value, HalfValue(r)) == Distance(value, HalfValue(h)) ==> r % 2 == 0)
  }

  /** Nothing is nearer than what is written, infinity included; and where something is as
      near, the value is midway to what is written from the half below, or what is written
      is infinity. */
  lemma TieIsMidway(exponent: nat, mantissa: nat, h: nat)
    requires Finite(exponent, mantissa) && h <= HALF_INFINITY && h != Magnitude(exponent, mantissa)
    ensures var r, value := Magnitude(exponent, mantissa), SingleValue(exponent, mantissa);
            && 0 <= r <= HALF_INFINITY && Distance(value, HalfValue(r)) <= Distance(value, HalfValue(h))
            && (Distance(value, HalfValue(r)) == Distance(value, HalfValue(h)) && r < HALF_INFINITY ==>
                  r > 0 && Midway(value, r - 1))
  {
    hide HalfValue, SingleValue, Magnitude;
    Bracketed(exponent, mantissa);
    var r := Magnitude(exponent, mantissa);
    if h < r {
      HalvesGrow(h, r - 1);
      HalvesGrow(r - 1, r);
    } else {
      HalvesGrow(r, r + 1);
      HalvesGrow(r + 1, h);
    }
  }

  /** For every finite input, what is written is the nearest-even half exactly when the value
      is not midway between an even half and the next. */
  lemma NearestEvenIff(exponent: nat, mantissa: nat)
    requires Finite(exponent, mantissa)
    ensures 0 <= Magnitude(exponent, mantissa)
    ensures NearestEven(SingleValue(exponent, mantissa), Magnitude(exponent, mantissa))
       <==> !exists h: nat :: h < HALF_INFINITY && h % 2 == 0 && Midway(SingleValue(exponent, mantissa), h)
  {
    hide HalfValue, SingleValue, Magnitude;
    var r, value := Magnitude(exponent, mantissa), SingleValue(exponent, mantissa);
    Bracketed(exponent, mantissa);
    if h: nat :| h < HALF_INFINITY && h % 2 == 0 && Midway(value, h) {
      TiesGoUp(exponent, mantissa, h);
      HalvesGrow(h, h + 1);
      assert Distance(value, HalfValue(r)) == Distance(value, HalfValue(h));
    } else {
      forall h: nat | h <= HALF_INFINITY && h != r
        ensures Distance(value, HalfValue(r)) <= Distance(value, HalfValue(h))
        ensures Distance(value, HalfValue(r)) == Distance(value, HalfValue(h)) ==> r % 2 == 0
      {
        TieIsMidway(exponent, mantissa, h);
      }
    }
  }

  /** Such a value: 2049 is midway between 2048 and 2050, halves 26624 and 26625, and the odd
      one is written. */
  lemma NotToEven()
    ensures Finite(138, 0x1000) && Magnitude(138, 0x1000) == 26625 && Midway(SingleValue(138, 0x1000), 26624)
    ensures !NearestEven(SingleValue(138, 0x1000), 26625)
  {
    hide Pow2, HalfValue, NearestEven;
    Powers();
    OctaveValue(26, 1024);
    OctaveValue(26, 1025);
    Pow2Add(13, 137);
    NearestEvenIff(138, 0x1000);
  }

  /** Larger values never round to smaller halves. */
  lemma Monotone(exponent: nat, mantissa: nat, exponent': nat, mantissa': nat)
    requires Finite(exponent, mantissa) && Finite(exponent', mantissa')
    requires SingleValue(exponent, mantissa) <= SingleValue(exponent', mantissa')
    ensures Magnitude(exponent, mantissa) <= Magnitude(exponent', mantissa')
  {
    hide HalfValue, SingleValue, Magnitude;
    Bracketed(exponent, mantissa);
    Bracketed(exponent', mantissa');
    var a, b := Magnitude(exponent, mantissa), Magnitude(exponent', mantissa');
    if b < a {
      HalvesGrow(b, a - 1);
      HalvesGrow(b + 1, a);
    }
  }
}
