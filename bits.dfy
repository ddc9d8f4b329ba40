/** Unsigned-integer bit arithmetic shared by both protocol engines.

    C integers are modelled as (bounded) naturals. A left shift of an
    unsigned W-bit variable `x <<= k` is `(x * Pow2(k)) % Pow2(W)` and the
    test `x & (1 << k)` is `Bit(x, k)`.
 */
module Bits {

  type u8 = x: nat | x < 0x100
  type u16 = x: nat | x < 0x1_0000
  type u32 = x: nat | x < 0x1_0000_0000
  type u64 = x: nat | x < 0x1_0000_0000_0000_0000

  function Pow2(k: nat): (r: nat)
    ensures r >= 1
  {
    if k == 0 then 1 else 2 * Pow2(k - 1)
  }

  /** Bit k of v is set (`v & (1 << k)` is nonzero). */
  predicate Bit(v: nat, k: nat) {
    (v / Pow2(k)) % 2 == 1
  }

  /** Bits n-1, n-2, ..., 0 of v, most significant first. */
  function MsbFirst(v: nat, n: nat): (bs: seq<bool>)
    ensures |bs| == n
  {
    seq(n, k requires 0 <= k < n => Bit(v, n - 1 - k))
  }

  /** The expansion is the top bit followed by the expansion of the rest. */
  lemma MsbFirstCons(v: nat, n: nat)
    requires n > 0
    ensures MsbFirst(v, n) == [Bit(v, n - 1)] + MsbFirst(v, n - 1)
  {
    var bs, rest := MsbFirst(v, n), [Bit(v, n - 1)] + MsbFirst(v, n - 1);
    forall k | 0 <= k < n ensures bs[k] == rest[k] {
      if k > 0 {
        assert rest[k] == MsbFirst(v, n - 1)[k - 1];
      }
    }
  }

  /** The number whose binary digits, most significant first, are bs. */
  function FromMsbFirst(bs: seq<bool>): nat {
    if bs == [] then 0
    else (if bs[0] then Pow2(|bs| - 1) else 0) + FromMsbFirst(bs[1..])
  }

  lemma {:induction false} Pow2Add(a: nat, b: nat)
    ensures Pow2(a + b) == Pow2(a) * Pow2(b)
  {
    if a > 0 {
      Pow2Add(a - 1, b);
    }
  }

  lemma Pow2Values()
    ensures Pow2(8) == 0x100 && Pow2(16) == 0x1_0000 && Pow2(32) == 0x1_0000_0000
  {
    Pow2Add(8, 8);
    Pow2Add(16, 16);
  }

  /** Division with remainder has only one solution. */
  lemma DivModUnique(v: nat, m: nat, q: nat, r: nat)
    requires 0 <= r < m && v == m * q + r
    ensures v / m == q && v % m == r
  {
    var q', r' := v / m, v % m;
    MulDiff(m, q', q);
    MulDiff(m, q, q');
    MulAtLeast(m, q' - q);
    MulAtLeast(m, q - q');
  }

  /** Rounding x down to a multiple of m removes the remainder only. */
  lemma RoundDown(x: nat, m: nat)
    requires m > 0
    ensures x % m <= x && x % m < m
    ensures (x - x % m) % m == 0
  {
    var q, r := x / m, x % m;
    assert x == m * q + r;
    MulAtLeast(m, q);
    DivModUnique(m * q, m, q, 0);
  }

  lemma MulDiff(m: int, a: int, b: int)
    ensures m * a - m * b == m * (a - b)
  {
  }

  lemma MulAtLeast(m: nat, d: int)
    ensures d >= 1 ==> m * d >= m
  {
    if d >= 1 {
      MulMonotone(m, 1, d);
    }
  }

  lemma MulMonotone(m: nat, a: nat, b: nat)
    requires a <= b
    ensures m * a <= m * b
  {
    assert m * b == m * a + m * (b - a);
  }

  lemma MulStrict(r: nat, a: nat, c: nat)
    requires r < a && c > 0
    ensures r * c < a * c
  {
    assert a * c == r * c + (a - r) * c;
    MulMonotone(c, 1, a - r);
  }

  lemma Distrib(p: nat, q: nat, r: nat, c: nat)
    ensures (p * q + r) * c == (p * c) * q + r * c
  {
  }

  /** The remainder modulo 2^n splits into its top bit and the rest. */
  lemma SplitTop(v: nat, n: nat)
    requires n > 0
    ensures v % Pow2(n) == (if Bit(v, n - 1) then Pow2(n - 1) else 0) + v % Pow2(n - 1)
  {
    var p := Pow2(n - 1);
    var q := v / p;
    var t := p * (q % 2);
    assert v == p * q + v % p;
    assert q == 2 * (q / 2) + q % 2;
    assert p * q == (2 * p) * (q / 2) + t;
    MulMonotone(p, q % 2, 1);
    DivModUnique(v, 2 * p, q / 2, t + v % p);
    assert t == if Bit(v, n - 1) then p else 0;
  }

  /** Left-justifying v in W bits keeps exactly its n low bits:
      `(v << (W - n))` truncated to W bits. */
  lemma ShiftIn(v: nat, n: nat, w: nat)
    requires n <= w
    ensures (v * Pow2(w - n)) % Pow2(w) == (v % Pow2(n)) * Pow2(w - n)
  {
    Pow2Add(n, w - n);
    ScaleMod(v, Pow2(n), Pow2(w - n));
  }

  lemma ScaleMod(v: nat, p: nat, c: nat)
    requires p > 0 && c > 0
    ensures (v * c) % (p * c) == (v % p) * c
  {
    var q, r := v / p, v % p;
    assert v == p * q + r;
    Distrib(p, q, r, c);
    MulStrict(r, p, c);
    DivModUnique(v * c, p * c, q, r * c);
  }

  lemma {:induction false} FromMsbFirstBound(bs: seq<bool>)
    ensures FromMsbFirst(bs) < Pow2(|bs|)
  {
    if bs != [] {
      FromMsbFirstBound(bs[1..]);
    }
  }

  /** Reading back the bits recovers the value modulo 2^n. */
  lemma {:induction false} FromMsbFirstOfMsbFirst(v: nat, n: nat)
    ensures FromMsbFirst(MsbFirst(v, n)) == v % Pow2(n)
  {
    if n > 0 {
      var bs := MsbFirst(v, n);
      assert bs[1..] == MsbFirst(v, n - 1);
      FromMsbFirstOfMsbFirst(v, n - 1);
      SplitTop(v, n);
    }
  }

  /** Two bit strings of one length that denote the same number are equal. */
  lemma {:induction false} FromMsbFirstInjective(a: seq<bool>, b: seq<bool>)
    requires |a| == |b| && FromMsbFirst(a) == FromMsbFirst(b)
    ensures a == b
  {
    if a != [] {
      var p := Pow2(|a| - 1);
      FromMsbFirstBound(a[1..]);
      FromMsbFirstBound(b[1..]);
      var ha: nat := if a[0] then 1 else 0;
      var hb: nat := if b[0] then 1 else 0;
      DivModUnique(FromMsbFirst(a), p, ha, FromMsbFirst(a[1..]));
      DivModUnique(FromMsbFirst(b), p, hb, FromMsbFirst(b[1..]));
      FromMsbFirstInjective(a[1..], b[1..]);
      assert a == [a[0]] + a[1..] && b == [b[0]] + b[1..];
    }
  }

  /** The n MSB-first bits of v depend on v modulo 2^n only: every bit at
      position n or above is discarded. */
  lemma MsbFirstMod(v: nat, w: nat, n: nat)
    requires v % Pow2(n) == w % Pow2(n)
    ensures MsbFirst(v, n) == MsbFirst(w, n)
  {
    FromMsbFirstOfMsbFirst(v, n);
    FromMsbFirstOfMsbFirst(w, n);
    FromMsbFirstInjective(MsbFirst(v, n), MsbFirst(w, n));
  }

  /** The other round trip: every bit string is the MSB-first expansion of
      the number it denotes. */
  lemma MsbFirstOfFromMsbFirst(bs: seq<bool>)
    ensures MsbFirst(FromMsbFirst(bs), |bs|) == bs
  {
    var v := FromMsbFirst(bs);
    FromMsbFirstBound(bs);
    FromMsbFirstOfMsbFirst(v, |bs|);
    DivModUnique(v, Pow2(|bs|), 0, v);
    FromMsbFirstInjective(MsbFirst(v, |bs|), bs);
  }

  lemma ModSmall(v: nat, n: nat)
    requires v < Pow2(n)
    ensures v % Pow2(n) == v
  {
    DivModUnique(v, Pow2(n), 0, v);
  }

  function Zeros(k: nat): (z: seq<bool>)
    ensures |z| == k && forall i :: 0 <= i < k ==> !z[i]
  {
    seq(k, _ => false)
  }

  /** Appending k zero bits multiplies by 2^k. */
  lemma {:induction false} FromMsbFirstZeros(bs: seq<bool>, k: nat)
    ensures FromMsbFirst(bs + Zeros(k)) == FromMsbFirst(bs) * Pow2(k)
  {
    if bs == [] {
      assert bs + Zeros(k) == Zeros(k);
      ZerosValue(k);
    } else {
      var rest, x := bs[1..], bs + Zeros(k);
      assert x[0] == bs[0] && x[1..] == rest + Zeros(k);
      FromMsbFirstZeros(rest, k);
      Pow2Add(|rest|, k);
      var h: nat := if bs[0] then Pow2(|rest|) else 0;
      var c := Pow2(k);
      assert (if x[0] then Pow2(|x| - 1) else 0) == h * c;
      assert FromMsbFirst(x) == h * c + FromMsbFirst(rest) * c;
      assert FromMsbFirst(bs) == h + FromMsbFirst(rest);
      Distrib(1, h, FromMsbFirst(rest), c);
    }
  }

  lemma {:induction false} ZerosValue(k: nat)
    ensures FromMsbFirst(Zeros(k)) == 0
  {
    if k > 0 {
      assert Zeros(k)[1..] == Zeros(k - 1);
      ZerosValue(k - 1);
    }
  }

  /** A W-bit register loaded with `v << (W - n)` holds the n low bits of v,
      most significant first, in its top n positions, and zeros below. */
  lemma {:induction false} ShiftInBits(v: nat, n: nat, w: nat)
    requires n <= w
    ensures MsbFirst((v * Pow2(w - n)) % Pow2(w), w) == MsbFirst(v, n) + Zeros(w - n)
  {
    ShiftIn(v, n, w);
    FromMsbFirstOfMsbFirst(v, n);
    FromMsbFirstZeros(MsbFirst(v, n), w - n);
    MsbFirstOfFromMsbFirst(MsbFirst(v, n) + Zeros(w - n));
  }

  /** Shifting a W-bit register left by one: its top bit leaves, every other
      bit moves up one place, and a zero enters at the bottom. */
  lemma {:induction false} ShiftLeftBits(x: nat, w: nat)
    requires 0 < w && x < Pow2(w)
    ensures Bit(x, w - 1) == MsbFirst(x, w)[0]
    ensures MsbFirst((x * 2) % Pow2(w), w) == MsbFirst(x, w)[1..] + [false]
  {
    var rest := MsbFirst(x, w)[1..];
    assert rest == MsbFirst(x, w - 1);
    FromMsbFirstOfMsbFirst(x, w - 1);
    FromMsbFirstZeros(rest, 1);
    assert Zeros(1) == [false];
    ScaleMod(x, Pow2(w - 1), 2);
    assert Pow2(w - 1) * 2 == Pow2(w);
    MsbFirstOfFromMsbFirst(rest + [false]);
  }

  /** One step of an MSB-first shift register of width W holding the i low
      bits of `value` in its top positions: its top bit is bit i-1 of value,
      and after `x <<= 1` (truncated to W bits) it holds the i-1 low bits. */
  lemma {:induction false} ShiftStep(x: nat, value: nat, i: nat, w: nat)
    requires 0 < i <= w && x < Pow2(w)
    requires MsbFirst(x, w)[..i] == MsbFirst(value, i)
    ensures Bit(x, w - 1) == Bit(value, i - 1)
    ensures MsbFirst((x * 2) % Pow2(w), w)[..i - 1] == MsbFirst(value, i - 1)
  {
    var reg, bits := MsbFirst(x, w), MsbFirst(value, i);
    ShiftLeftBits(x, w);
    var shifted := MsbFirst((x * 2) % Pow2(w), w);
    assert shifted == reg[1..] + [false];
    assert bits == [Bit(value, i - 1)] + MsbFirst(value, i - 1);
    assert reg[0] == bits[0];
    assert shifted[..i - 1] == reg[1..i];
    assert reg[1..i] == bits[1..];
  }
}
