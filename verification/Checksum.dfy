/** The FNV-style checksum of stores and frames. Its multiplier is odd, so every step can be undone,
    and one changed byte is never masked by the bytes after it. */
module Checksum {
  import opened Core

  const OFFSET: u64 := 1469598103934665603
  const PRIME: nat := 1099511628211
  /** The inverse of PRIME modulo 2^64. */
  const INVERSE: nat := 14886173955864302971

  /** Bitwise exclusive or. */
  function Xor(a: nat, b: nat): nat {
    if a == 0 && b == 0 then 0 else (a % 2 + b % 2) % 2 + 2 * Xor(a / 2, b / 2)
  }

  function Step(h: u64, x: u8): u64 { (Xor(h, x) * PRIME) % TWO64 }

  function Fnv(data: Bytes): u64 {
    if data == [] then OFFSET else Step(Fnv(data[..|data| - 1]), data[|data| - 1])
  }

  /** `fnv1a`. */
  method Fnv1a(data: Bytes) returns (h: u64)
    ensures h == Fnv(data)
  {
    h := OFFSET;
    for i := 0 to |data|
      invariant h == Fnv(data[..i])
    {
      assert data[..i + 1][..i] == data[..i];
      h := Step(h, data[i]);
    }
    assert data[..|data|] == data;
  }

  lemma LowBit(low: nat, high: nat)
    requires low < 2
    ensures (low + 2 * high) % 2 == low && (low + 2 * high) / 2 == high
  {
  }

  lemma BitsCancel(p: nat, q: nat)
    requires p < 2 && q < 2
    ensures (p + q) % 2 < 2 && ((p + q) % 2 + q) % 2 == p
  {
  }

  lemma XorByBits(a: nat, b: nat)
    ensures Xor(a, b) % 2 == (a % 2 + b % 2) % 2 && Xor(a, b) / 2 == Xor(a / 2, b / 2)
  {
    var low: nat, high := (a % 2 + b % 2) % 2, Xor(a / 2, b / 2);
    XorUnfolds(a, b);
    hide Xor;
    LowBit(low, high);
  }

  lemma XorUnfolds(a: nat, b: nat)
    ensures Xor(a, b) == (a % 2 + b % 2) % 2 + 2 * Xor(a / 2, b / 2)
  {
  }

  lemma {:induction false} XorIsSelfInverse(a: nat, b: nat)
    ensures Xor(Xor(a, b), b) == a
  {
    if a == 0 && b == 0 { return; }
    var p: nat, q: nat := a % 2, b % 2;
    hide Xor;
    XorIsSelfInverse(a / 2, b / 2);
    XorByBits(a, b);
    XorByBits(Xor(a, b), b);
    BitsCancel(p, q);
  }

  lemma {:induction false} XorCommutes(a: nat, b: nat)
    ensures Xor(a, b) == Xor(b, a)
  {
    if a != 0 || b != 0 { XorCommutes(a / 2, b / 2); }
  }

  function Pow2(n: nat): nat { if n == 0 then 1 else 2 * Pow2(n - 1) }

  lemma {:induction false} XorFits(a: nat, b: nat, n: nat)
    requires a < Pow2(n) && b < Pow2(n)
    ensures Xor(a, b) < Pow2(n)
    decreases n
  {
    if n > 0 { XorFits(a / 2, b / 2, n - 1); }
  }

  lemma {:induction false} Pow2Adds(m: nat, n: nat)
    ensures Pow2(m + n) == Pow2(m) * Pow2(n)
    decreases m
  {
    if m > 0 { Pow2Adds(m - 1, n); }
  }

  lemma Pow2Of64()
    ensures Pow2(64) == TWO64
  {
    assert Pow2(8) == 256;
    Pow2Adds(8, 8);
    Pow2Adds(16, 16);
    Pow2Adds(32, 32);
  }

  /** Multiplying by the inverse undoes the multiplication. */
  lemma MultiplicationIsUndone(x: u64)
    ensures ((x * PRIME) % TWO64 * INVERSE) % TWO64 == x
  {
    var m := 0x1_0000_0000_0000_0000;
    var product := x * 1099511628211;
    var q, r := product / m, product % m;
    var t := 887285111055 * x - 14886173955864302971 * q;
    assert product == 0x1_0000_0000_0000_0000 * q + r;
    assert r * 14886173955864302971 == x + 0x1_0000_0000_0000_0000 * t;
    RemainderOfMultiple(x, t);
  }

  lemma RemainderOfMultiple(x: u64, t: int)
    ensures (x + 0x1_0000_0000_0000_0000 * t) % TWO64 == x
  {
  }

  lemma StepIsInjective(h: u64, x: u8, g: u64, y: u8)
    requires Step(h, x) == Step(g, y)
    ensures Xor(h, x) == Xor(g, y)
  {
    Pow2Of64();
    XorFits(h, x, 64);
    XorFits(g, y, 64);
    MultiplicationIsUndone(Xor(h, x));
    MultiplicationIsUndone(Xor(g, y));
  }

  lemma {:induction false} SuffixKeepsDifference(p: Bytes, q: Bytes, suffix: Bytes)
    requires Fnv(p) != Fnv(q)
    ensures Fnv(p + suffix) != Fnv(q + suffix)
  {
    if suffix == [] {
      assert p + suffix == p && q + suffix == q;
    } else {
      var front, x := suffix[..|suffix| - 1], suffix[|suffix| - 1];
      SuffixKeepsDifference(p, q, front);
      assert (p + suffix)[..|p + suffix| - 1] == p + front && (q + suffix)[..|q + suffix| - 1] == q + front;
      var h, g := Fnv(p + front), Fnv(q + front);
      if Step(h, x) == Step(g, x) {
        StepIsInjective(h, x, g, x);
        XorIsSelfInverse(h, x);
        XorIsSelfInverse(g, x);
      }
    }
  }

  /** Changing any one byte of any data changes its checksum. */
  lemma OneByteChangesChecksum(data: Bytes, i: nat, y: u8)
    requires i < |data| && data[i] != y
    ensures Fnv(data[i := y]) != Fnv(data)
  {
    var p, x := data[..i], data[i];
    var h := Fnv(p);
    assert (p + [x])[..i] == p && (p + [y])[..i] == p;
    if Step(h, x) == Step(h, y) {
      StepIsInjective(h, x, h, y);
      XorCommutes(h, x);
      XorCommutes(h, y);
      XorIsSelfInverse(x, h);
      XorIsSelfInverse(y, h);
    }
    SuffixKeepsDifference(p + [x], p + [y], data[i + 1..]);
    assert data == p + [x] + data[i + 1..] && data[i := y] == p + [y] + data[i + 1..];
  }
}
