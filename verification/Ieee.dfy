/** The number a 64-bit pattern denotes, by IEEE 754 binary64. */
module Ieee {
  import opened Core

  function Scale(e: int): real
    decreases if e < 0 then -e else e
  {
    if e == 0 then 1.0 else if e > 0 then 2.0 * Scale(e - 1) else Scale(e + 1) / 2.0
  }

  /** The largest finite double, (2^53 - 1) * 2^971. */
  function MaxDouble(): (r: real)
    ensures r >= 1_000_000_000_000_000_000_000_000.0
  {
    9007199254740991.0 * TwiceTenthPower(158456325028528675187087900672.0)
  }

  function TwiceTenthPower(a: real): real {
    var b := a * a;
    var c := b * b;
    2.0 * (c * c * b)
  }

  function DoubleOf(bits: u64): Double {
    var negative := bits >= 0x8000_0000_0000_0000;
    var exponent := bits / 0x10_0000_0000_0000 % 0x800;
    var fraction := bits % 0x10_0000_0000_0000;
    if exponent == 0x7FF then
      if fraction != 0 then NaN else if negative then NegInf else PosInf
    else
      var magnitude := if exponent == 0 then fraction as real * Scale(-1074)
                       else (0x10_0000_0000_0000 + fraction) as real * Scale(exponent - 1075);
      Fin(if negative then -magnitude else magnitude)
  }

  // ----- no pattern denotes more -----

  lemma {:induction false} ScaleAdds(m: nat, n: nat)
    ensures Scale(m + n) == Scale(m) * Scale(n)
    decreases m
  {
    if m > 0 { ScaleAdds(m - 1, n); }
  }

  lemma {:induction false} ScaleGrows(m: int, n: int)
    requires m <= n
    ensures 0.0 < Scale(m) <= Scale(n)
    decreases n - m, if n < 0 then -n else n
  {
    if m < n {
      ScaleGrows(m, n - 1);
      ScaleStep(n - 1);
    } else if m != 0 {
      if m > 0 { ScaleGrows(m - 1, m - 1); } else { ScaleGrows(m + 1, m + 1); }
    }
  }

  lemma ScaleStep(n: int)
    ensures Scale(n + 1) == 2.0 * Scale(n)
  {
  }

  lemma TopScale()
    ensures 9007199254740991.0 * Scale(971) == MaxDouble()
  {
    hide Scale, TwiceTenthPower;
    ScaleOf97();
    ScaleOf971();
  }

  lemma ScaleOf971()
    ensures Scale(971) == TwiceTenthPower(Scale(97))
  {
    hide Scale;
    ScaleAdds(97, 97);
    ScaleAdds(194, 194);
    ScaleAdds(388, 388);
    ScaleAdds(776, 194);
    ScaleStep(970);
  }

  lemma ScaleOf97()
    ensures Scale(97) == 158456325028528675187087900672.0
  {
    assert Scale(8) == 256.0;
    ScaleAdds(8, 8);
    ScaleAdds(16, 16);
    ScaleAdds(32, 32);
    ScaleAdds(64, 32);
    ScaleStep(96);
  }

  /** One pattern denotes the largest double. */
  lemma LargestPattern()
    ensures DoubleOf(0x7FEF_FFFF_FFFF_FFFF) == Fin(MaxDouble())
  {
    hide Scale, MaxDouble;
    TopScale();
    assert 0x7FEF_FFFF_FFFF_FFFF / 0x10_0000_0000_0000 % 0x800 == 0x7FE;
    assert 0x7FEF_FFFF_FFFF_FFFF % 0x10_0000_0000_0000 == 0xF_FFFF_FFFF_FFFF;
  }

  /** Every pattern that denotes a number denotes one within the largest double. */
  lemma PatternsAreBounded(bits: u64)
    ensures DoubleOf(bits).Finite() ==> -MaxDouble() <= DoubleOf(bits).r <= MaxDouble()
  {
    var exponent := bits / 0x10_0000_0000_0000 % 0x800;
    var fraction := bits % 0x10_0000_0000_0000;
    hide Scale, MaxDouble;
    TopScale();
    if exponent < 0x7FF {
      var e := if exponent == 0 then -1074 else exponent - 1075;
      var m: nat := if exponent == 0 then fraction else 0x10_0000_0000_0000 + fraction;
      ScaleGrows(e, 971);
      Bounded(m as real, Scale(e), Scale(971));
    }
  }

  lemma Bounded(m: real, x: real, top: real)
    requires 0.0 <= m <= 9007199254740991.0 && 0.0 <= x <= top
    ensures 0.0 <= m * x <= 9007199254740991.0 * top
  {
    LargerBoth(m, x, 9007199254740991.0, top);
  }

  lemma LargerBoth(m: real, x: real, n: real, y: real)
    requires 0.0 <= m <= n && 0.0 <= x <= y
    ensures 0.0 <= m * x <= n * y
  {
    Larger(m, x, y);
    Larger(y, m, n);
    assert m * y == y * m && n * y == y * n;
  }

  lemma Larger(m: real, x: real, y: real)
    requires 0.0 <= m && 0.0 <= x <= y
    ensures 0.0 <= m * x <= m * y
  {
  }

  // ----- which number a pattern denotes -----

  lemma FieldsOfNegative(bits: u64)
    requires bits < 0x8000_0000_0000_0000
    ensures var upper := bits + 0x8000_0000_0000_0000;
      && upper / 0x10_0000_0000_0000 % 0x800 == bits / 0x10_0000_0000_0000 % 0x800
      && upper % 0x10_0000_0000_0000 == bits % 0x10_0000_0000_0000
  {
    var q, f := bits / 0x10_0000_0000_0000, bits % 0x10_0000_0000_0000;
    assert bits + 0x8000_0000_0000_0000 == 0x10_0000_0000_0000 * (q + 0x800) + f;
  }

  /** The highest bit is the sign. */
  lemma SignBit(bits: u64)
    requires bits < 0x8000_0000_0000_0000
    ensures var d, negative := DoubleOf(bits), DoubleOf(bits + 0x8000_0000_0000_0000);
      && (d.Fin? ==> negative == Fin(-d.r)) && (d.PosInf? ==> negative.NegInf?) && (d.NaN? ==> negative.NaN?)
      && !d.NegInf?
  {
    hide Scale;
    FieldsOfNegative(bits);
  }

  lemma FieldsOfNext(bits: u64)
    requires bits / 0x10_0000_0000_0000 % 0x800 < 0x7FF && bits + 0x10_0000_0000_0000 < TWO64
    ensures var next := bits + 0x10_0000_0000_0000;
      && next / 0x10_0000_0000_0000 % 0x800 == bits / 0x10_0000_0000_0000 % 0x800 + 1
      && next % 0x10_0000_0000_0000 == bits % 0x10_0000_0000_0000
      && (next >= 0x8000_0000_0000_0000 <==> bits >= 0x8000_0000_0000_0000)
  {
    var q, f := bits / 0x10_0000_0000_0000, bits % 0x10_0000_0000_0000;
    assert bits + 0x10_0000_0000_0000 == 0x10_0000_0000_0000 * (q + 1) + f;
    assert (q + 1) % 0x800 == q % 0x800 + 1;
  }

  /** One more in the exponent field of a normal number doubles it. */
  lemma NextExponentDoubles(bits: u64)
    requires 0 < bits / 0x10_0000_0000_0000 % 0x800 < 0x7FE
    ensures bits + 0x10_0000_0000_0000 < TWO64 && DoubleOf(bits).Fin?
    ensures DoubleOf(bits + 0x10_0000_0000_0000) == Fin(2.0 * DoubleOf(bits).r)
  {
    hide Scale;
    FieldsOfNext(bits);
    var exponent := bits / 0x10_0000_0000_0000 % 0x800;
    var m := (0x10_0000_0000_0000 + bits % 0x10_0000_0000_0000) as real;
    ScaleStep(exponent - 1075);
    assert m * (2.0 * Scale(exponent - 1075)) == 2.0 * (m * Scale(exponent - 1075));
  }
}
