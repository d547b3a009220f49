/** Little-endian fields, strings and counted lists. A writer puts a field in front of the bytes that
    follow it; a reader takes it off again. */
module Wire {
  import opened Core

  const MAX_COUNT: nat := 0x10_0000

  /** The error codes of persistence.hpp that the code ever returns. */
  datatype Code =
    | BadMagic | UnsupportedVersion | Truncation | Corruption | ChecksumMismatch | OversizedCount | InvalidEnum
    | DuplicateId | PathMissingEndpoint | InvalidStageOrder | CycleForbidden | PayloadMismatch
    | SelectedPlanNotInCandidateSet | CommittedPlanNoEvidence | NanInfCost | Overflow | TrailingGarbage

  /** What a reader found and what it left, or why it gave up. */
  datatype Read<+T> = Got(value: T, rest: Bytes) | Fail(code: Code) {
    predicate IsFailure() { Fail? }
    function PropagateFailure<U>(): Read<U> requires Fail? { Fail(code) }
    function Extract(): (T, Bytes) requires Got? { (value, rest) }
  }

  function As<T>(r: Read<T>, code: Code): Read<T> {
    if r.Fail? then Fail(code) else r
  }

  function Pow256(n: nat): nat { if n == 0 then 1 else 256 * Pow256(n - 1) }

  function PutLE(n: nat, v: nat, rest: Bytes): Bytes {
    if n == 0 then rest else [v % 256] + PutLE(n - 1, v / 256, rest)
  }

  function ReadLE(n: nat, b: Bytes): (r: Read<nat>)
    ensures r.Got? ==> r.value < Pow256(n) && |b| == n + |r.rest|
    ensures r.Fail? ==> r.code == Truncation
    ensures r.Got? <==> n <= |b|
  {
    if n == 0 then Got(0, b)
    else if b == [] then Fail(Truncation)
    else
      var (v, rest) :- ReadLE(n - 1, b[1..]);
      Got(b[0] + 256 * v, rest)
  }

  lemma {:induction false} ReadLEOfPutLE(n: nat, v: nat, rest: Bytes)
    requires v < Pow256(n)
    ensures ReadLE(n, PutLE(n, v, rest)) == Got(v, rest)
  {
    if n > 0 {
      ReadLEOfPutLE(n - 1, v / 256, rest);
      assert PutLE(n, v, rest)[1..] == PutLE(n - 1, v / 256, rest);
    }
  }

  /** A little-endian field is determined by its value. */
  lemma {:induction false} PutLEOfReadLE(n: nat, b: Bytes)
    requires n <= |b|
    ensures b == PutLE(n, ReadLE(n, b).value, ReadLE(n, b).rest) && ReadLE(n, b).rest == b[n..]
  {
    if n > 0 {
      PutLEOfReadLE(n - 1, b[1..]);
      LowByte(b[0], ReadLE(n - 1, b[1..]).value);
      assert b == [b[0]] + b[1..] && b[1..][n - 1..] == b[n..];
    }
  }

  lemma LowByte(x: u8, v: nat)
    ensures (x + 256 * v) % 256 == x && (x + 256 * v) / 256 == v
  {
  }

  lemma {:induction false} ReadLESeesPrefix(n: nat, a: Bytes, b: Bytes)
    requires n <= |a| && n <= |b| && a[..n] == b[..n]
    ensures ReadLE(n, a).value == ReadLE(n, b).value
  {
    if n > 0 {
      assert a[..n][0] == b[..n][0];
      assert a[1..][..n - 1] == a[..n][1..] && b[1..][..n - 1] == b[..n][1..];
      ReadLESeesPrefix(n - 1, a[1..], b[1..]);
    }
  }

  lemma {:induction false} PutLEPrefix(n: nat, v: nat, r: Bytes, s: Bytes)
    ensures |PutLE(n, v, r)| >= n && |PutLE(n, v, s)| >= n && PutLE(n, v, r)[..n] == PutLE(n, v, s)[..n]
  {
    if n > 0 {
      PutLEPrefix(n - 1, v / 256, r, s);
      var x, y := PutLE(n - 1, v / 256, r), PutLE(n - 1, v / 256, s);
      assert ([v % 256] + x)[..n] == [v % 256] + x[..n - 1] && ([v % 256] + y)[..n] == [v % 256] + y[..n - 1];
    }
  }

  lemma SameField(n: nat, a: Bytes, b: Bytes)
    requires n <= |a| && n <= |b| && ReadLE(n, a).value == ReadLE(n, b).value
    ensures a[..n] == b[..n]
  {
    PutLEOfReadLE(n, a);
    PutLEOfReadLE(n, b);
    PutLEPrefix(n, ReadLE(n, a).value, a[n..], b[n..]);
  }

  lemma {:induction false} PutLEJoins(n: nat, v: nat, a: Bytes, b: Bytes)
    ensures PutLE(n, v, a) + b == PutLE(n, v, a + b)
  {
    if n > 0 {
      PutLEJoins(n - 1, v / 256, a, b);
      assert [v % 256] + PutLE(n - 1, v / 256, a) + b == [v % 256] + (PutLE(n - 1, v / 256, a) + b);
    }
  }

  /** A field whose bytes differ in one place reads differently. */
  lemma FieldNotices(n: nat, b: Bytes, i: nat, y: u8)
    requires i < n <= |b| && b[i] != y
    ensures ReadLE(n, b[i := y]).value != ReadLE(n, b).value
  {
    PutLEOfReadLE(n, b);
    PutLEOfReadLE(n, b[i := y]);
    assert b[i := y][n..] == b[n..];
    assert b[i := y] != b by { assert b[i := y][i] == y; }
  }

  // ----- fixed-width fields -----

  function Put8(v: u8, rest: Bytes): (b: Bytes)
    ensures Read8(b) == Got(v, rest)
  {
    [v] + rest
  }

  function Read8(b: Bytes): Read<u8> {
    if b == [] then Fail(Truncation) else Got(b[0], b[1..])
  }

  function Put32(v: u32, rest: Bytes): (b: Bytes)
    ensures Read32(b) == Got(v, rest)
  {
    ReadLEOfPutLE(4, v, rest);
    PutLE(4, v, rest)
  }

  function Read32(b: Bytes): Read<u32> { ReadLE(4, b) }

  function Put64(v: u64, rest: Bytes): (b: Bytes)
    ensures Read64(b) == Got(v, rest)
  {
    ReadLEOfPutLE(8, v, rest);
    PutLE(8, v, rest)
  }

  function Read64(b: Bytes): Read<u64> { ReadLE(8, b) }

  function PutBool(v: bool, rest: Bytes): (b: Bytes)
    ensures ReadBool(b) == Got(v, rest)
  {
    Put8(if v then 1 else 0, rest)
  }

  /** Any non-zero byte reads as true. */
  function ReadBool(b: Bytes): Read<bool> {
    var (v, rest) :- Read8(b);
    Got(v != 0, rest)
  }

  function ReadEnum<T>(of: u8 -> Option<T>, b: Bytes): Read<T> {
    var (v, rest) :- Read8(b);
    if of(v).None? then Fail(InvalidEnum) else Got(of(v).value, rest)
  }

  // ----- strings -----

  function PutStr(s: Bytes, rest: Bytes): (b: Bytes)
    ensures |s| <= MAX_COUNT ==> ReadStr(b) == Got(s, rest)
  {
    assert (s + rest)[..|s|] == s && (s + rest)[|s|..] == rest;
    Put64(|s| % TWO64, s + rest)
  }

  function ReadStr(b: Bytes): (r: Read<Bytes>)
    ensures r.Got? ==> |r.value| <= MAX_COUNT
  {
    var (n, rest) :- Read64(b);
    if n > MAX_COUNT || n > |rest| then Fail(Truncation) else Got(rest[..n], rest[n..])
  }

  // ----- counted lists -----

  function PutAll<T>(put: (T, Bytes) -> Bytes, xs: seq<T>, rest: Bytes): Bytes {
    if xs == [] then rest else put(xs[0], PutAll(put, xs[1..], rest))
  }

  function ReadAll<T>(read: Bytes -> Read<T>, n: nat, b: Bytes): (r: Read<seq<T>>)
    ensures r.Got? ==> |r.value| == n
  {
    if n == 0 then Got([], b)
    else
      var (x, b1) :- read(b);
      var (xs, b2) :- ReadAll(read, n - 1, b1);
      Got([x] + xs, b2)
  }

  function PutList<T>(put: (T, Bytes) -> Bytes, xs: seq<T>, rest: Bytes): Bytes {
    Put32(|xs| % TWO32, PutAll(put, xs, rest))
  }

  function ReadList<T>(read: Bytes -> Read<T>, b: Bytes): (r: Read<seq<T>>)
    ensures r.Got? ==> |r.value| <= MAX_COUNT
  {
    var (n, b1) :- Read32(b);
    if n > MAX_COUNT then Fail(OversizedCount) else ReadAll(read, n, b1)
  }

  ghost predicate Inverts<T(!new)>(put: (T, Bytes) -> Bytes, read: Bytes -> Read<T>, x: T) {
    forall r :: read(put(x, r)) == Got(x, r)
  }

  lemma {:induction false} AllRoundTrip<T(!new)>(put: (T, Bytes) -> Bytes, read: Bytes -> Read<T>, xs: seq<T>,
                                          rest: Bytes)
    requires forall x :: x in xs ==> Inverts(put, read, x)
    ensures ReadAll(read, |xs|, PutAll(put, xs, rest)) == Got(xs, rest)
  {
    if xs != [] {
      AllRoundTrip(put, read, xs[1..], rest);
      assert Inverts(put, read, xs[0]);
      assert xs == [xs[0]] + xs[1..];
    }
  }

  /** A list survives if its elements do and it is not longer than a reader accepts. */
  lemma ListRoundTrip<T(!new)>(put: (T, Bytes) -> Bytes, read: Bytes -> Read<T>, xs: seq<T>, rest: Bytes)
    requires |xs| <= MAX_COUNT && forall x :: x in xs ==> Inverts(put, read, x)
    ensures ReadList(read, PutList(put, xs, rest)) == Got(xs, rest)
  {
    AllRoundTrip(put, read, xs, rest);
  }

  /** What a reader guarantees of one element it guarantees of all. */
  lemma {:induction false} AllRead<T(!new)>(read: Bytes -> Read<T>, n: nat, b: Bytes, good: T -> bool)
    requires forall c :: read(c).Got? ==> good(read(c).value)
    ensures ReadAll(read, n, b).Got? ==> forall x :: x in ReadAll(read, n, b).value ==> good(x)
  {
    if n > 0 && read(b).Got? { AllRead(read, n - 1, read(b).rest, good); }
  }

  lemma ListRead<T(!new)>(read: Bytes -> Read<T>, b: Bytes, good: T -> bool)
    requires forall c :: read(c).Got? ==> good(read(c).value)
    ensures ReadList(read, b).Got? ==> forall x :: x in ReadList(read, b).value ==> good(x)
  {
    if Read32(b).Got? { AllRead(read, Read32(b).value, Read32(b).rest, good); }
  }
}
