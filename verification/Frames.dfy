/** The wire frames of src/protocol.cpp: magic, version, type, length, payload, and a checksum behind it all. */
module Frames {
  import opened Core
  import opened Wire
  import opened Checksum
  import opened StoreWriter
  import opened StoreReader

  datatype MessageType =
    | Hello | Register | PublishEndpoint | PublishLink | PublishTopology | PublishCapacity | PublishCongestion
    | SubmitRequest | QueryPlan | PlanResult | CommitRequest | CommitResult | Revalidate | Supersede | Cancel
    | ExecutionHandoff | ExecutionResult | Execute | Save | Shutdown | Error

  const ALL_TYPES: seq<MessageType> := [
    Hello, Register, PublishEndpoint, PublishLink, PublishTopology, PublishCapacity, PublishCongestion,
    SubmitRequest, QueryPlan, PlanResult, CommitRequest, CommitResult, Revalidate, Supersede, Cancel,
    ExecutionHandoff, ExecutionResult, Execute, Save, Shutdown, Error ]

  function MessageTypeOf(b: u8): Option<MessageType> {
    if b < |ALL_TYPES| then Some(ALL_TYPES[b]) else None
  }

  function MessageTypeCode(t: MessageType): (b: u8)
    ensures MessageTypeOf(b) == Some(t)
  {
    match t
    case Hello => 0 case Register => 1 case PublishEndpoint => 2 case PublishLink => 3 case PublishTopology => 4
    case PublishCapacity => 5 case PublishCongestion => 6 case SubmitRequest => 7 case QueryPlan => 8
    case PlanResult => 9 case CommitRequest => 10 case CommitResult => 11 case Revalidate => 12
    case Supersede => 13 case Cancel => 14 case ExecutionHandoff => 15 case ExecutionResult => 16
    case Execute => 17 case Save => 18 case Shutdown => 19 case Error => 20
  }

  lemma CodesAreDistinct(b: u8)
    requires MessageTypeOf(b).Some?
    ensures MessageTypeCode(MessageTypeOf(b).value) == b
  {
  }

  const FRAME_MAGIC: u32 := 0x43504600
  const FRAME_VERSION: u32 := 1
  const MAX_PAYLOAD: nat := 0x400_0000
  const FRAME_HEADER: nat := 17

  datatype Frame = Frame(kind: MessageType, payload: Bytes)

  /** The header and the payload: what the checksum covers. */
  function Covered(kind: MessageType, length: u64, payload: Bytes): Bytes {
    Put32(FRAME_MAGIC, Put32(FRAME_VERSION, Put8(MessageTypeCode(kind), Put64(length, payload))))
  }

  /** `encodeFrame`; an oversized payload is refused. */
  function Encode(f: Frame): Option<Bytes> {
    if |f.payload| > MAX_PAYLOAD then None
    else
      var body := Covered(f.kind, |f.payload|, f.payload);
      Some(body + Put64(Fnv(body), []))
  }

  /** `decodeFrame`; bytes after the frame are left alone. */
  function Decode(data: Bytes): Option<Frame> {
    var magic := Read32(data);
    if magic.Fail? || magic.value != FRAME_MAGIC then None
    else
      var version := Read32(magic.rest);
      if version.Fail? || version.value != FRAME_VERSION then None
      else
        var kind := ReadEnum(MessageTypeOf, version.rest);
        if kind.Fail? then None
        else
          var length := Read64(kind.rest);
          if length.Fail? || length.value > MAX_PAYLOAD then None
          else if FRAME_HEADER + length.value + 8 > |data| then None
          else
            var end := FRAME_HEADER + length.value;
            if Fnv(data[..end]) != Read64(data[end..]).value then None
            else Some(Frame(kind.value, data[FRAME_HEADER..end]))
  }

  // ----- the fields at their offsets -----

  function LengthField(data: Bytes): u64
    requires |data| >= FRAME_HEADER
  {
    Read64(data[9..]).value
  }

  /** The stored checksum, after a payload of the given length, is that of the bytes before it. */
  predicate Sealed(data: Bytes, length: nat) {
    && FRAME_HEADER + length + 8 <= |data|
    && Read64(data[FRAME_HEADER + length..]).value == Fnv(data[..FRAME_HEADER + length])
  }

  predicate HeaderOk(data: Bytes) {
    && |data| >= FRAME_HEADER && Read32(data).value == FRAME_MAGIC && Read32(data[4..]).value == FRAME_VERSION
    && MessageTypeOf(data[8]).Some? && LengthField(data) <= MAX_PAYLOAD
  }

  lemma HeaderOffsets(data: Bytes)
    requires |data| >= FRAME_HEADER
    ensures Read32(data).rest == data[4..] && Read32(data[4..]).rest == data[8..]
    ensures Read8(data[8..]) == Got(data[8], data[9..]) && Read64(data[9..]).rest == data[17..]
  {
    PutLEOfReadLE(4, data);
    PutLEOfReadLE(4, data[4..]);
    assert data[4..][4..] == data[8..] && data[8..][1..] == data[9..];
    PutLEOfReadLE(8, data[9..]);
    assert data[9..][8..] == data[17..];
  }

  lemma ShortIsRefused(data: Bytes)
    requires |data| < FRAME_HEADER
    ensures Decode(data).None?
  {
    hide Fnv;
    if |data| >= 4 {
      PutLEOfReadLE(4, data);
      if |data| >= 8 { PutLEOfReadLE(4, data[4..]); }
    }
  }

  /** What a decoder accepts, field by field. */
  lemma DecodeByFields(data: Bytes)
    ensures Decode(data).Some? <==> HeaderOk(data) && Sealed(data, LengthField(data))
    ensures Decode(data).Some? ==>
      Decode(data).value == Frame(MessageTypeOf(data[8]).value, data[FRAME_HEADER..FRAME_HEADER + LengthField(data)])
  {
    hide Fnv, ReadLE;
    if |data| < FRAME_HEADER { ShortIsRefused(data); } else { HeaderOffsets(data); LongEnough(data); }
  }

  lemma LongEnough(data: Bytes)
    requires |data| >= FRAME_HEADER
    ensures Read32(data).Got? && Read32(data[4..]).Got? && Read64(data[9..]).Got?
  {
  }

  // ----- decoding and encoding -----

  lemma CoveredFields(kind: MessageType, length: u64, payload: Bytes)
    ensures var c := Covered(kind, length, payload);
      && |c| == FRAME_HEADER + |payload| && Read32(c).value == FRAME_MAGIC && Read32(c[4..]).value == FRAME_VERSION
      && c[8] == MessageTypeCode(kind) && LengthField(c) == length && c[FRAME_HEADER..] == payload
  {
    var c := Covered(kind, length, payload);
    var c3 := Put64(length, payload);
    var c2 := Put8(MessageTypeCode(kind), c3);
    var c1 := Put32(FRAME_VERSION, c2);
    PutLEOfReadLE(4, c);
    PutLEOfReadLE(4, c1);
    assert c1 == c[4..] && c2 == c1[4..] && c1[4..] == c[8..] && c3 == c[9..];
    PutLEOfReadLE(8, c3);
    assert c3[8..] == c[17..];
  }

  /** A frame followed by any bytes decodes to the frame. */
  lemma DecodeOfEncode(f: Frame, extra: Bytes)
    requires |f.payload| <= MAX_PAYLOAD
    ensures Decode(Encode(f).value + extra) == Some(f)
  {
    hide Fnv, Decode, Covered, Put64, ReadLE;
    var length := |f.payload|;
    var body := Covered(f.kind, length, f.payload);
    var data := Encode(f).value + extra;
    CoveredFields(f.kind, length, f.payload);
    assert data[..|body|] == body;
    ReadLESeesPrefix(4, data, body);
    assert data[4..][..4] == body[4..][..4] && data[9..][..8] == body[9..][..8];
    ReadLESeesPrefix(4, data[4..], body[4..]);
    ReadLESeesPrefix(8, data[9..], body[9..]);
    assert data[FRAME_HEADER..|body|] == f.payload by { assert body[FRAME_HEADER..] == data[FRAME_HEADER..|body|]; }
    SumIsRead(data, body, extra);
    DecodeByFields(data);
  }

  lemma SumIsRead(data: Bytes, body: Bytes, extra: Bytes)
    requires data == body + Put64(Fnv(body), []) + extra
    ensures |data| == |body| + 8 + |extra| && Read64(data[|body|..]).value == Fnv(body)
  {
    hide Fnv, Put64, ReadLE;
    var sum := Put64(Fnv(body), []);
    assert Read64(sum) == Got(Fnv(body), []);
    assert |sum| == 8;
    assert data[|body|..][..8] == sum[..8];
    ReadLESeesPrefix(8, data[|body|..], sum);
  }

  /** Two buffers that decode to the same frame start with the same bytes. */
  lemma SameFrameSameBytes(a: Bytes, b: Bytes)
    requires Decode(a).Some? && Decode(b) == Decode(a)
    ensures var n := FRAME_HEADER + LengthField(a) + 8; n <= |a| && n <= |b| && a[..n] == b[..n]
  {
    hide Decode, Fnv, ReadLE;
    DecodeByFields(a);
    DecodeByFields(b);
    var length := LengthField(a);
    var end := FRAME_HEADER + length;
    assert |a[FRAME_HEADER..end]| == length;
    SameField(4, a, b);
    SameField(4, a[4..], b[4..]);
    CodesAreDistinct(a[8]);
    CodesAreDistinct(b[8]);
    SameField(8, a[9..], b[9..]);
    assert a[..end] == a[..4] + a[4..][..4] + [a[8]] + a[9..][..8] + a[FRAME_HEADER..end];
    assert b[..end] == b[..4] + b[4..][..4] + [b[8]] + b[9..][..8] + b[FRAME_HEADER..end];
    SameField(8, a[end..], b[end..]);
    assert a[..end + 8] == a[..end] + a[end..][..8] && b[..end + 8] == b[..end] + b[end..][..8];
  }

  /** A buffer decodes to a frame exactly when it starts with that frame's encoding. */
  lemma DecodesIffStartsWithEncoding(data: Bytes, f: Frame)
    ensures Decode(data) == Some(f) <==> Encode(f).Some? && Encode(f).value <= data
  {
    hide Decode, Fnv, ReadLE, Covered, Put64;
    if Decode(data) == Some(f) {
      DecodeByFields(data);
      DecodeOfEncode(f, []);
      var code := Encode(f).value;
      assert code + [] == code;
      SameFrameSameBytes(code, data);
      DecodeByFields(code);
      CodeLength(f);
      assert code[..|code|] == code;
    }
    if Encode(f).Some? && Encode(f).value <= data {
      DecodeOfEncode(f, data[|Encode(f).value|..]);
      assert Encode(f).value + data[|Encode(f).value|..] == data;
    }
  }

  lemma CodeLength(f: Frame)
    requires |f.payload| <= MAX_PAYLOAD
    ensures |Encode(f).value| == FRAME_HEADER + |f.payload| + 8
  {
    hide Fnv, Covered;
    CoveredFields(f.kind, |f.payload|, f.payload);
    SumIsRead(Encode(f).value, Covered(f.kind, |f.payload|, f.payload), []);
    assert Encode(f).value + [] == Encode(f).value;
  }

  // ----- one changed byte -----

  /** Any one changed byte of a frame outside its length field is noticed, whatever follows the frame. */
  lemma FrameNoticesEveryByte(data: Bytes, i: nat, y: u8)
    requires Decode(data).Some? && i < |data| && data[i] != y
    requires i < FRAME_HEADER + |Decode(data).value.payload| + 8 && !(9 <= i < 17)
    ensures Decode(data[i := y]).None?
  {
    hide Decode, Fnv, ReadLE;
    var changed := data[i := y];
    DecodeByFields(data);
    if Decode(changed).Some? {
      DecodeByFields(changed);
      var end := FRAME_HEADER + LengthField(data);
      assert changed[9..][..8] == data[9..][..8];
      ReadLESeesPrefix(8, changed[9..], data[9..]);
      if i < end {
        assert changed[..end] == data[..end][i := y] && changed[end..] == data[end..];
        OneByteChangesChecksum(data[..end], i, y);
      } else {
        assert changed[..end] == data[..end] && changed[end..] == data[end..][i - end := y];
        FieldNotices(8, data[end..], i - end, y);
      }
    }
  }

  /** A changed length byte is noticed, whatever follows the frame, exactly unless the new length is permitted
      and a checksum happens to stand where the frame would then end. */
  lemma LengthByteNoticedIff(data: Bytes, i: nat, y: u8)
    requires Decode(data).Some? && 9 <= i < 17 && data[i] != y
    ensures Decode(data[i := y]).Some? <==>
      LengthField(data[i := y]) <= MAX_PAYLOAD && Sealed(data[i := y], LengthField(data[i := y]))
    ensures LengthField(data[i := y]) != LengthField(data)
  {
    hide Decode, Fnv, ReadLE;
    DecodeByFields(data);
    var changed := data[i := y];
    DecodeByFields(changed);
    assert changed[..4] == data[..4] && changed[4..][..4] == data[4..][..4] && changed[8] == data[8];
    ReadLESeesPrefix(4, changed, data);
    ReadLESeesPrefix(4, changed[4..], data[4..]);
    assert changed[9..] == data[9..][i - 9 := y];
    FieldNotices(8, data[9..], i - 9, y);
  }

  /** In a buffer that holds just the frame, only a shortened frame can go unnoticed. */
  lemma OnlyShorterGoesUnnoticed(data: Bytes, i: nat, y: u8)
    requires Decode(data).Some? && |data| == FRAME_HEADER + LengthField(data) + 8
    requires 9 <= i < 17 && data[i] != y
    ensures Decode(data[i := y]).Some? <==>
      LengthField(data[i := y]) < LengthField(data) && Sealed(data[i := y], LengthField(data[i := y]))
  {
    hide Decode, Fnv, ReadLE;
    DecodeByFields(data);
    LengthByteNoticedIff(data, i, y);
  }

  /** Such frames exist, for every message type: a payload that is itself the checksum of the empty frame. */
  lemma LengthByteCanGoUnnoticed(kind: MessageType)
    ensures var f := Frame(kind, Put64(Fnv(Covered(kind, 0, [])), []));
      && |f.payload| == 8 && Encode(f).Some? && |Encode(f).value| > 9 && Encode(f).value[9] == 8
      && Decode(Encode(f).value[9 := 0]) == Some(Frame(kind, []))
  {
    hide Fnv, Decode, ReadLE, Covered;
    var inner := Covered(kind, 0, []);
    var sum := Put64(Fnv(inner), []);
    SumIsRead(inner + sum, inner, []);
    assert inner + sum + [] == inner + sum;
    var body := Covered(kind, 8, sum);
    CoveredFields(kind, 8, sum);
    assert |sum| == 8;
    OnlyLengthDiffers(kind, sum);
    var code := Encode(Frame(kind, sum)).value;
    assert code[9 := 0] == body[9 := 0] + Put64(Fnv(body), []);
    assert code[9 := 0] == inner + sum + Put64(Fnv(body), []);
    assert Encode(Frame(kind, [])).value == inner + sum;
    DecodeOfEncode(Frame(kind, []), Put64(Fnv(body), []));
  }

  lemma OnlyLengthDiffers(kind: MessageType, sum: Bytes)
    ensures |Covered(kind, 8, sum)| > 9 && Covered(kind, 8, sum)[9] == 8
    ensures Covered(kind, 8, sum)[9 := 0] == Covered(kind, 0, []) + sum
  {
    hide Put32, Put8, Put64, PutLE;
    var zeros := PutLE(7, 0, sum);
    LengthBytes(sum);
    HeaderBytes(kind, Put64(8, sum));
    HeaderBytes(kind, Put64(0, []));
    ReplaceNinth(Covered(kind, 8, sum), Covered(kind, 0, []), zeros, sum);
  }

  lemma ReplaceNinth(long: Bytes, short: Bytes, zeros: Bytes, sum: Bytes)
    requires |long| >= 9 && |short| >= 9 && long[..9] == short[..9]
    requires long[9..] == [8] + zeros && short[9..] + sum == [0] + zeros
    ensures |long| > 9 && long[9] == 8 && long[9 := 0] == short + sum
  {
    assert |long| == 9 + |long[9..]| && long[9] == long[9..][0];
    assert long == long[..9] + long[9..];
    assert long[9 := 0] == long[..9] + ([0] + zeros);
    assert short + sum == short[..9] + (short[9..] + sum);
  }

  lemma LengthBytes(sum: Bytes)
    ensures Put64(8, sum) == [8] + PutLE(7, 0, sum) && Put64(0, []) + sum == [0] + PutLE(7, 0, sum)
  {
    hide PutLE, ReadLE;
    FirstByte(7, 8, sum);
    FirstByte(7, 0, []);
    PutLEJoins(7, 0, [], sum);
    assert [] + sum == sum;
    assert [0] + PutLE(7, 0, []) + sum == [0] + (PutLE(7, 0, []) + sum);
  }

  lemma FirstByte(n: nat, v: u8, rest: Bytes)
    ensures PutLE(n + 1, v, rest) == [v] + PutLE(n, 0, rest)
  {
    assert v % 256 == v && v / 256 == 0;
  }

  lemma HeaderBytes(kind: MessageType, later: Bytes)
    ensures var h := Put32(FRAME_MAGIC, Put32(FRAME_VERSION, Put8(MessageTypeCode(kind), later)));
      |h| == 9 + |later| && h[9..] == later
      && h[..9] == Put32(FRAME_MAGIC, Put32(FRAME_VERSION, [MessageTypeCode(kind)]))
  {
    var c2 := Put8(MessageTypeCode(kind), later);
    var c1 := Put32(FRAME_VERSION, c2);
    PutLEOfReadLE(4, c1);
    PutLEOfReadLE(4, Put32(FRAME_MAGIC, c1));
    PutLEJoins(4, FRAME_VERSION, [MessageTypeCode(kind)], later);
    PutLEJoins(4, FRAME_MAGIC, Put32(FRAME_VERSION, [MessageTypeCode(kind)]), later);
    assert c2 == [MessageTypeCode(kind)] + later;
    var short := Put32(FRAME_MAGIC, Put32(FRAME_VERSION, [MessageTypeCode(kind)]));
    assert Put32(FRAME_MAGIC, c1) == short + later;
    PutLEOfReadLE(4, short);
    PutLEOfReadLE(4, Put32(FRAME_VERSION, [MessageTypeCode(kind)]));
    assert |short| == 9;
  }

  // ----- the code -----

  method EncodeFrame(f: Frame) returns (data: Option<Bytes>)
    ensures data == Encode(f)
  {
    hide Put8, Put32, Put64, Fnv;
    if |f.payload| > MAX_PAYLOAD { return None; }
    var w := new Writer();
    w.U32(FRAME_MAGIC);
    w.U32(FRAME_VERSION);
    w.U8(MessageTypeCode(f.kind));
    w.U64(|f.payload|);
    ghost var header := w.buf;
    assert header + f.payload == [] + Covered(f.kind, |f.payload|, f.payload);
    w.Raw(f.payload);
    var body := w.buf;
    assert body == Covered(f.kind, |f.payload|, f.payload);
    var checksum := Fnv1a(body);
    w.U64(checksum);
    assert w.buf + [] == w.buf;
    assert w.buf + [] == body + Put64(checksum, []);
    return Some(w.buf);
  }

  method StoredChecksum(data: Bytes, end: nat) returns (sum: u64)
    requires end + 8 <= |data|
    ensures sum == Read64(data[end..]).value
  {
    hide Read64;
    EightBytes(data[end..]);
    var tail := new Reader(data[end..]);
    var checksum := tail.U64();
    return checksum.value;
  }

  method DecodeFrame(data: Bytes) returns (f: Option<Frame>)
    ensures f == Decode(data)
  {
    hide Read32, Read64, Fnv, ReadEnum, MessageTypeOf;
    var r := new Reader(data);
    var magic := r.U32();
    if magic.Stop? || magic.value != FRAME_MAGIC { return None; }
    var version := r.U32();
    if version.Stop? || version.value != FRAME_VERSION { return None; }
    var kind := r.Enum(MessageTypeOf);
    if kind.Stop? { return None; }
    var length := r.U64();
    if length.Stop? || length.value > MAX_PAYLOAD { return None; }
    if FRAME_HEADER + length.value + 8 > |data| { return None; }
    var end := FRAME_HEADER + length.value;
    var sum := Fnv1a(data[..end]);
    var checksum := StoredChecksum(data, end);
    if sum != checksum { return None; }
    return Some(Frame(kind.value, data[FRAME_HEADER..end]));
  }

  lemma EightBytes(b: Bytes)
    ensures |b| >= 8 ==> Read64(b).Got?
  {
  }
}
