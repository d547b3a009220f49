/** The cursor-based reader of src/persistence.cpp, and `parseStore` built on it. */
module StoreReader {
  import opened Core
  import opened Model
  import opened EnumCodes
  import opened Wire
  import opened Checksum
  import opened StoreCodec
  import opened StoreFormat
  import opened StoreValidity
  import opened StoreChecker

  /** A value, or the error that ends the parse. */
  datatype Outcome<+T> = Have(value: T) | Stop(code: Code) {
    predicate IsFailure() { Stop? }
    function PropagateFailure<U>(): Outcome<U> requires Stop? { Stop(code) }
    function Extract(): T requires Have? { value }
  }

  /** The cursor reader did what the format's reader does on the bytes that were left. */
  ghost predicate Agrees<T>(r: Outcome<T>, left: Bytes, spec: Read<T>) {
    match spec
    case Fail(code) => r == Stop(code)
    case Got(value, rest) => r == Have(value) && left == rest
  }

  /** What a list reader returns when `xs` came before the part it still has to read. */
  ghost function After<T>(xs: seq<T>, later: Read<seq<T>>): Read<seq<T>> {
    if later.Fail? then later else Got(xs + later.value, later.rest)
  }

  lemma ReadOneMore<T(!new)>(read: Bytes -> Read<T>, n: nat, xs: seq<T>, b: Bytes)
    requires n > 0
    ensures read(b).Fail? ==> After(xs, ReadAll(read, n, b)) == Fail(read(b).code)
    ensures read(b).Got? ==>
      After(xs, ReadAll(read, n, b)) == After(xs + [read(b).value], ReadAll(read, n - 1, read(b).rest))
  {
    if read(b).Got? {
      var later := ReadAll(read, n - 1, read(b).rest);
      if later.Got? { assert xs + ([read(b).value] + later.value) == xs + [read(b).value] + later.value; }
    }
  }

  lemma NothingBefore<T(!new)>(later: Read<seq<T>>)
    ensures After([], later) == later
  {
    if later.Got? { assert [] + later.value == later.value; }
  }

  lemma AfterLast<T(!new)>(xs: seq<T>, b: Bytes)
    ensures After(xs, Got([], b)) == Got(xs, b)
  {
    assert xs + [] == xs;
  }

  lemma ReadLEOneMore(n: nat, weight: nat, total: nat, b: Bytes)
    requires n > 0
    ensures b == [] ==> ReadLE(n, b).Fail?
    ensures b != [] ==>
      var r, later := ReadLE(n, b), ReadLE(n - 1, b[1..]);
      && r.Fail? == later.Fail?
      && total + weight * b[0] >= 0
      && (r.Got? ==> r.rest == later.rest
                     && total + weight * r.value == total + weight * b[0] + (256 * weight) * later.value)
  {
    if b != [] && ReadLE(n - 1, b[1..]).Got? {
      var v := ReadLE(n - 1, b[1..]).value;
      assert weight * (b[0] + 256 * v) == weight * b[0] + weight * (256 * v);
    }
  }

  /** The id of a record is read, and checked, before the rest of it. */
  function ReadFresh(seen: set<u64>, b: Bytes): Read<Record> {
    var (id, b) :- Read64(b);
    if id == 0 then Fail(Corruption) else if id in seen then Fail(DuplicateId) else ReadBodyOf(id, b)
  }

  lemma ReadRecordsOneMore(n: nat, seen: set<u64>, xs: seq<Record>, b: Bytes)
    requires n > 0
    ensures var r := ReadFresh(seen, b);
      && (r.Fail? ==> After(xs, ReadRecords(n, seen, b)) == Fail(r.code))
      && (r.Got? ==>
            After(xs, ReadRecords(n, seen, b))
            == After(xs + [r.value], ReadRecords(n - 1, seen + {r.value.plan.id}, r.rest)))
  {
    hide ReadBodyOf, Read64;
    var r := ReadFresh(seen, b);
    if r.Got? {
      ReadBodyOfFits(Read64(b).value, Read64(b).rest);
      var later := ReadRecords(n - 1, seen + {r.value.plan.id}, r.rest);
      if later.Got? { assert xs + ([r.value] + later.value) == xs + [r.value] + later.value; }
    }
  }

  class Reader {
    const data: Bytes
    var pos: nat

    ghost predicate Valid()
      reads this
    {
      pos <= |data|
    }

    /** The bytes not yet read. */
    ghost function Left(): Bytes
      requires Valid()
      reads this
    {
      data[pos..]
    }

    constructor (data: Bytes)
      ensures Valid() && Left() == data && this.data == data && pos == 0
    {
      this.data, pos := data, 0;
      new;
      assert data[0..] == data;
    }

    method U8() returns (r: Outcome<u8>)
      requires Valid()
      modifies this
      ensures Valid() && Agrees(r, Left(), Read8(old(Left())))
    {
      if pos + 1 > |data| { return Stop(Truncation); }
      var v := data[pos];
      assert data[pos..][0] == v && data[pos..][1..] == data[pos + 1..];
      pos := pos + 1;
      return Have(v);
    }

    method LittleEndian(n: nat) returns (r: Outcome<nat>)
      requires Valid()
      modifies this
      ensures Valid() && Agrees(r, Left(), ReadLE(n, old(Left())))
    {
      ghost var start := Left();
      var total: nat, weight: nat := 0, 1;
      for i := 0 to n
        invariant Valid()
        invariant ReadLE(n, start).Fail? == ReadLE(n - i, Left()).Fail?
        invariant ReadLE(n, start).Got? ==>
          && ReadLE(n, start).rest == ReadLE(n - i, Left()).rest
          && ReadLE(n, start).value == total + weight * ReadLE(n - i, Left()).value
      {
        ReadLEOneMore(n - i, weight, total, Left());
        var x :- U8();
        total, weight := total + weight * x, 256 * weight;
      }
      return Have(total);
    }

    method U32() returns (r: Outcome<u32>)
      requires Valid()
      modifies this
      ensures Valid() && Agrees(r, Left(), Read32(old(Left())))
    {
      r := LittleEndian(4);
    }

    method U64() returns (r: Outcome<u64>)
      requires Valid()
      modifies this
      ensures Valid() && Agrees(r, Left(), Read64(old(Left())))
    {
      r := LittleEndian(8);
    }

    method Boo() returns (r: Outcome<bool>)
      requires Valid()
      modifies this
      ensures Valid() && Agrees(r, Left(), ReadBool(old(Left())))
    {
      var v :- U8();
      return Have(v != 0);
    }

    method Enum<T>(of: u8 -> Option<T>) returns (r: Outcome<T>)
      requires Valid()
      modifies this
      ensures Valid() && Agrees(r, Left(), ReadEnum(of, old(Left())))
    {
      var v :- U8();
      if of(v).None? { return Stop(InvalidEnum); }
      return Have(of(v).value);
    }

    method Str() returns (r: Outcome<Bytes>)
      requires Valid()
      modifies this
      ensures Valid() && Agrees(r, Left(), ReadStr(old(Left())))
    {
      hide Read64;
      var len :- U64();
      if len > MAX_COUNT { return Stop(Truncation); }
      if pos + len > |data| { return Stop(Truncation); }
      assert Left()[..len] == data[pos..pos + len] && Left()[len..] == data[pos + len..];
      var s := data[pos..pos + len];
      pos := pos + len;
      return Have(s);
    }

    method Text() returns (r: Outcome<Bytes>)
      requires Valid()
      modifies this
      ensures Valid() && Agrees(r, Left(), ReadText(old(Left())))
    {
      hide ReadStr;
      var s := Str();
      if s.Stop? { return Stop(Corruption); }
      return s;
    }

    // ----- entities and counted lists -----

    method Ids() returns (r: Outcome<seq<u64>>)
      requires Valid()
      modifies this
      ensures Valid() && Agrees(r, Left(), ReadList(Read64, old(Left())))
    {
      hide Read32, Read64, After;
      var n :- U32();
      if n > MAX_COUNT { return Stop(OversizedCount); }
      var xs: seq<u64> := [];
      ghost var start := Left();
      NothingBefore(ReadAll(Read64, n, start));
      for i := 0 to n
        invariant Valid() && ReadAll(Read64, n, start) == After(xs, ReadAll(Read64, n - i, Left()))
      {
        ReadOneMore(Read64, n - i, xs, Left());
        var x :- U64();
        xs := xs + [x];
      }
      AfterLast(xs, Left());
      return Have(xs);
    }

    method Pair() returns (r: Outcome<(u64, u64)>)
      requires Valid()
      modifies this
      ensures Valid() && Agrees(r, Left(), ReadPair(old(Left())))
    {
      hide Read8, Read32, Read64, ReadBool, ReadStr, ReadEnum;
      var x :- U64();
      var y :- U64();
      return Have((x, y));
    }

    method Pairs() returns (r: Outcome<seq<(u64, u64)>>)
      requires Valid()
      modifies this
      ensures Valid() && Agrees(r, Left(), ReadList(ReadPair, old(Left())))
    {
      hide Read32, ReadPair, After;
      var n :- U32();
      if n > MAX_COUNT { return Stop(OversizedCount); }
      var xs: seq<(u64, u64)> := [];
      ghost var start := Left();
      NothingBefore(ReadAll(ReadPair, n, start));
      for i := 0 to n
        invariant Valid() && ReadAll(ReadPair, n, start) == After(xs, ReadAll(ReadPair, n - i, Left()))
      {
        ReadOneMore(ReadPair, n - i, xs, Left());
        var x :- Pair();
        xs := xs + [x];
      }
      AfterLast(xs, Left());
      return Have(xs);
    }

    method Texts() returns (r: Outcome<seq<Bytes>>)
      requires Valid()
      modifies this
      ensures Valid() && Agrees(r, Left(), ReadList(ReadText, old(Left())))
    {
      hide Read32, ReadText, After;
      var n :- U32();
      if n > MAX_COUNT { return Stop(OversizedCount); }
      var xs: seq<Bytes> := [];
      ghost var start := Left();
      NothingBefore(ReadAll(ReadText, n, start));
      for i := 0 to n
        invariant Valid() && ReadAll(ReadText, n, start) == After(xs, ReadAll(ReadText, n - i, Left()))
      {
        ReadOneMore(ReadText, n - i, xs, Left());
        var x :- Text();
        xs := xs + [x];
      }
      AfterLast(xs, Left());
      return Have(xs);
    }

    method Component() returns (r: Outcome<CostComponent<u64>>)
      requires Valid()
      modifies this
      ensures Valid() && Agrees(r, Left(), ReadComponent(old(Left())))
    {
      hide Read8, Read32, Read64, ReadBool, ReadStr, ReadEnum;
      var factor :- Enum(CostFactorOf);
      var weight :- U64();
      var value :- U64();
      var provenance :- Enum(ProvenanceOf);
      return Have(CostComponent(factor, weight, value, provenance));
    }

    method Components() returns (r: Outcome<seq<CostComponent<u64>>>)
      requires Valid()
      modifies this
      ensures Valid() && Agrees(r, Left(), ReadList(ReadComponent, old(Left())))
    {
      hide Read32, ReadComponent, After;
      var n :- U32();
      if n > MAX_COUNT { return Stop(OversizedCount); }
      var xs: seq<CostComponent<u64>> := [];
      ghost var start := Left();
      NothingBefore(ReadAll(ReadComponent, n, start));
      for i := 0 to n
        invariant Valid() && ReadAll(ReadComponent, n, start) == After(xs, ReadAll(ReadComponent, n - i, Left()))
      {
        ReadOneMore(ReadComponent, n - i, xs, Left());
        var x :- Component();
        xs := xs + [x];
      }
      AfterLast(xs, Left());
      return Have(xs);
    }

    method Cost() returns (r: Outcome<CostSummary<u64>>)
      requires Valid()
      modifies this
      ensures Valid() && Agrees(r, Left(), ReadCost(old(Left())))
    {
      hide ReadList, Read64;
      var components :- Components();
      var total :- U64();
      return Have(CostSummary(components, total));
    }

    method CostField() returns (r: Outcome<CostSummary<u64>>)
      requires Valid()
      modifies this
      ensures Valid() && Agrees(r, Left(), ReadCostField(old(Left())))
    {
      hide ReadCost;
      var x := Cost();
      if x.Stop? { return Stop(Corruption); }
      return x;
    }

    method StageFields() returns (r: Outcome<Stage>)
      requires Valid()
      modifies this
      ensures Valid() && Agrees(r, Left(), ReadStage(old(Left())))
    {
      hide Read8, Read32, Read64, ReadBool, ReadStr, ReadEnum;
      var id :- U64();
      var generation :- U64();
      var source :- U64();
      var destination :- U64();
      var link :- U64();
      var transport :- Enum(TransportOf);
      var payload :- U64();
      var bandwidth :- U64();
      var latency :- U64();
      var staging :- U64();
      var authority :- Boo();
      var provenance :- Enum(ProvenanceOf);
      var description :- Str();
      return Have(Stage(id, generation, source, destination, link, transport, payload, bandwidth, latency, staging,
                        authority, provenance, description));
    }

    method Stages() returns (r: Outcome<seq<Stage>>)
      requires Valid()
      modifies this
      ensures Valid() && Agrees(r, Left(), ReadList(ReadStage, old(Left())))
    {
      hide Read32, ReadStage, After;
      var n :- U32();
      if n > MAX_COUNT { return Stop(OversizedCount); }
      var xs: seq<Stage> := [];
      ghost var start := Left();
      NothingBefore(ReadAll(ReadStage, n, start));
      for i := 0 to n
        invariant Valid() && ReadAll(ReadStage, n, start) == After(xs, ReadAll(ReadStage, n - i, Left()))
      {
        ReadOneMore(ReadStage, n - i, xs, Left());
        var x :- StageFields();
        xs := xs + [x];
      }
      AfterLast(xs, Left());
      return Have(xs);
    }

    method StageField() returns (r: Outcome<Stage>)
      requires Valid()
      modifies this
      ensures Valid() && Agrees(r, Left(), ReadStageField(old(Left())))
    {
      hide ReadStage;
      var x := StageFields();
      if x.Stop? { return Stop(Corruption); }
      return x;
    }

    method OrderedStages() returns (r: Outcome<seq<Stage>>)
      requires Valid()
      modifies this
      ensures Valid() && Agrees(r, Left(), ReadList(ReadStageField, old(Left())))
    {
      hide Read32, ReadStageField, After;
      var n :- U32();
      if n > MAX_COUNT { return Stop(OversizedCount); }
      var xs: seq<Stage> := [];
      ghost var start := Left();
      NothingBefore(ReadAll(ReadStageField, n, start));
      for i := 0 to n
        invariant Valid() && ReadAll(ReadStageField, n, start) == After(xs, ReadAll(ReadStageField, n - i, Left()))
      {
        ReadOneMore(ReadStageField, n - i, xs, Left());
        var x :- StageField();
        xs := xs + [x];
      }
      AfterLast(xs, Left());
      return Have(xs);
    }

    method PathFields() returns (r: Outcome<Path<u64>>)
      requires Valid()
      modifies this
      ensures Valid() && Agrees(r, Left(), ReadPath(old(Left())))
    {
      hide Read8, Read32, Read64, ReadBool, ReadStr, ReadEnum, ReadList, ReadCost;
      var id :- U64();
      var generation :- U64();
      var source :- U64();
      var destination :- U64();
      var payload :- U64();
      var provenance :- Enum(ProvenanceOf);
      var stages :- Stages();
      var cost :- Cost();
      var failureDomain :- Str();
      var reason :- Str();
      return Have(Path(id, generation, source, destination, stages, payload, cost, provenance, failureDomain, reason));
    }

    method PathField() returns (r: Outcome<Path<u64>>)
      requires Valid()
      modifies this
      ensures Valid() && Agrees(r, Left(), ReadPathField(old(Left())))
    {
      hide ReadPath;
      var x := PathFields();
      if x.Stop? { return Stop(Corruption); }
      return x;
    }

    method Paths() returns (r: Outcome<seq<Path<u64>>>)
      requires Valid()
      modifies this
      ensures Valid() && Agrees(r, Left(), ReadList(ReadPathField, old(Left())))
    {
      hide Read32, ReadPathField, After;
      var n :- U32();
      if n > MAX_COUNT { return Stop(OversizedCount); }
      var xs: seq<Path<u64>> := [];
      ghost var start := Left();
      NothingBefore(ReadAll(ReadPathField, n, start));
      for i := 0 to n
        invariant Valid() && ReadAll(ReadPathField, n, start) == After(xs, ReadAll(ReadPathField, n - i, Left()))
      {
        ReadOneMore(ReadPathField, n - i, xs, Left());
        var x :- PathField();
        xs := xs + [x];
      }
      AfterLast(xs, Left());
      return Have(xs);
    }

    method HeadFields() returns (r: Outcome<Head>)
      requires Valid()
      modifies this
      ensures Valid() && Agrees(r, Left(), ReadHead(old(Left())))
    {
      hide Read8, Read32, Read64, ReadBool, ReadStr, ReadEnum;
      var generation :- U64();
      var requestId :- U64();
      var requestGeneration :- U64();
      var shape :- Enum(RequestShapeOf);
      var primaryPath :- U64();
      var feasibility :- Enum(FeasibilityOf);
      var state :- Enum(PlanStateOf);
      return Have(Head(generation, requestId, requestGeneration, shape, primaryPath, feasibility, state));
    }

    method RoutingFields() returns (r: Outcome<Routing>)
      requires Valid()
      modifies this
      ensures Valid() && Agrees(r, Left(), ReadRouting(old(Left())))
    {
      hide ReadList;
      var paths :- Paths();
      var fallbacks :- Ids();
      var stages :- OrderedStages();
      return Have(Routing(paths, fallbacks, stages));
    }

    method GenerationFields() returns (r: Outcome<Generations>)
      requires Valid()
      modifies this
      ensures Valid() && Agrees(r, Left(), ReadGenerations(old(Left())))
    {
      hide Read8, Read32, Read64, ReadBool, ReadStr, ReadEnum;
      var topology :- U64();
      var capacity :- U64();
      var reservation :- U64();
      var congestion :- U64();
      var capability :- U64();
      var health :- U64();
      var placement :- U64();
      var authority :- U64();
      return Have(Generations(topology, capacity, reservation, congestion, capability, health, placement, authority));
    }

    method BindingFields() returns (r: Outcome<Binding>)
      requires Valid()
      modifies this
      ensures Valid() && Agrees(r, Left(), ReadBinding(old(Left())))
    {
      hide ReadList, ReadGenerations;
      var bound :- GenerationFields();
      var endpoints :- Pairs();
      var links :- Pairs();
      var staging :- Ids();
      var claims :- Ids();
      return Have(Binding(bound, endpoints, links, staging, claims));
    }

    method TailFields() returns (r: Outcome<Tail>)
      requires Valid()
      modifies this
      ensures Valid() && Agrees(r, Left(), ReadTail(old(Left())))
    {
      hide Read8, Read32, Read64, ReadBool, ReadStr, ReadEnum, ReadList, ReadCost, ReadText;
      var cost :- CostField();
      var explanations :- Texts();
      var provenance :- Text();
      var revalidation :- U64();
      var revalidate :- Boo();
      var handoff :- Text();
      var multicast :- Ids();
      var collective :- Enum(CollectiveShapeOf);
      var participants :- Ids();
      var description :- Text();
      var created :- Text();
      return Have(Tail(cost, explanations, provenance, revalidation, revalidate, handoff, multicast, collective,
                       participants, description, created));
    }

    method RecordBody(id: u64) returns (r: Outcome<Record>)
      requires Valid()
      modifies this
      ensures Valid() && Agrees(r, Left(), ReadBodyOf(id, old(Left())))
    {
      hide ReadHead, ReadRouting, ReadBinding, ReadTail, Assemble;
      var h :- HeadFields();
      var p :- RoutingFields();
      var x :- BindingFields();
      var t :- TailFields();
      return Have(Assemble(id, h, p, x, t));
    }

    method FreshRecord(seen: set<u64>) returns (r: Outcome<Record>)
      requires Valid()
      modifies this
      ensures Valid() && Agrees(r, Left(), ReadFresh(seen, old(Left())))
    {
      hide Read64, ReadBodyOf;
      var id :- U64();
      if id == 0 { return Stop(Corruption); }
      if id in seen { return Stop(DuplicateId); }
      r := RecordBody(id);
    }

    method Records(n: u32) returns (r: Outcome<seq<Record>>)
      requires Valid()
      modifies this
      ensures Valid() && Agrees(r, Left(), ReadRecords(n, {}, old(Left())))
    {
      hide ReadFresh, After;
      var recs: seq<Record> := [];
      var seen: set<u64> := {};
      ghost var start := Left();
      NothingBefore(ReadRecords(n, {}, start));
      for i := 0 to n
        invariant Valid() && ReadRecords(n, {}, start) == After(recs, ReadRecords(n - i, seen, Left()))
      {
        ReadRecordsOneMore(n - i, seen, recs, Left());
        var rec :- FreshRecord(seen);
        recs, seen := recs + [rec], seen + {rec.plan.id};
      }
      AfterLast(recs, Left());
      return Have(recs);
    }

    method RequestFields() returns (r: Outcome<Request>)
      requires Valid()
      modifies this
      ensures Valid() && Agrees(r, Left(), ReadRequest(old(Left())))
    {
      hide Read8, Read32, Read64, ReadEnum, ReadList;
      var id :- U64();
      var generation :- U64();
      var shape :- Enum(RequestShapeOf);
      var source :- U64();
      var payload :- U64();
      var direction :- Enum(DirectionOf);
      var collective :- Enum(CollectiveShapeOf);
      var count :- U64();
      if count > 4294967295 { return Stop(Overflow); }
      var destinations :- Ids();
      return Have(Request(id, generation, shape, source, destinations, payload, direction,
                          true, true, false, true, false, {}, {}, [], 16, 16, 0, collective, [], count));
    }

    method Requests() returns (r: Outcome<seq<Request>>)
      requires Valid()
      modifies this
      ensures Valid() && Agrees(r, Left(), ReadList(ReadRequest, old(Left())))
    {
      hide Read32, ReadRequest, After;
      var n :- U32();
      if n > MAX_COUNT { return Stop(OversizedCount); }
      var xs: seq<Request> := [];
      ghost var start := Left();
      NothingBefore(ReadAll(ReadRequest, n, start));
      for i := 0 to n
        invariant Valid() && ReadAll(ReadRequest, n, start) == After(xs, ReadAll(ReadRequest, n - i, Left()))
      {
        ReadOneMore(ReadRequest, n - i, xs, Left());
        var x :- RequestFields();
        xs := xs + [x];
      }
      AfterLast(xs, Left());
      return Have(xs);
    }

    method Body() returns (r: Outcome<Store>)
      requires Valid()
      modifies this
      ensures Valid() && Agrees(r, Left(), ReadBody(old(Left())))
    {
      hide Read32, Read64, ReadRecords, ReadList;
      var epoch :- U64();
      var n :- U32();
      if n > MAX_COUNT { return Stop(OversizedCount); }
      var plans :- Records(n);
      var supersessions :- Pairs();
      var requests :- Requests();
      return Have(Store(epoch, plans, supersessions, requests));
    }
  }

  method ParseFramed(payload: Bytes, trailing: bool) returns (r: Parsed)
    ensures r == ParsePayload(payload, trailing)
  {
    hide ReadBody, StoreVerdict;
    var body := new Reader(payload);
    var s := body.Body();
    if s.Stop? { return Refused(s.code); }
    if body.pos != |payload| { return Refused(TrailingGarbage); }
    if trailing { return Refused(TrailingGarbage); }
    var v := ValidateStore(s.value);
    return if v.Some? then Refused(v.value) else Parsed(s.value);
  }

  /** `parseStore`. */
  method ParseStore(data: Bytes) returns (p: Parsed)
    ensures p == Parse(data)
  {
    hide Read32, Read64, ParsePayload, Fnv;
    var r := new Reader(data);
    var magic := r.U32();
    if magic.Stop? { return Refused(Truncation); }
    if magic.value != MAGIC { return Refused(BadMagic); }
    var version := r.U32();
    if version.Stop? { return Refused(Truncation); }
    if version.value != VERSION { return Refused(UnsupportedVersion); }
    var sum := r.U64();
    if sum.Stop? { return Refused(Truncation); }
    var length := r.U64();
    if length.Stop? { return Refused(Truncation); }
    if length.value > |data| - r.pos { return Refused(Truncation); }
    var payload := data[r.pos..r.pos + length.value];
    assert payload == r.Left()[..length.value];
    var h := Fnv1a(payload);
    if h != sum.value { return Refused(ChecksumMismatch); }
    p := ParseFramed(payload, r.pos + length.value != |data|);
  }
}
