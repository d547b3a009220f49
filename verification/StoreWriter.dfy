/** The growing-buffer writer of src/persistence.cpp, and `serializeStore` built on it. */
module StoreWriter {
  import opened Core
  import opened Model
  import opened EnumCodes
  import opened Wire
  import opened Checksum
  import opened StoreCodec
  import opened StoreFormat

  /** After a write, the buffer has grown by exactly the bytes the format puts in front of whatever
      follows: so two writes in a row put one in front of the other. */
  class Writer {
    var buf: Bytes

    constructor ()
      ensures buf == []
    {
      buf := [];
    }

    method U8(v: u8)
      modifies this
      ensures buf == old(buf) + [v]
      ensures forall r: Bytes {:trigger Put8(v, r)} :: buf + r == old(buf) + Put8(v, r)
    {
      buf := buf + [v];
      assert forall r: Bytes :: old(buf) + [v] + r == old(buf) + ([v] + r);
    }

    method LittleEndian(n: nat, v: nat)
      modifies this
      ensures forall r: Bytes {:trigger PutLE(n, v, r)} :: buf + r == old(buf) + PutLE(n, v, r)
    {
      var w := v;
      for i := 0 to n
        invariant forall r: Bytes {:trigger PutLE(n, v, r)} :: buf + PutLE(n - i, w, r) == old(buf) + PutLE(n, v, r)
      {
        ghost var before := buf;
        U8(w % 256);
        ghost var m, next := n - i - 1, w / 256;
        forall r: Bytes ensures before + PutLE(n - i, w, r) == buf + PutLE(m, next, r) {
          assert before + ([w % 256] + PutLE(m, next, r)) == before + [w % 256] + PutLE(m, next, r);
        }
        w := w / 256;
      }
    }

    method U32(v: u32)
      modifies this
      ensures forall r: Bytes {:trigger Put32(v, r)} :: buf + r == old(buf) + Put32(v, r)
    {
      LittleEndian(4, v);
    }

    method U64(v: u64)
      modifies this
      ensures forall r: Bytes {:trigger Put64(v, r)} :: buf + r == old(buf) + Put64(v, r)
    {
      LittleEndian(8, v);
    }

    method Boo(v: bool)
      modifies this
      ensures forall r: Bytes {:trigger PutBool(v, r)} :: buf + r == old(buf) + PutBool(v, r)
    {
      U8(if v then 1 else 0);
    }

    method Raw(s: Bytes)
      modifies this
      ensures buf == old(buf) + s
    {
      for i := 0 to |s|
        invariant buf == old(buf) + s[..i]
      {
        U8(s[i]);
        assert s[..i + 1] == s[..i] + [s[i]];
      }
      assert s[..|s|] == s;
    }

    method Str(s: Bytes)
      modifies this
      ensures forall r: Bytes {:trigger PutStr(s, r)} :: buf + r == old(buf) + PutStr(s, r)
    {
      hide Put64;
      U64(|s| % TWO64);
      ghost var middle := buf;
      Raw(s);
      assert forall r: Bytes {:trigger PutStr(s, r)} :: buf + r == middle + (s + r);
    }

    // ----- entities and counted lists -----

    method Ids(xs: seq<u64>)
      modifies this
      ensures forall r: Bytes {:trigger PutList(Put64, xs, r)} :: buf + r == old(buf) + PutList(Put64, xs, r)
    {
      hide Put32, Put64;
      U32(|xs| % TWO32);
      ghost var middle := buf;
      assert xs[0..] == xs;
      for i := 0 to |xs|
        invariant forall r: Bytes {:trigger PutAll(Put64, xs, r)} ::
          buf + PutAll(Put64, xs[i..], r) == middle + PutAll(Put64, xs, r)
      {
        assert xs[i..][0] == xs[i] && xs[i..][1..] == xs[i + 1..];
        U64(xs[i]);
      }
      assert xs[|xs|..] == [];
    }

    method Pair(p: (u64, u64))
      modifies this
      ensures forall r: Bytes {:trigger PutPair(p, r)} :: buf + r == old(buf) + PutPair(p, r)
    {
      hide Put8, Put32, Put64, PutBool, PutStr, PutLE;
      U64(p.0);
      U64(p.1);
    }

    method Pairs(xs: seq<(u64, u64)>)
      modifies this
      ensures forall r: Bytes {:trigger PutList(PutPair, xs, r)} :: buf + r == old(buf) + PutList(PutPair, xs, r)
    {
      hide Put32, PutPair;
      U32(|xs| % TWO32);
      ghost var middle := buf;
      assert xs[0..] == xs;
      for i := 0 to |xs|
        invariant forall r: Bytes {:trigger PutAll(PutPair, xs, r)} ::
          buf + PutAll(PutPair, xs[i..], r) == middle + PutAll(PutPair, xs, r)
      {
        assert xs[i..][0] == xs[i] && xs[i..][1..] == xs[i + 1..];
        Pair(xs[i]);
      }
      assert xs[|xs|..] == [];
    }

    method Texts(xs: seq<Bytes>)
      modifies this
      ensures forall r: Bytes {:trigger PutList(PutStr, xs, r)} :: buf + r == old(buf) + PutList(PutStr, xs, r)
    {
      hide Put32, PutStr;
      U32(|xs| % TWO32);
      ghost var middle := buf;
      assert xs[0..] == xs;
      for i := 0 to |xs|
        invariant forall r: Bytes {:trigger PutAll(PutStr, xs, r)} ::
          buf + PutAll(PutStr, xs[i..], r) == middle + PutAll(PutStr, xs, r)
      {
        assert xs[i..][0] == xs[i] && xs[i..][1..] == xs[i + 1..];
        Str(xs[i]);
      }
      assert xs[|xs|..] == [];
    }

    method Component(c: CostComponent<u64>)
      modifies this
      ensures forall r: Bytes {:trigger PutComponent(c, r)} :: buf + r == old(buf) + PutComponent(c, r)
    {
      hide Put8, Put32, Put64, PutBool, PutStr, PutLE, CostFactorCode, ProvenanceCode;
      U8(CostFactorCode(c.factor));
      U64(c.weight);
      U64(c.value);
      U8(ProvenanceCode(c.provenance));
    }

    method Components(xs: seq<CostComponent<u64>>)
      modifies this
      ensures forall r: Bytes {:trigger PutList(PutComponent, xs, r)} ::
        buf + r == old(buf) + PutList(PutComponent, xs, r)
    {
      hide Put32, PutComponent;
      U32(|xs| % TWO32);
      ghost var middle := buf;
      assert xs[0..] == xs;
      for i := 0 to |xs|
        invariant forall r: Bytes {:trigger PutAll(PutComponent, xs, r)} ::
          buf + PutAll(PutComponent, xs[i..], r) == middle + PutAll(PutComponent, xs, r)
      {
        assert xs[i..][0] == xs[i] && xs[i..][1..] == xs[i + 1..];
        Component(xs[i]);
      }
      assert xs[|xs|..] == [];
    }

    method Cost(c: CostSummary<u64>)
      modifies this
      ensures forall r: Bytes {:trigger PutCost(c, r)} :: buf + r == old(buf) + PutCost(c, r)
    {
      hide PutList, Put64;
      Components(c.components);
      U64(c.total);
    }

    method StageFields(s: Stage)
      modifies this
      ensures forall r: Bytes {:trigger PutStage(s, r)} :: buf + r == old(buf) + PutStage(s, r)
    {
      hide Put8, Put32, Put64, PutBool, PutStr, PutLE, TransportCode, ProvenanceCode;
      U64(s.id);
      U64(s.generation);
      U64(s.source);
      U64(s.destination);
      U64(s.link);
      U8(TransportCode(s.transport));
      U64(s.payload);
      U64(s.expectedBandwidth);
      U64(s.expectedLatency);
      U64(s.stagingResource);
      Boo(s.requiresAuthority);
      U8(ProvenanceCode(s.provenance));
      Str(s.description);
    }

    method Stages(xs: seq<Stage>)
      modifies this
      ensures forall r: Bytes {:trigger PutList(PutStage, xs, r)} :: buf + r == old(buf) + PutList(PutStage, xs, r)
    {
      hide Put32, PutStage;
      U32(|xs| % TWO32);
      ghost var middle := buf;
      assert xs[0..] == xs;
      for i := 0 to |xs|
        invariant forall r: Bytes {:trigger PutAll(PutStage, xs, r)} ::
          buf + PutAll(PutStage, xs[i..], r) == middle + PutAll(PutStage, xs, r)
      {
        assert xs[i..][0] == xs[i] && xs[i..][1..] == xs[i + 1..];
        StageFields(xs[i]);
      }
      assert xs[|xs|..] == [];
    }

    method PathFields(p: Path<u64>)
      modifies this
      ensures forall r: Bytes {:trigger PutPath(p, r)} :: buf + r == old(buf) + PutPath(p, r)
    {
      hide Put8, Put32, Put64, PutBool, PutStr, PutLE, PutList, PutCost, ProvenanceCode;
      U64(p.id);
      U64(p.generation);
      U64(p.source);
      U64(p.destination);
      U64(p.totalPayload);
      U8(ProvenanceCode(p.provenance));
      Stages(p.stages);
      Cost(p.cost);
      Str(p.failureDomain);
      Str(p.reason);
    }

    method Paths(xs: seq<Path<u64>>)
      modifies this
      ensures forall r: Bytes {:trigger PutList(PutPath, xs, r)} :: buf + r == old(buf) + PutList(PutPath, xs, r)
    {
      hide Put32, PutPath;
      U32(|xs| % TWO32);
      ghost var middle := buf;
      assert xs[0..] == xs;
      for i := 0 to |xs|
        invariant forall r: Bytes {:trigger PutAll(PutPath, xs, r)} ::
          buf + PutAll(PutPath, xs[i..], r) == middle + PutAll(PutPath, xs, r)
      {
        assert xs[i..][0] == xs[i] && xs[i..][1..] == xs[i + 1..];
        PathFields(xs[i]);
      }
      assert xs[|xs|..] == [];
    }

    method HeadFields(h: Head)
      modifies this
      ensures forall r: Bytes {:trigger PutHead(h, r)} :: buf + r == old(buf) + PutHead(h, r)
    {
      hide Put8, Put32, Put64, PutBool, PutStr, PutLE, RequestShapeCode, FeasibilityCode, PlanStateCode;
      U64(h.generation);
      U64(h.requestId);
      U64(h.requestGeneration);
      U8(RequestShapeCode(h.shape));
      U64(h.primaryPath);
      U8(FeasibilityCode(h.feasibility));
      U8(PlanStateCode(h.state));
    }

    method RoutingFields(x: Routing)
      modifies this
      ensures forall r: Bytes {:trigger PutRouting(x, r)} :: buf + r == old(buf) + PutRouting(x, r)
    {
      hide PutList;
      Paths(x.paths);
      Ids(x.fallbacks);
      Stages(x.stages);
    }

    method GenerationFields(g: Generations)
      modifies this
      ensures forall r: Bytes {:trigger PutGenerations(g, r)} :: buf + r == old(buf) + PutGenerations(g, r)
    {
      hide Put8, Put32, Put64, PutBool, PutStr, PutLE;
      U64(g.topology);
      U64(g.capacity);
      U64(g.reservation);
      U64(g.congestion);
      U64(g.capability);
      U64(g.health);
      U64(g.placement);
      U64(g.authority);
    }

    method BindingFields(x: Binding)
      modifies this
      ensures forall r: Bytes {:trigger PutBinding(x, r)} :: buf + r == old(buf) + PutBinding(x, r)
    {
      hide PutList, PutGenerations;
      GenerationFields(x.bound);
      Pairs(x.endpoints);
      Pairs(x.links);
      Ids(x.staging);
      Ids(x.claims);
    }

    method TailFields(t: Tail)
      modifies this
      ensures forall r: Bytes {:trigger PutTail(t, r)} :: buf + r == old(buf) + PutTail(t, r)
    {
      hide Put8, Put32, Put64, PutBool, PutStr, PutLE, PutList, PutCost, CollectiveShapeCode;
      Cost(t.cost);
      Texts(t.explanations);
      Str(t.provenance);
      U64(t.revalidation);
      Boo(t.revalidate);
      Str(t.handoff);
      Ids(t.multicast);
      U8(CollectiveShapeCode(t.collective));
      Ids(t.participants);
      Str(t.description);
      Str(t.created);
    }

    method RecordFields(rec: Record)
      modifies this
      ensures forall r: Bytes {:trigger PutRecord(rec, r)} :: buf + r == old(buf) + PutRecord(rec, r)
    {
      hide Put64, PutHead, PutRouting, PutBinding, PutTail, HeadOf, RoutingOf, BindingOf, TailOf;
      U64(rec.plan.id);
      HeadFields(HeadOf(rec));
      RoutingFields(RoutingOf(rec.plan));
      BindingFields(BindingOf(rec.plan));
      TailFields(TailOf(rec.plan));
    }

    method Records(xs: seq<Record>)
      modifies this
      ensures forall r: Bytes {:trigger PutList(PutRecord, xs, r)} :: buf + r == old(buf) + PutList(PutRecord, xs, r)
    {
      hide Put32, PutRecord;
      U32(|xs| % TWO32);
      ghost var middle := buf;
      assert xs[0..] == xs;
      for i := 0 to |xs|
        invariant forall r: Bytes {:trigger PutAll(PutRecord, xs, r)} ::
          buf + PutAll(PutRecord, xs[i..], r) == middle + PutAll(PutRecord, xs, r)
      {
        assert xs[i..][0] == xs[i] && xs[i..][1..] == xs[i + 1..];
        RecordFields(xs[i]);
      }
      assert xs[|xs|..] == [];
    }

    method RequestFields(q: Request)
      modifies this
      ensures forall r: Bytes {:trigger PutRequest(q, r)} :: buf + r == old(buf) + PutRequest(q, r)
    {
      hide Put8, Put32, Put64, PutBool, PutStr, PutLE, PutList, RequestShapeCode, DirectionCode, CollectiveShapeCode;
      U64(q.id);
      U64(q.generation);
      U8(RequestShapeCode(q.shape));
      U64(q.source);
      U64(q.payloadSize);
      U8(DirectionCode(q.direction));
      U8(CollectiveShapeCode(q.collectiveShape));
      U64(q.collectiveCount);
      Ids(q.destinations);
    }

    method Requests(xs: seq<Request>)
      modifies this
      ensures forall r: Bytes {:trigger PutList(PutRequest, xs, r)} :: buf + r == old(buf) + PutList(PutRequest, xs, r)
    {
      hide Put32, PutRequest;
      U32(|xs| % TWO32);
      ghost var middle := buf;
      assert xs[0..] == xs;
      for i := 0 to |xs|
        invariant forall r: Bytes {:trigger PutAll(PutRequest, xs, r)} ::
          buf + PutAll(PutRequest, xs[i..], r) == middle + PutAll(PutRequest, xs, r)
      {
        assert xs[i..][0] == xs[i] && xs[i..][1..] == xs[i + 1..];
        RequestFields(xs[i]);
      }
      assert xs[|xs|..] == [];
    }
  }

  /** `serializeStore`: the body first, then the frame around its bytes. */
  method SerializeStore(s: Store) returns (data: Bytes)
    ensures data == Serialize(s)
  {
    hide Put32, Put64, PutList, Fnv;
    var body := new Writer();
    ghost var requests := PutList(PutRequest, s.requests, []);
    ghost var supersessions := PutList(PutPair, s.supersessions, requests);
    ghost var plans := PutList(PutRecord, s.plans, supersessions);
    assert PutBody(s) == Put64(s.epoch, plans);
    body.U64(s.epoch);
    assert body.buf + plans == [] + PutBody(s);
    body.Records(s.plans);
    body.Pairs(s.supersessions);
    body.Requests(s.requests);
    assert body.buf + [] == [] + PutBody(s);
    var b := body.buf;
    assert b + [] == b && [] + PutBody(s) == PutBody(s);
    var sum := Fnv1a(b);
    var frame := new Writer();
    frame.U32(MAGIC);
    frame.U32(VERSION);
    frame.U64(sum);
    frame.U64(|b| % TWO64);
    ghost var header := frame.buf;
    assert header + b == [] + Frame(sum, |b| % TWO64, b);
    assert [] + Frame(sum, |b| % TWO64, b) == Serialize(s);
    frame.Raw(b);
    return frame.buf;
  }
}
