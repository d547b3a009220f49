/** Whole stores: records with distinct ids, requests, and the checksummed frame around them. */
module StoreFormat {
  import opened Core
  import opened Model
  import opened EnumCodes
  import opened Wire
  import opened Checksum
  import opened StoreCodec
  import opened StoreValidity

  // ----- records -----

  function HeadOf(rec: Record): Head {
    Head(rec.plan.generation, rec.plan.requestId, rec.plan.requestGeneration, rec.plan.shape, rec.plan.primaryPath,
         rec.plan.feasibility, rec.state)
  }

  function RoutingOf(p: Plan<u64>): Routing { Routing(p.candidatePaths, p.fallbackPaths, p.orderedStages) }

  function BindingOf(p: Plan<u64>): Binding {
    Binding(p.bound, p.endpointGenerations, p.linkGenerations, p.requiredStagingResources, p.requiredResourceClaims)
  }

  function TailOf(p: Plan<u64>): Tail {
    Tail(p.cost, p.explanations, p.provenance, p.revalidationGeneration, p.revalidateBeforeExecute,
         p.handoffRequirement, p.multicastDestinations, p.collectiveShape, p.collectiveParticipants, p.description,
         p.createdProvenance)
  }

  function Assemble(id: u64, h: Head, r: Routing, x: Binding, t: Tail): (rec: Record)
    ensures HeadOf(rec) == h && RoutingOf(rec.plan) == r && BindingOf(rec.plan) == x && TailOf(rec.plan) == t
    ensures rec.plan.id == id
  {
    Record(Plan(id, h.generation, h.requestId, h.requestGeneration, h.shape, h.primaryPath, r.fallbacks, r.paths,
                r.stages, h.feasibility, x.bound, x.endpoints, x.links, x.staging, x.claims, t.cost, t.explanations,
                t.provenance, t.revalidation, t.revalidate, t.handoff, t.created, t.multicast, t.collective,
                t.participants, t.description), h.state)
  }

  function PutBodyOf(rec: Record, rest: Bytes): Bytes {
    PutHead(HeadOf(rec),
      PutRouting(RoutingOf(rec.plan), PutBinding(BindingOf(rec.plan), PutTail(TailOf(rec.plan), rest))))
  }

  function ReadBodyOf(id: u64, b: Bytes): Read<Record> {
    var (h, b) :- ReadHead(b);
    var (r, b) :- ReadRouting(b);
    var (x, b) :- ReadBinding(b);
    var (t, b) :- ReadTail(b);
    Got(Assemble(id, h, r, x, t), b)
  }

  function PutRecord(rec: Record, rest: Bytes): Bytes { Put64(rec.plan.id, PutBodyOf(rec, rest)) }

  predicate RecordFits(rec: Record) {
    RoutingFits(RoutingOf(rec.plan)) && BindingFits(BindingOf(rec.plan)) && TailFits(TailOf(rec.plan))
  }

  lemma RecordBodyRoundTrip(rec: Record, rest: Bytes)
    requires RecordFits(rec)
    ensures ReadBodyOf(rec.plan.id, PutBodyOf(rec, rest)) == Got(rec, rest)
  {
    hide PutHead, ReadHead, PutRouting, ReadRouting, PutBinding, ReadBinding, PutTail, ReadTail, RoutingFits,
      BindingFits, TailFits;
    var b2 := PutTail(TailOf(rec.plan), rest);
    var b1 := PutBinding(BindingOf(rec.plan), b2);
    TailRoundTrip(TailOf(rec.plan), rest);
    BindingRoundTrip(BindingOf(rec.plan), b2);
    RoutingRoundTrip(RoutingOf(rec.plan), b1);
  }

  lemma ReadBodyOfFits(id: u64, b: Bytes)
    ensures ReadBodyOf(id, b).Got? ==> RecordFits(ReadBodyOf(id, b).value) && ReadBodyOf(id, b).value.plan.id == id
  {
    hide ReadHead, ReadRouting, ReadTail, RoutingFits, TailFits;
    forall c ensures ReadRouting(c).Got? ==> RoutingFits(ReadRouting(c).value) { ReadRoutingFits(c); }
    forall c ensures ReadTail(c).Got? ==> TailFits(ReadTail(c).value) { ReadTailFits(c); }
  }

  /** Reads `n` records; a null id or one seen before stops it on the spot. */
  function ReadRecords(n: nat, seen: set<u64>, b: Bytes): Read<seq<Record>> {
    if n == 0 then Got([], b)
    else
      var (id, b) :- Read64(b);
      if id == 0 then Fail(Corruption)
      else if id in seen then Fail(DuplicateId)
      else
        var (rec, b) :- ReadBodyOf(id, b);
        var (recs, b) :- ReadRecords(n - 1, seen + {id}, b);
        Got([rec] + recs, b)
  }

  ghost predicate RecordsFit(recs: seq<Record>, seen: set<u64>) {
    && (forall i :: 0 <= i < |recs| ==> RecordFits(recs[i]) && recs[i].plan.id != 0 && recs[i].plan.id !in seen)
    && DistinctPlans(recs)
  }

  lemma {:induction false} RecordsRoundTrip(recs: seq<Record>, seen: set<u64>, rest: Bytes)
    requires RecordsFit(recs, seen)
    ensures ReadRecords(|recs|, seen, PutAll(PutRecord, recs, rest)) == Got(recs, rest)
    decreases |recs|
  {
    hide PutBodyOf, ReadBodyOf, RecordFits;
    if recs != [] {
      var rec, later := recs[0], recs[1..];
      RecordsRoundTrip(later, seen + {rec.plan.id}, rest);
      RecordBodyRoundTrip(rec, PutAll(PutRecord, later, rest));
      assert recs == [rec] + later;
    }
  }

  lemma {:induction false} ReadRecordsFit(n: nat, seen: set<u64>, b: Bytes)
    ensures var r := ReadRecords(n, seen, b); r.Got? ==> RecordsFit(r.value, seen) && |r.value| == n
    decreases n
  {
    hide ReadBodyOf, RecordFits;
    if n > 0 && Read64(b).Got? {
      var id, b1 := Read64(b).value, Read64(b).rest;
      ReadBodyOfFits(id, b1);
      if ReadBodyOf(id, b1).Got? { ReadRecordsFit(n - 1, seen + {id}, ReadBodyOf(id, b1).rest); }
    }
  }

  // ----- requests -----

  /** The part of a request a store keeps; the rest comes back with its default. */
  function Persisted(r: Request): Request {
    Request(r.id, r.generation, r.shape, r.source, r.destinations, r.payloadSize, r.direction,
            true, true, false, true, false, {}, {}, [], 16, 16, 0, r.collectiveShape, [], r.collectiveCount)
  }

  function PersistedAll(rs: seq<Request>): (r: seq<Request>)
    ensures |r| == |rs| && forall i :: 0 <= i < |r| ==> r[i] == Persisted(rs[i])
  {
    seq(|rs|, i requires 0 <= i < |rs| => Persisted(rs[i]))
  }

  function PutRequest(r: Request, rest: Bytes): Bytes {
    Put64(r.id, Put64(r.generation, Put8(RequestShapeCode(r.shape), Put64(r.source, Put64(r.payloadSize,
      Put8(DirectionCode(r.direction), Put8(CollectiveShapeCode(r.collectiveShape), Put64(r.collectiveCount,
      PutList(Put64, r.destinations, rest)))))))))
  }

  function ReadRequest(b: Bytes): (r: Read<Request>)
    ensures r.Got? ==> |r.value.destinations| <= MAX_COUNT && Persisted(r.value) == r.value
  {
    var (id, b) :- Read64(b);
    var (generation, b) :- Read64(b);
    var (shape, b) :- ReadEnum(RequestShapeOf, b);
    var (source, b) :- Read64(b);
    var (payload, b) :- Read64(b);
    var (direction, b) :- ReadEnum(DirectionOf, b);
    var (collective, b) :- ReadEnum(CollectiveShapeOf, b);
    var (count, b) :- Read64(b);
    if count >= TWO32 then Fail(Overflow)
    else
      var (destinations, b) :- ReadList(Read64, b);
      Got(Request(id, generation, shape, source, destinations, payload, direction,
                  true, true, false, true, false, {}, {}, [], 16, 16, 0, collective, [], count), b)
  }

  predicate RequestFits(r: Request) { |r.destinations| <= MAX_COUNT }

  lemma RequestRoundTrip(r: Request, rest: Bytes)
    requires RequestFits(r)
    ensures ReadRequest(PutRequest(r, rest)) == Got(Persisted(r), rest)
  {
    hide PutList, ReadList;
    IdsRoundTrip(r.destinations, rest);
  }

  lemma RequestsRoundTrip(rs: seq<Request>, rest: Bytes)
    requires |rs| <= MAX_COUNT && forall r :: r in rs ==> RequestFits(r) && Persisted(r) == r
    ensures ReadList(ReadRequest, PutList(PutRequest, rs, rest)) == Got(rs, rest)
  {
    hide PutRequest, ReadRequest;
    forall r | r in rs ensures Inverts(PutRequest, ReadRequest, r) {
      forall c ensures ReadRequest(PutRequest(r, c)) == Got(r, c) { RequestRoundTrip(r, c); }
    }
    ListRoundTrip(PutRequest, ReadRequest, rs, rest);
  }

  lemma {:induction false} OnlyPersistedIsWritten(rs: seq<Request>, rest: Bytes)
    ensures PutAll(PutRequest, rs, rest) == PutAll(PutRequest, PersistedAll(rs), rest)
  {
    if rs != [] {
      OnlyPersistedIsWritten(rs[1..], rest);
      assert PersistedAll(rs)[1..] == PersistedAll(rs[1..]);
    }
  }

  // ----- the body and the frame -----

  function PutBody(s: Store): Bytes {
    Put64(s.epoch, PutList(PutRecord, s.plans, PutList(PutPair, s.supersessions, PutList(PutRequest, s.requests, []))))
  }

  function ReadBody(b: Bytes): Read<Store> {
    var (epoch, b) :- Read64(b);
    var (n, b) :- Read32(b);
    if n > MAX_COUNT then Fail(OversizedCount)
    else
      var (plans, b) :- ReadRecords(n, {}, b);
      var (supersessions, b) :- ReadList(ReadPair, b);
      var (requests, b) :- ReadList(ReadRequest, b);
      Got(Store(epoch, plans, supersessions, requests), b)
  }

  function Frame(sum: u64, length: u64, body: Bytes): Bytes {
    Put32(MAGIC, Put32(VERSION, Put64(sum, Put64(length, body))))
  }

  /** `serializeStore`. */
  function Serialize(s: Store): Bytes {
    var body := PutBody(s);
    Frame(Fnv(body), |body| % TWO64, body)
  }

  datatype Parsed = Parsed(store: Store) | Refused(code: Code)

  /** What is done with a payload whose length and checksum agreed; `trailing` tells whether bytes follow it. */
  function ParsePayload(payload: Bytes, trailing: bool): Parsed {
    var r := ReadBody(payload);
    if r.Fail? then Refused(r.code)
    else if r.rest != [] || trailing then Refused(TrailingGarbage)
    else if StoreVerdict(r.value).Some? then Refused(StoreVerdict(r.value).value)
    else Parsed(r.value)
  }

  /** `parseStore`. */
  function Parse(data: Bytes): Parsed {
    var magic := Read32(data);
    if magic.Fail? then Refused(Truncation)
    else if magic.value != MAGIC then Refused(BadMagic)
    else
      var version := Read32(magic.rest);
      if version.Fail? then Refused(Truncation)
      else if version.value != VERSION then Refused(UnsupportedVersion)
      else
        var sum := Read64(version.rest);
        if sum.Fail? then Refused(Truncation)
        else
          var length := Read64(sum.rest);
          if length.Fail? then Refused(Truncation)
          else if length.value > |length.rest| then Refused(Truncation)
          else if Fnv(length.rest[..length.value]) != sum.value then Refused(ChecksumMismatch)
          else ParsePayload(length.rest[..length.value], length.value != |length.rest|)
  }
}
