/** What the store format promises: it gives back what was put in, it is prefix-free, and it notices
    every single changed byte. */
module StoreTheorems {
  import opened Core
  import opened Model
  import opened Wire
  import opened Checksum
  import opened StoreCodec
  import opened StoreValidity
  import opened StoreFormat
  import opened StoreSizes

  // ----- serialise, then parse -----

  /** The counts and strings are within what a reader accepts, and no plan has a null or repeated id. */
  ghost predicate StoreFits(s: Store) {
    && |s.plans| <= MAX_COUNT && RecordsFit(s.plans, {})
    && |s.supersessions| <= MAX_COUNT
    && |s.requests| <= MAX_COUNT && forall r :: r in s.requests ==> RequestFits(r)
  }

  function PersistedStore(s: Store): Store { s.(requests := PersistedAll(s.requests)) }

  lemma BodyRoundTrip(s: Store)
    requires StoreFits(s)
    ensures ReadBody(PutBody(s)) == Got(PersistedStore(s), [])
  {
    hide PutAll, ReadAll, ReadRecords, RecordsFit, PutRecord, PutRequest, ReadRequest, PutPair, ReadPair;
    var kept := PersistedAll(s.requests);
    var b2 := PutList(PutRequest, s.requests, []);
    OnlyPersistedIsWritten(s.requests, []);
    assert b2 == PutList(PutRequest, kept, []);
    forall r | r in kept ensures RequestFits(r) && Persisted(r) == r {
      var i :| 0 <= i < |kept| && kept[i] == r;
      assert s.requests[i] in s.requests;
    }
    RequestsRoundTrip(kept, []);
    PairsRoundTrip(s.supersessions, b2);
    var b1 := PutList(PutPair, s.supersessions, b2);
    RecordsRoundTrip(s.plans, {}, b1);
  }

  lemma PersistedIsValid(s: Store)
    ensures StoreValid(PersistedStore(s)) <==> StoreValid(s)
  {
    hide RecordValid;
    var kept := PersistedAll(s.requests);
    assert forall i :: 0 <= i < |s.requests| ==> kept[i].id == s.requests[i].id;
  }

  lemma FrameIsRead(sum: u64, length: u64, body: Bytes)
    requires length == |body| && sum == Fnv(body)
    ensures Parse(Frame(sum, length, body)) == ParsePayload(body, false)
  {
    hide Put32, Read32, Put64, Read64, ParsePayload, Fnv;
    assert body[..|body|] == body;
  }

  /** Every valid store within the limits comes back as it was, requests on their persisted fields; one that
      is not valid is refused. */
  lemma StoreRoundTrip(s: Store)
    requires StoreFits(s) && |PutBody(s)| < TWO64
    ensures StoreValid(s) ==> Parse(Serialize(s)) == Parsed(PersistedStore(s))
    ensures !StoreValid(s) ==> Parse(Serialize(s)).Refused?
  {
    hide PutBody, ReadBody, StoreFits, StoreValid, StoreVerdict, Frame, Parse, Fnv, PersistedStore;
    FrameIsRead(Fnv(PutBody(s)), |PutBody(s)|, PutBody(s));
    BodyRoundTrip(s);
    PersistedIsValid(s);
    StoreVerdictDecides(PersistedStore(s));
  }

  // ----- parse, then serialise -----

  lemma ReadListsFit<T(!new)>(read: Bytes -> Read<T>, good: T -> bool)
    requires forall c :: read(c).Got? ==> good(read(c).value)
    ensures forall b: Bytes :: ReadList(read, b).Got? ==> forall x :: x in ReadList(read, b).value ==> good(x)
  {
    forall b: Bytes ensures ReadList(read, b).Got? ==> forall x :: x in ReadList(read, b).value ==> good(x) {
      ListRead(read, b, good);
    }
  }

  predicate PersistedFits(r: Request) { RequestFits(r) && Persisted(r) == r }

  lemma ReadBodyFits(c: Bytes)
    requires ReadBody(c).Got?
    ensures StoreFits(ReadBody(c).value) && PersistedStore(ReadBody(c).value) == ReadBody(c).value
  {
    hide ReadAll, ReadRecords, ReadRequest, RecordsFit, ReadPair;
    var s := ReadBody(c).value;
    var b1 := Read64(c).rest;
    var n, b2 := Read32(b1).value, Read32(b1).rest;
    ReadRecordsFit(n, {}, b2);
    ReadListsFit(ReadRequest, PersistedFits);
    assert forall r :: r in s.requests ==> PersistedFits(r);
    forall i | 0 <= i < |s.requests| ensures PersistedAll(s.requests)[i] == s.requests[i] {
      assert s.requests[i] in s.requests;
    }
  }

  /** Whatever is accepted is a valid store within the limits. */
  lemma AcceptedIsValid(data: Bytes)
    requires Parse(data).Parsed?
    ensures StoreValid(Parse(data).store) && StoreFits(Parse(data).store)
  {
    hide ReadBody, StoreFits, StoreValid, StoreVerdict, Read32, Read64, Fnv;
    var length := Read64(Read64(Read32(Read32(data).rest).rest).rest);
    ReadBodyFits(length.rest[..length.value]);
    StoreVerdictDecides(Parse(data).store);
  }

  /** Every accepted buffer yields a store that serialises and parses back to itself, within the frame's
      length field. */
  lemma AcceptedStoreReserializes(data: Bytes)
    requires Parse(data).Parsed?
    ensures Parse(Serialize(Parse(data).store)) == Parse(data)
  {
    hide PutBody, ReadBody, StoreFits, StoreValid, StoreVerdict, Read32, Read64, Fnv, Serialize;
    var length := Read64(Read64(Read32(Read32(data).rest).rest).rest);
    var payload := length.rest[..length.value];
    ReadBodyFits(payload);
    BodySize(payload);
    StoreVerdictDecides(Parse(data).store);
    StoreRoundTrip(Parse(data).store);
  }

  // ----- prefixes and extensions -----

  /** The bytes of an accepted buffer. */
  lemma AcceptedShape(data: Bytes)
    requires Parse(data).Parsed?
    ensures |data| >= HEADER
    ensures Read64(data[16..]).Got? && |data| == HEADER + Read64(data[16..]).value
    ensures Read32(data).value == MAGIC && Read32(data[4..]).value == VERSION
    ensures Read64(data[8..]).value == Fnv(data[HEADER..])
  {
    hide Fnv, ParsePayload;
    PutLEOfReadLE(4, data);
    PutLEOfReadLE(4, data[4..]);
    assert data[4..][4..] == data[8..];
    PutLEOfReadLE(8, data[8..]);
    assert data[8..][8..] == data[16..];
    PutLEOfReadLE(8, data[16..]);
    assert data[16..][8..] == data[24..];
    ParsedMeansNoTrailing(data[24..][..Read64(data[16..]).value], Read64(data[16..]).value != |data[24..]|);
    assert data[24..][..|data[24..]|] == data[24..];
  }

  lemma ParsedMeansNoTrailing(payload: Bytes, trailing: bool)
    ensures ParsePayload(payload, trailing).Parsed? ==> !trailing
  {
    hide ReadBody, StoreVerdict;
  }

  /** No accepted buffer is a proper prefix of another. */
  lemma AcceptedIsPrefixFree(data: Bytes, longer: Bytes)
    requires Parse(data).Parsed? && Parse(longer).Parsed? && data <= longer
    ensures data == longer
  {
    hide Parse;
    AcceptedShape(data);
    AcceptedShape(longer);
    assert data[16..][..8] == longer[16..][..8];
    ReadLESeesPrefix(8, data[16..], longer[16..]);
  }

  // ----- one changed byte -----

  /** Changing any one byte of an accepted store, anywhere, makes it unacceptable. */
  lemma EveryByteCounts(data: Bytes, i: nat, y: u8)
    requires Parse(data).Parsed? && i < |data| && data[i] != y
    ensures Parse(data[i := y]).Refused?
  {
    hide Parse, Fnv;
    var changed := data[i := y];
    if Parse(changed).Parsed? {
      AcceptedShape(data);
      AcceptedShape(changed);
      if i < 4 {
        FieldNotices(4, data, i, y);
      } else if i < 8 {
        assert changed[4..] == data[4..][i - 4 := y];
        FieldNotices(4, data[4..], i - 4, y);
      } else if i < 16 {
        assert changed[8..] == data[8..][i - 8 := y] && changed[24..] == data[24..];
        FieldNotices(8, data[8..], i - 8, y);
      } else if i < 24 {
        assert changed[16..] == data[16..][i - 16 := y];
        FieldNotices(8, data[16..], i - 16, y);
      } else {
        assert changed[24..] == data[24..][i - 24 := y];
        assert changed[8..][..8] == data[8..][..8];
        ReadLESeesPrefix(8, changed[8..], data[8..]);
        OneByteChangesChecksum(data[24..], i - 24, y);
      }
    }
  }
}
