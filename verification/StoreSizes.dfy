/** Writing back what was read takes as many bytes as reading it consumed. */
module StoreSizes {
  import opened Core
  import opened Wire
  import opened StoreCodec
  import opened StoreFormat

  /** Writing back what was read takes as many bytes as reading it consumed. */
  ghost predicate SameSize<T(!new)>(put: (T, Bytes) -> Bytes, read: Bytes -> Read<T>) {
    forall c, r {:trigger put(read(c).value, r)} ::
      read(c).Got? ==> |put(read(c).value, r)| == |c| - |read(c).rest| + |r|
  }

  lemma {:induction false} PutLESize(n: nat, v: nat, rest: Bytes)
    ensures |PutLE(n, v, rest)| == n + |rest|
  {
    if n > 0 { PutLESize(n - 1, v / 256, rest); }
  }

  lemma Size64(v: u64, rest: Bytes)
    ensures |Put64(v, rest)| == 8 + |rest|
  {
    PutLESize(8, v, rest);
  }

  lemma Sizes64()
    ensures forall v: u64, rest: Bytes :: |Put64(v, rest)| == 8 + |rest|
    ensures forall v: u32, rest: Bytes :: |Put32(v, rest)| == 4 + |rest|
    ensures forall s: Bytes, rest: Bytes :: |PutStr(s, rest)| == 8 + |s| + |rest|
  {
    forall v: u64, rest: Bytes ensures |Put64(v, rest)| == 8 + |rest| { PutLESize(8, v, rest); }
    forall v: u32, rest: Bytes ensures |Put32(v, rest)| == 4 + |rest| { PutLESize(4, v, rest); }
    forall s: Bytes, rest: Bytes ensures |PutStr(s, rest)| == 8 + |s| + |rest| { Size64(|s| % TWO64, s + rest); }
  }

  lemma {:induction false} AllSameSize<T(!new)>(put: (T, Bytes) -> Bytes, read: Bytes -> Read<T>, n: nat, b: Bytes,
                                         r: Bytes)
    requires SameSize(put, read)
    ensures var x := ReadAll(read, n, b); x.Got? ==> |PutAll(put, x.value, r)| == |b| - |x.rest| + |r|
  {
    if n > 0 && read(b).Got? {
      var x, b1 := read(b).value, read(b).rest;
      AllSameSize(put, read, n - 1, b1, r);
      var later := ReadAll(read, n - 1, b1);
      if later.Got? {
        var all := [x] + later.value;
        assert all[1..] == later.value;
        assert PutAll(put, all, r) == put(x, PutAll(put, later.value, r));
      }
    }
  }

  lemma ListSameSize<T(!new)>(put: (T, Bytes) -> Bytes, read: Bytes -> Read<T>, b: Bytes, r: Bytes)
    requires SameSize(put, read)
    ensures var x := ReadList(read, b); x.Got? ==> |PutList(put, x.value, r)| == |b| - |x.rest| + |r|
  {
    hide Put32, PutAll, ReadAll;
    if Read32(b).Got? {
      AllSameSize(put, read, Read32(b).value, Read32(b).rest, r);
      Sizes64();
    }
  }

  lemma ComponentSize()
    ensures SameSize(PutComponent, ReadComponent)
  {
    hide Put64;
    Sizes64();
  }

  lemma PairSize()
    ensures SameSize(PutPair, ReadPair)
  {
    hide Put64;
    Sizes64();
  }

  lemma IdSize()
    ensures SameSize(Put64, Read64)
  {
    hide Put64;
    Sizes64();
  }

  lemma StrSize()
    ensures SameSize(PutStr, ReadStr) && SameSize(PutStr, ReadText)
  {
    hide PutStr;
    Sizes64();
  }

  lemma StageSizeAt(c: Bytes, r: Bytes)
    requires ReadStage(c).Got?
    ensures |PutStage(ReadStage(c).value, r)| == |c| - |ReadStage(c).rest| + |r|
  {
    hide Put64, PutStr, ReadStr, Put8, PutBool;
    Sizes64();
    Sizes8();
    StrSize();
  }

  lemma Sizes8()
    ensures forall v: u8, rest: Bytes :: |Put8(v, rest)| == 1 + |rest|
    ensures forall v: bool, rest: Bytes :: |PutBool(v, rest)| == 1 + |rest|
  {
  }

  lemma StageSize()
    ensures SameSize(PutStage, ReadStage) && SameSize(PutStage, ReadStageField)
  {
    hide PutStage, ReadStage;
    forall c, r | ReadStage(c).Got? ensures |PutStage(ReadStage(c).value, r)| == |c| - |ReadStage(c).rest| + |r| {
      StageSizeAt(c, r);
    }
  }

  lemma CostSize()
    ensures SameSize(PutCost, ReadCost)
  {
    hide PutList, ReadList, Put64;
    ComponentSize();
    Sizes64();
    forall c, r | ReadCost(c).Got? ensures |PutCost(ReadCost(c).value, r)| == |c| - |ReadCost(c).rest| + |r| {
      var x := ReadCost(c).value;
      ListSameSize(PutComponent, ReadComponent, c, Put64(x.total, r));
    }
  }

  lemma PathSizeAt(c: Bytes, r: Bytes)
    requires ReadPath(c).Got?
    ensures |PutPath(ReadPath(c).value, r)| == |c| - |ReadPath(c).rest| + |r|
  {
    hide Put64, PutStr, ReadStr, Put8, PutList, ReadList, PutCost, ReadCost;
    Sizes64();
    Sizes8();
    StrSize();
    StageSize();
    CostSize();
    var p := ReadPath(c).value;
    forall b, t ensures ReadList(ReadStage, b).Got? ==>
      |PutList(PutStage, ReadList(ReadStage, b).value, t)| == |b| - |ReadList(ReadStage, b).rest| + |t|
    {
      ListSameSize(PutStage, ReadStage, b, t);
    }
  }

  lemma PathSize()
    ensures SameSize(PutPath, ReadPathField)
  {
    hide PutPath, ReadPath;
    forall c, r | ReadPath(c).Got? ensures |PutPath(ReadPath(c).value, r)| == |c| - |ReadPath(c).rest| + |r| {
      PathSizeAt(c, r);
    }
  }

  lemma HeadSize(c: Bytes, r: Bytes)
    requires ReadHead(c).Got?
    ensures |PutHead(ReadHead(c).value, r)| == |c| - |ReadHead(c).rest| + |r|
  {
    hide Put64, Put8;
    Sizes64();
    Sizes8();
  }

  lemma RoutingSize(c: Bytes, r: Bytes)
    requires ReadRouting(c).Got?
    ensures |PutRouting(ReadRouting(c).value, r)| == |c| - |ReadRouting(c).rest| + |r|
  {
    hide PutList, ReadList;
    PathSize();
    IdSize();
    StageSize();
    var x := ReadRouting(c).value;
    var b1 := ReadList(ReadPathField, c).rest;
    var b2 := ReadList(Read64, b1).rest;
    var t2 := PutList(PutStage, x.stages, r);
    ListSameSize(PutStage, ReadStageField, b2, r);
    ListSameSize(Put64, Read64, b1, t2);
    ListSameSize(PutPath, ReadPathField, c, PutList(Put64, x.fallbacks, t2));
  }

  lemma GenerationsSize(c: Bytes, r: Bytes)
    requires ReadGenerations(c).Got?
    ensures |PutGenerations(ReadGenerations(c).value, r)| == |c| - |ReadGenerations(c).rest| + |r|
  {
    hide Put64;
    Sizes64();
  }

  lemma BindingSize(c: Bytes, r: Bytes)
    requires ReadBinding(c).Got?
    ensures |PutBinding(ReadBinding(c).value, r)| == |c| - |ReadBinding(c).rest| + |r|
  {
    hide PutList, ReadList, PutGenerations, ReadGenerations;
    PairSize();
    IdSize();
    var x := ReadBinding(c).value;
    var b1 := ReadGenerations(c).rest;
    var b2 := ReadList(ReadPair, b1).rest;
    var b3 := ReadList(ReadPair, b2).rest;
    var b4 := ReadList(Read64, b3).rest;
    var t4 := PutList(Put64, x.claims, r);
    var t3 := PutList(Put64, x.staging, t4);
    var t2 := PutList(PutPair, x.links, t3);
    ListSameSize(Put64, Read64, b4, r);
    ListSameSize(Put64, Read64, b3, t4);
    ListSameSize(PutPair, ReadPair, b2, t3);
    ListSameSize(PutPair, ReadPair, b1, t2);
    GenerationsSize(c, PutList(PutPair, x.endpoints, t2));
  }

  lemma ListsSameSize<T(!new)>(put: (T, Bytes) -> Bytes, read: Bytes -> Read<T>)
    requires SameSize(put, read)
    ensures forall b: Bytes, t: Bytes {:trigger PutList(put, ReadList(read, b).value, t)} :: ReadList(read, b).Got? ==>
      |PutList(put, ReadList(read, b).value, t)| == |b| - |ReadList(read, b).rest| + |t|
  {
    forall b: Bytes, t: Bytes | ReadList(read, b).Got?
      ensures |PutList(put, ReadList(read, b).value, t)| == |b| - |ReadList(read, b).rest| + |t|
    {
      ListSameSize(put, read, b, t);
    }
  }

  lemma TailSize(c: Bytes, r: Bytes)
    requires ReadTail(c).Got?
    ensures |PutTail(ReadTail(c).value, r)| == |c| - |ReadTail(c).rest| + |r|
  {
    hide PutList, ReadList, PutCost, ReadCost, PutStr, ReadStr, Put64, Put8, PutBool;
    CostSize();
    StrSize();
    IdSize();
    Sizes64();
    Sizes8();
    ListsSameSize(PutStr, ReadText);
    ListsSameSize(Put64, Read64);
  }

  lemma RecordBodySize(id: u64, c: Bytes, r: Bytes)
    requires ReadBodyOf(id, c).Got?
    ensures |PutBodyOf(ReadBodyOf(id, c).value, r)| == |c| - |ReadBodyOf(id, c).rest| + |r|
  {
    hide PutHead, ReadHead, PutRouting, ReadRouting, PutBinding, ReadBinding, PutTail, ReadTail;
    var b1 := ReadHead(c).rest;
    var b2 := ReadRouting(b1).rest;
    var b3 := ReadBinding(b2).rest;
    var plan := ReadBodyOf(id, c).value.plan;
    var t3 := PutTail(TailOf(plan), r);
    var t2 := PutBinding(BindingOf(plan), t3);
    TailSize(b3, r);
    BindingSize(b2, t3);
    RoutingSize(b1, t2);
    HeadSize(c, PutRouting(RoutingOf(plan), t2));
  }

  lemma {:induction false} RecordsSize(n: nat, seen: set<u64>, c: Bytes, r: Bytes)
    ensures var x := ReadRecords(n, seen, c); x.Got? ==> |PutAll(PutRecord, x.value, r)| == |c| - |x.rest| + |r|
    decreases n
  {
    hide ReadBodyOf, PutBodyOf, Put64;
    var x := ReadRecords(n, seen, c);
    if n > 0 && x.Got? {
      var id, b1 := Read64(c).value, Read64(c).rest;
      var rec, b2 := ReadBodyOf(id, b1).value, ReadBodyOf(id, b1).rest;
      var later := ReadRecords(n - 1, seen + {id}, b2);
      RecordsSize(n - 1, seen + {id}, b2, r);
      RecordBodySize(id, b1, PutAll(PutRecord, later.value, r));
      Sizes64();
      assert x.value[1..] == later.value;
    }
  }

  lemma RequestSize()
    ensures SameSize(PutRequest, ReadRequest)
  {
    hide PutList, ReadList, Put64, Put8;
    Sizes64();
    Sizes8();
    IdSize();
    ListsSameSize(Put64, Read64);
  }

  lemma BodySize(c: Bytes)
    requires ReadBody(c).Got?
    ensures |PutBody(ReadBody(c).value)| == |c| - |ReadBody(c).rest|
  {
    hide PutAll, ReadAll, ReadRecords, Put64, Put32, PutRecord, PutRequest, ReadRequest, PutPair, ReadPair, ReadList;
    Sizes64();
    RequestSize();
    PairSize();
    var s := ReadBody(c).value;
    var b1 := Read64(c).rest;
    var n, b2 := Read32(b1).value, Read32(b1).rest;
    var b3 := ReadRecords(n, {}, b2).rest;
    var b4 := ReadList(ReadPair, b3).rest;
    var t4 := PutList(PutRequest, s.requests, []);
    ListSameSize(PutRequest, ReadRequest, b4, []);
    ListSameSize(PutPair, ReadPair, b3, t4);
    RecordsSize(n, {}, b2, PutList(PutPair, s.supersessions, t4));
  }
}
