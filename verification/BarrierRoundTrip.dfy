/** Writing a cut record and decoding it again. */
module BarrierRoundTrip {
  import opened Common
  import opened Bytes
  import opened Parsing
  import opened BarrierLayout
  import opened BarrierReader
  import opened BarrierEncode

  // ---- values ----

  lemma WithMissingReads(cut: Cut, put: seq<Byte>, m: set<TopicPartition>)
    requires Reads(Missing(), put, m)
    ensures Reads(WithMissing(cut), put, cut.(missing := m))
  {
    var f := (m: set<TopicPartition>) => Return(cut.(missing := m));
    ReturnReads(cut.(missing := m));
    ThenReads(Missing(), f, put, m, [], cut.(missing := m));
    assert put + [] == put;
    SameReads(Then(Missing(), f), WithMissing(cut), put, cut.(missing := m));
  }

  lemma WithOffsetsReads(cut: Cut, gs: Groups, put: seq<Byte>, out: Cut)
    requires Fits(|gs|, 4) && (forall i :: 0 <= i < |gs| ==> GroupFits(gs[i]))
    requires Reads(WithMissing(cut.(offsets := Table(gs, map[]))), put, out)
    ensures Reads(WithOffsets(cut), Put(|gs|, 4) + PutGroups(gs) + put, out)
  {
    OffsetsRead(gs);
    ThenReads(Offsets(), (o: Position) => WithMissing(cut.(offsets := o)),
              Put(|gs|, 4) + PutGroups(gs), Table(gs, map[]), put, out);
  }

  lemma PartitionsRead(cut: Cut, gs: Groups, ms: seq<TopicPartition>)
    requires Fits(|gs|, 4) && (forall i :: 0 <= i < |gs| ==> GroupFits(gs[i]))
    requires Fits(|ms|, 4) && (forall i :: 0 <= i < |ms| ==> AbsentFits(ms[i]))
    ensures Reads(WithOffsets(cut), EncodePartitions(gs, ms),
      cut.(offsets := Table(gs, map[]), missing := set x | x in ms))
  {
    var cut1 := cut.(offsets := Table(gs, map[]));
    MissingReads(ms);
    WithMissingReads(cut1, Put(|ms|, 4) + PutMissing(ms), set x | x in ms);
    WithOffsetsReads(cut, gs, Put(|ms|, 4) + PutMissing(ms), cut1.(missing := set x | x in ms));
  }

  lemma StatusReads(cut: Cut, s: Status, put: seq<Byte>, out: Cut)
    requires Reads(WithOffsets(cut.(status := s)), put, out)
    ensures Fits(Code(s), 1) && Reads(WithStatus(cut), Put(Code(s), 1) + put, out)
  {
    Spans();
    IntReads(Code(s), 1);
    ThenReads(Int(1), (code: int) => StatusOf(cut, code), Put(Code(s), 1), Code(s), put, out);
  }

  lemma CompletedReads(cut: Cut, c: int, put: seq<Byte>, out: Cut)
    requires Fits(c, 8) && Reads(WithStatus(cut.(completedAt := c)), put, out)
    ensures Reads(WithCompleted(cut), Put(c, 8) + put, out)
  {
    IntReads(c, 8);
    ThenReads(Int(8), (c: int) => WithStatus(cut.(completedAt := c)), Put(c, 8), c, put, out);
  }

  lemma TriggeredReads(cut: Cut, t: int, put: seq<Byte>, out: Cut)
    requires Fits(t, 8) && Reads(WithCompleted(cut.(triggeredAt := t)), put, out)
    ensures Reads(WithTriggered(cut), Put(t, 8) + put, out)
  {
    IntReads(t, 8);
    ThenReads(Int(8), (t: int) => WithCompleted(cut.(triggeredAt := t)), Put(t, 8), t, put, out);
  }

  lemma ValueReads(key: Key, put: seq<Byte>, out: Cut)
    requires Reads(WithTriggered(Blank(key)), put, out)
    ensures Fits(RECORD_VERSION, 2) && Reads(ValueLayout(key), Put(RECORD_VERSION, 2) + put, out)
  {
    IntReads(RECORD_VERSION, 2);
    ThenReads(Int(2), (version: int) => ValueBody(Blank(key), version), Put(RECORD_VERSION, 2), RECORD_VERSION, put,
      out);
  }

  lemma WholeReads<T>(part: Part, p: Parser<T>, put: seq<Byte>, v: T)
    requires Reads(p, put, v)
    ensures Whole(part, p, put) == Record(v)
  {
    assert put + [] == put;
    assert p(put + []) == Ok(v, []);
  }

  lemma ValueRoundTrip(r: CutRecord, key: Key)
    requires Encodable(r) && key.group == r.group && key.epoch == r.epoch
    ensures DecodeValue(key, EncodeValue(r)) == Record(ExpectedCut(r))
  {
    var gs := Grouped(r.offsets);
    GroupedIsLatest(r.offsets);
    var cut1 := Blank(key).(triggeredAt := r.triggeredAt);
    var cut2 := cut1.(completedAt := r.completedAt);
    var put := EncodePartitions(gs, r.missing);
    PartitionsRead(cut2.(status := r.status), gs, r.missing);
    StatusReads(cut2, r.status, put, ExpectedCut(r));
    CompletedReads(cut1, r.completedAt, Put(Code(r.status), 1) + put, ExpectedCut(r));
    TriggeredReads(Blank(key), r.triggeredAt, Put(r.completedAt, 8) + (Put(Code(r.status), 1) + put), ExpectedCut(r));
    ValueReads(key, Put(r.triggeredAt, 8) + (Put(r.completedAt, 8) + (Put(Code(r.status), 1) + put)), ExpectedCut(r));
    WholeReads(ValuePart, ValueLayout(key), EncodeValue(r), ExpectedCut(r));
  }

  // ---- keys ----

  predicate KeyFits(key: Key) {
    Fits(key.kind, 2) && TextFits(key.group) && Fits(key.epoch, 8)
  }

  lemma KeyRoundTrip(key: Key)
    requires KeyFits(key)
    ensures DecodeKey(EncodeKey(key)) == Record(key)
  {
    IntReads(key.epoch, 8);
    ReturnReads(key);
    var f := (e: int) => Return(Key(key.kind, key.group, e));
    ThenReads(Int(8), f, Put(key.epoch, 8), key.epoch, [], key);
    assert Put(key.epoch, 8) + [] == Put(key.epoch, 8);
    SameReads(Then(Int(8), f), Epoch(key.kind, key.group), Put(key.epoch, 8), key);
    TextReads(key.group);
    var tail := PutText(key.group) + Put(key.epoch, 8);
    ThenReads(Text(), (g: Str) => Epoch(key.kind, g), PutText(key.group), key.group, Put(key.epoch, 8), key);
    IntReads(key.kind, 2);
    ThenReads(Int(2), Group, Put(key.kind, 2), key.kind, tail, key);
    IntReads(RECORD_VERSION, 2);
    ThenReads(Int(2), KeyBody, Put(RECORD_VERSION, 2), RECORD_VERSION, Put(key.kind, 2) + tail, key);
    WholeReads(KeyPart, KeyLayout(), EncodeKey(key), key);
  }

  /** What a parser consumed is what writing its value produces. */
  ghost predicate WritesBack<T>(p: Parser<T>, put: T -> seq<Byte>) {
    forall d: seq<Byte> {:trigger WrittenBack(p, put, d)} :: WrittenBack(p, put, d)
  }

  ghost predicate WrittenBack<T>(p: Parser<T>, put: T -> seq<Byte>, d: seq<Byte>) {
    p(d).Ok? ==> d == put(p(d).value) + p(d).rest
  }

  function PutInt(w: nat): int -> seq<Byte> {
    (x: int) => if Fits(x, w) then Put(x, w) else []
  }

  lemma TakenBack(w: nat, d: seq<Byte>, b: seq<Byte>)
    requires w <= |d| && b == d[..w]
    ensures d == PutInt(w)(Get(b)) + d[w..]
  {
    PutGet(b);
  }

  lemma IntWritesBack(w: nat)
    ensures WritesBack(Int(w), PutInt(w))
  {
    forall d: seq<Byte>
      ensures WrittenBack(Int(w), PutInt(w), d)
    {
      if w <= |d| {
        TakenBack(w, d, d[..w]);
      }
    }
  }

  /** Writing the first value and then the second. */
  lemma ThenWritesBack<A(!new), B>(
    p: Parser<A>, putA: A -> seq<Byte>, f: A -> Parser<B>, putB: B -> seq<Byte>, put: B -> seq<Byte>)
    requires WritesBack(p, putA)
    requires forall a: A, d: seq<Byte> {:trigger f(a)(d)} :: f(a)(d).Ok? ==>
      d == putB(f(a)(d).value) + f(a)(d).rest && put(f(a)(d).value) == putA(a) + putB(f(a)(d).value)
    ensures WritesBack(Then(p, f), put)
  {
    forall d: seq<Byte>
      ensures WrittenBack(Then(p, f), put, d)
    {
      assert WrittenBack(p, putA, d);
      if p(d).Ok? && f(p(d).value)(p(d).rest).Ok? {
        var a, rest := p(d).value, p(d).rest;
        var b, rest' := f(a)(rest).value, f(a)(rest).rest;
        assert d == putA(a) + (putB(b) + rest');
        assert d == (putA(a) + putB(b)) + rest';
      }
    }
  }

  function PutStr(t: Str): seq<Byte> {
    PutInt(2)(|t|) + t
  }

  function PutEpoch(key: Key): seq<Byte> {
    PutInt(8)(key.epoch)
  }

  function PutGroupEpoch(key: Key): seq<Byte> {
    PutStr(key.group) + PutEpoch(key)
  }

  function PutKind(key: Key): seq<Byte> {
    PutInt(2)(key.kind) + PutGroupEpoch(key)
  }

  function PutKey(key: Key): seq<Byte> {
    PutInt(2)(RECORD_VERSION) + PutKind(key)
  }

  lemma TextOfWritesBack(n: int, d: seq<Byte>)
    requires TextOf(n)(d).Ok?
    ensures var t := TextOf(n)(d).value; |t| == n && d == t + TextOf(n)(d).rest
  {
    assert n <= |d| && d == d[..n] + d[n..];
    assert TextOf(n)(d) == Checked(d[..n])(d[n..]);
  }

  lemma TextWritesBack()
    ensures WritesBack(Text(), PutStr)
  {
    IntWritesBack(2);
    var putB: Str -> seq<Byte> := (t: Str) => t;
    forall n: int, d: seq<Byte> {:trigger TextOf(n)(d)} | TextOf(n)(d).Ok?
      ensures d == putB(TextOf(n)(d).value) + TextOf(n)(d).rest
      ensures PutStr(TextOf(n)(d).value) == PutInt(2)(n) + putB(TextOf(n)(d).value)
    {
      TextOfWritesBack(n, d);
    }
    ThenWritesBack(Int(2), PutInt(2), TextOf, putB, PutStr);
  }

  lemma EpochWritesBack(kind: int, group: Str, d: seq<Byte>)
    requires Epoch(kind, group)(d).Ok?
    ensures var key := Epoch(kind, group)(d).value;
      key.kind == kind && key.group == group && d == PutEpoch(key) + Epoch(kind, group)(d).rest
  {
    IntWritesBack(8);
    assert WrittenBack(Int(8), PutInt(8), d);
  }

  lemma GroupWritesBack(kind: int)
    ensures WritesBack(Group(kind), PutGroupEpoch)
  {
    TextWritesBack();
    var f := (g: Str) => Epoch(kind, g);
    forall g: Str, d: seq<Byte> {:trigger f(g)(d)} | f(g)(d).Ok?
      ensures d == PutEpoch(f(g)(d).value) + f(g)(d).rest
      ensures PutGroupEpoch(f(g)(d).value) == PutStr(g) + PutEpoch(f(g)(d).value)
    {
      EpochWritesBack(kind, g, d);
    }
    ThenWritesBack(Text(), PutStr, f, PutEpoch, PutGroupEpoch);
    forall d: seq<Byte>
      ensures WrittenBack(Group(kind), PutGroupEpoch, d)
    {
      assert WrittenBack(Then(Text(), f), PutGroupEpoch, d);
    }
  }

  lemma GroupKeepsKind(kind: int, d: seq<Byte>)
    requires Group(kind)(d).Ok?
    ensures Group(kind)(d).value.kind == kind
  {
    assert Group(kind)(d) == Epoch(kind, Text()(d).value)(Text()(d).rest);
  }

  lemma KindWritesBack()
    ensures WritesBack(Then(Int(2), Group), PutKind)
  {
    IntWritesBack(2);
    forall kind: int, d: seq<Byte> {:trigger Group(kind)(d)} | Group(kind)(d).Ok?
      ensures d == PutGroupEpoch(Group(kind)(d).value) + Group(kind)(d).rest
      ensures PutKind(Group(kind)(d).value) == PutInt(2)(kind) + PutGroupEpoch(Group(kind)(d).value)
    {
      GroupWritesBack(kind);
      assert WrittenBack(Group(kind), PutGroupEpoch, d);
      GroupKeepsKind(kind, d);
    }
    ThenWritesBack(Int(2), PutInt(2), Group, PutGroupEpoch, PutKind);
  }

  lemma LayoutWritesBack()
    ensures WritesBack(KeyLayout(), PutKey)
  {
    IntWritesBack(2);
    KindWritesBack();
    forall version: int, d: seq<Byte> {:trigger KeyBody(version)(d)} | KeyBody(version)(d).Ok?
      ensures d == PutKind(KeyBody(version)(d).value) + KeyBody(version)(d).rest
      ensures PutKey(KeyBody(version)(d).value) == PutInt(2)(version) + PutKind(KeyBody(version)(d).value)
    {
      assert WrittenBack(Then(Int(2), Group), PutKind, d);
    }
    ThenWritesBack(Int(2), PutInt(2), KeyBody, PutKind, PutKey);
  }

  lemma IntFits(w: nat, d: seq<Byte>)
    requires Int(w)(d).Ok?
    ensures Fits(Int(w)(d).value, w)
  {
    assert Int(w)(d).value == Get(d[..w]);
  }

  lemma GroupFitsRead(kind: int, d: seq<Byte>)
    requires Group(kind)(d).Ok?
    ensures var key := Group(kind)(d).value; key.kind == kind && TextFits(key.group) && Fits(key.epoch, 8)
  {
    var n := Int(2)(d);
    IntFits(2, d);
    var text := TextOf(n.value)(n.rest);
    assert Text()(d) == text;
    TextOfWritesBack(n.value, n.rest);
    assert Group(kind)(d) == Epoch(kind, text.value)(text.rest);
    IntFits(8, text.rest);
  }

  lemma DecodedFits(d: seq<Byte>)
    requires KeyLayout()(d).Ok?
    ensures KeyFits(KeyLayout()(d).value)
  {
    var version := Int(2)(d);
    assert KeyLayout()(d) == KeyBody(version.value)(version.rest);
    var kind := Int(2)(version.rest);
    assert KeyLayout()(d) == Group(kind.value)(kind.rest);
    IntFits(2, version.rest);
    GroupFitsRead(kind.value, kind.rest);
  }

  /** Whatever decodes as a key is the encoding of that key. */
  lemma KeyWritesBack(d: seq<Byte>)
    requires DecodeKey(d).Record?
    ensures KeyFits(DecodeKey(d).value) && d == EncodeKey(DecodeKey(d).value)
  {
    LayoutWritesBack();
    assert WrittenBack(KeyLayout(), PutKey, d);
    DecodedFits(d);
    assert Fits(RECORD_VERSION, 2);
  }

  /** Key bytes and decoded keys correspond one to one, so a record replaces an earlier one in a
      compacted log exactly when it replaces it in the reader. */
  lemma KeysCorrespond(d: seq<Byte>, d': seq<Byte>)
    requires DecodeKey(d).Record? && DecodeKey(d').Record?
    ensures DecodeKey(d) == DecodeKey(d') <==> d == d'
  {
    KeyWritesBack(d);
    KeyWritesBack(d');
  }

  // ---- records ----

  lemma CutKeyFits(r: CutRecord)
    requires Encodable(r)
    ensures KeyFits(Key(CUT_KIND, r.group, r.epoch))
  {
    Spans();
  }

  lemma DecodesBoth(k: seq<Byte>, v: seq<Byte>, key: Key, cut: Cut)
    requires DecodeKey(k) == Record(key) && key.kind == CUT_KIND && DecodeValue(key, v) == Record(cut)
    ensures DecodeCut(k, Some(v)) == Record(Some(cut))
  {
  }

  /** Decoding an encoded cut record yields the cut its writer meant, whatever the order of its
      offsets and however often it names a partition. */
  lemma RoundTrip(r: CutRecord)
    requires Encodable(r)
    ensures KeyFits(Key(CUT_KIND, r.group, r.epoch))
    ensures DecodeCut(EncodeKey(Key(CUT_KIND, r.group, r.epoch)), Some(EncodeValue(r))) == Record(Some(ExpectedCut(r)))
  {
    var key := Key(CUT_KIND, r.group, r.epoch);
    CutKeyFits(r);
    KeyRoundTrip(key);
    ValueRoundTrip(r, key);
    DecodesBoth(EncodeKey(key), EncodeValue(r), key, ExpectedCut(r));
  }

  /** Records of other kinds and tombstones carry no cut. */
  lemma NoCut(key: Key, value: Option<seq<Byte>>)
    requires KeyFits(key) && (key.kind != CUT_KIND || value.None?)
    ensures DecodeCut(EncodeKey(key), value) == Record(None)
  {
    KeyRoundTrip(key);
  }
}
