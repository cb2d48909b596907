/** The frozen layouts of barrier state records: an independent definition of what the reader of
    cut records accepts, and why each layout is prefix-free. */
module BarrierLayout {
  import opened Bytes
  import opened Parsing

  const RECORD_VERSION := 0
  const CUT_KIND := 2

  datatype Status = Complete | Partial

  /** Topic to partition to marker offset. */
  type Position = map<Str, map<int, int>>

  type TopicPartition = (Str, int)

  datatype Key = Key(kind: int, group: Str, epoch: int)

  datatype Cut = Cut(
    group: Str, epoch: int, triggeredAt: int, completedAt: int,
    status: Status, offsets: Position, missing: set<TopicPartition>)

  function Code(s: Status): int {
    if s.Complete? then 0 else 1
  }

  // ---- strings and counts ----

  function Checked(b: seq<Byte>): Parser<Str> {
    if Utf8(b) then Return<Str>(b) else Fail<Str>(NotUtf8)
  }

  function TextOf(n: int): Parser<Str> {
    if n < 0 then Fail<Str>(NegativeLength(n)) else Then(Take(n), Checked)
  }

  function Text(): Parser<Str> {
    Then(Int(2), TextOf)
  }

  function CountOf(n: int): Parser<nat> {
    if n < 0 then Fail<nat>(NegativeCount(n)) else Return<nat>(n)
  }

  function Count(): Parser<nat> {
    Then(Int(4), CountOf)
  }

  // ---- marker offsets ----

  function OffsetOf(m: map<int, int>, p: int): Parser<map<int, int>> {
    Then(Int(8), (o: int) => Return(m[p := o]))
  }

  function Entry(m: map<int, int>): Parser<map<int, int>> {
    Then(Int(4), (p: int) => OffsetOf(m, p))
  }

  /** The offsets a topic already has. */
  function At(acc: Position, t: Str): map<int, int> {
    if t in acc then acc[t] else map[]
  }

  function EntriesOf(acc: Position, t: Str, n: nat): Parser<Position> {
    Then(Loop(n, Entry, At(acc, t)), (m: map<int, int>) => Return<Position>(acc[t := m]))
  }

  function TopicOf(acc: Position, t: Str): Parser<Position> {
    Then(Count(), (n: nat) => EntriesOf(acc, t, n))
  }

  function Topic(acc: Position): Parser<Position> {
    Then(Text(), (t: Str) => TopicOf(acc, t))
  }

  function TopicsOf(n: nat): Parser<Position> {
    Loop<Position>(n, Topic, map[])
  }

  function Offsets(): Parser<Position> {
    Then(Count(), TopicsOf)
  }

  // ---- partitions without a marker ----

  function AbsentAt(acc: set<TopicPartition>, t: Str): Parser<set<TopicPartition>> {
    Then(Int(4), (p: int) => Return(acc + {(t, p)}))
  }

  function Absent(acc: set<TopicPartition>): Parser<set<TopicPartition>> {
    Then(Text(), (t: Str) => AbsentAt(acc, t))
  }

  function AbsentsOf(n: nat): Parser<set<TopicPartition>> {
    Loop<set<TopicPartition>>(n, Absent, {})
  }

  function Missing(): Parser<set<TopicPartition>> {
    Then(Count(), AbsentsOf)
  }

  // ---- keys ----

  function Epoch(kind: int, group: Str): Parser<Key> {
    Then(Int(8), (e: int) => Return(Key(kind, group, e)))
  }

  function Group(kind: int): Parser<Key> {
    Then(Text(), (g: Str) => Epoch(kind, g))
  }

  function KeyBody(version: int): Parser<Key> {
    if version != RECORD_VERSION then Fail<Key>(UnsupportedVersion(version)) else Then(Int(2), Group)
  }

  function KeyLayout(): Parser<Key> {
    Then(Int(2), KeyBody)
  }

  // ---- cut values ----

  function WithMissing(cut: Cut): Parser<Cut> {
    Then(Missing(), (m: set<TopicPartition>) => Return(cut.(missing := m)))
  }

  function WithOffsets(cut: Cut): Parser<Cut> {
    Then(Offsets(), (o: Position) => WithMissing(cut.(offsets := o)))
  }

  function StatusOf(cut: Cut, code: int): Parser<Cut> {
    if code == 0 then WithOffsets(cut.(status := Complete))
    else if code == 1 then WithOffsets(cut.(status := Partial))
    else Fail<Cut>(UnknownStatus(code))
  }

  function WithStatus(cut: Cut): Parser<Cut> {
    Then(Int(1), (code: int) => StatusOf(cut, code))
  }

  function WithCompleted(cut: Cut): Parser<Cut> {
    Then(Int(8), (c: int) => WithStatus(cut.(completedAt := c)))
  }

  function WithTriggered(cut: Cut): Parser<Cut> {
    Then(Int(8), (t: int) => WithCompleted(cut.(triggeredAt := t)))
  }

  function ValueBody(cut: Cut, version: int): Parser<Cut> {
    if version != RECORD_VERSION then Fail<Cut>(UnsupportedVersion(version)) else WithTriggered(cut)
  }

  /** The group and the epoch come from the key. */
  function Blank(key: Key): Cut {
    Cut(key.group, key.epoch, 0, 0, Complete, map[], {})
  }

  function ValueLayout(key: Key): Parser<Cut> {
    Then(Int(2), (version: int) => ValueBody(Blank(key), version))
  }

  // ---- every layout is regular ----

  lemma TextRegular()
    ensures Regular(Text())
  {
    IntRegular(2);
    forall n: int
      ensures Regular(TextOf(n))
    {
      if n < 0 {
        FailRegular<Str>(NegativeLength(n));
      } else {
        TakeRegular(n);
        forall b: seq<Byte>
          ensures Regular(Checked(b))
        {
          CheckedRegular(b);
        }
        ThenRegular(Take(n), Checked);
      }
    }
    ThenRegular(Int(2), TextOf);
  }

  lemma CheckedRegular(b: seq<Byte>)
    ensures Regular(Checked(b))
  {
    if Utf8(b) {
      ReturnReads<Str>(b);
    } else {
      FailRegular<Str>(NotUtf8);
    }
  }

  lemma CountRegular()
    ensures Regular(Count())
  {
    IntRegular(4);
    forall n: int
      ensures Regular(CountOf(n))
    {
      if n < 0 {
        FailRegular<nat>(NegativeCount(n));
      } else {
        ReturnReads<nat>(n);
      }
    }
    ThenRegular(Int(4), CountOf);
  }

  lemma EntryRegular(m: map<int, int>)
    ensures Regular(Entry(m))
  {
    IntRegular(4);
    forall p: int
      ensures Regular(OffsetOf(m, p))
    {
      OffsetRegular(m, p);
    }
    ThenRegular(Int(4), (p: int) => OffsetOf(m, p));
  }

  lemma OffsetRegular(m: map<int, int>, p: int)
    ensures Regular(OffsetOf(m, p))
  {
    IntRegular(8);
    var f := (o: int) => Return(m[p := o]);
    forall o: int
      ensures Regular(f(o))
    {
      ReturnReads(m[p := o]);
    }
    ThenRegular(Int(8), f);
  }

  lemma TopicRegular(acc: Position)
    ensures Regular(Topic(acc))
  {
    TextRegular();
    forall t: Str
      ensures Regular(TopicOf(acc, t))
    {
      CountRegular();
      forall n: nat
        ensures Regular(EntriesOf(acc, t, n))
      {
        EntriesRegular(acc, t, n);
      }
      ThenRegular(Count(), (n: nat) => EntriesOf(acc, t, n));
    }
    ThenRegular(Text(), (t: Str) => TopicOf(acc, t));
  }

  lemma EntriesRegular(acc: Position, t: Str, n: nat)
    ensures Regular(EntriesOf(acc, t, n))
  {
    forall m: map<int, int>
      ensures Regular(Entry(m))
    {
      EntryRegular(m);
    }
    LoopRegular(n, Entry, At(acc, t));
    var f := (m: map<int, int>) => Return<Position>(acc[t := m]);
    forall m: map<int, int>
      ensures Regular(f(m))
    {
      ReturnReads<Position>(acc[t := m]);
    }
    ThenRegular(Loop(n, Entry, At(acc, t)), f);
  }

  lemma OffsetsRegular()
    ensures Regular(Offsets())
  {
    CountRegular();
    forall acc: Position
      ensures Regular(Topic(acc))
    {
      TopicRegular(acc);
    }
    forall n: nat
      ensures Regular(TopicsOf(n))
    {
      LoopRegular<Position>(n, Topic, map[]);
    }
    ThenRegular(Count(), TopicsOf);
  }

  lemma AbsentRegular(acc: set<TopicPartition>)
    ensures Regular(Absent(acc))
  {
    TextRegular();
    forall t: Str
      ensures Regular(AbsentAt(acc, t))
    {
      IntRegular(4);
      var f := (p: int) => Return(acc + {(t, p)});
      forall p: int
        ensures Regular(f(p))
      {
        ReturnReads(acc + {(t, p)});
      }
      ThenRegular(Int(4), f);
    }
    ThenRegular(Text(), (t: Str) => AbsentAt(acc, t));
  }

  lemma MissingRegular()
    ensures Regular(Missing())
  {
    CountRegular();
    forall acc: set<TopicPartition>
      ensures Regular(Absent(acc))
    {
      AbsentRegular(acc);
    }
    forall n: nat
      ensures Regular(AbsentsOf(n))
    {
      LoopRegular<set<TopicPartition>>(n, Absent, {});
    }
    ThenRegular(Count(), AbsentsOf);
  }

  lemma GroupRegular(kind: int)
    ensures Regular(Group(kind))
  {
    TextRegular();
    forall g: Str
      ensures Regular(Epoch(kind, g))
    {
      IntRegular(8);
      var f := (e: int) => Return(Key(kind, g, e));
      forall e: int
        ensures Regular(f(e))
      {
        ReturnReads(Key(kind, g, e));
      }
      ThenRegular(Int(8), f);
    }
    ThenRegular(Text(), (g: Str) => Epoch(kind, g));
  }

  lemma KeyRegular()
    ensures Regular(KeyLayout())
  {
    IntRegular(2);
    forall kind: int
      ensures Regular(Group(kind))
    {
      GroupRegular(kind);
    }
    ThenRegular(Int(2), Group);
    forall version: int
      ensures Regular(KeyBody(version))
    {
      if version != RECORD_VERSION {
        FailRegular<Key>(UnsupportedVersion(version));
      }
    }
    ThenRegular(Int(2), KeyBody);
  }

  lemma WithOffsetsRegular(cut: Cut)
    ensures Regular(WithOffsets(cut))
  {
    OffsetsRegular();
    forall o: Position
      ensures Regular(WithMissing(cut.(offsets := o)))
    {
      WithMissingRegular(cut.(offsets := o));
    }
    ThenRegular(Offsets(), (o: Position) => WithMissing(cut.(offsets := o)));
  }

  lemma WithMissingRegular(cut: Cut)
    ensures Regular(WithMissing(cut))
  {
    MissingRegular();
    var f := (m: set<TopicPartition>) => Return(cut.(missing := m));
    forall m: set<TopicPartition>
      ensures Regular(f(m))
    {
      ReturnReads(cut.(missing := m));
    }
    ThenRegular(Missing(), f);
  }

  lemma WithStatusRegular(cut: Cut)
    ensures Regular(WithStatus(cut))
  {
    IntRegular(1);
    forall code: int
      ensures Regular(StatusOf(cut, code))
    {
      WithOffsetsRegular(cut.(status := Complete));
      WithOffsetsRegular(cut.(status := Partial));
      FailRegular<Cut>(UnknownStatus(code));
    }
    ThenRegular(Int(1), (code: int) => StatusOf(cut, code));
  }

  lemma WithTriggeredRegular(cut: Cut)
    ensures Regular(WithTriggered(cut))
  {
    IntRegular(8);
    forall cut': Cut
      ensures Regular(WithCompleted(cut'))
    {
      forall c: int
        ensures Regular(WithStatus(cut'.(completedAt := c)))
      {
        WithStatusRegular(cut'.(completedAt := c));
      }
      ThenRegular(Int(8), (c: int) => WithStatus(cut'.(completedAt := c)));
    }
    ThenRegular(Int(8), (t: int) => WithCompleted(cut.(triggeredAt := t)));
  }

  lemma ValueRegular(key: Key)
    ensures Regular(ValueLayout(key))
  {
    IntRegular(2);
    forall version: int
      ensures Regular(ValueBody(Blank(key), version))
    {
      WithTriggeredRegular(Blank(key));
      FailRegular<Cut>(UnsupportedVersion(version));
    }
    ThenRegular(Int(2), (version: int) => ValueBody(Blank(key), version));
  }

  // ---- prefix-freeness ----

  function DecodeKey(d: seq<Byte>): Decoded<Key> {
    Whole(KeyPart, KeyLayout(), d)
  }

  function DecodeValue(key: Key, d: seq<Byte>): Decoded<Cut> {
    Whole(ValuePart, ValueLayout(key), d)
  }

  /** Cut a decodable key short and it is truncated; extend it and it has trailing bytes. */
  lemma KeyPrefixFree(d: seq<Byte>)
    requires DecodeKey(d).Record?
    ensures forall k :: 0 <= k < |d| ==> DecodeKey(d[..k]) == Malformed(KeyPart, Truncated)
    ensures forall e: seq<Byte> :: e != [] ==> DecodeKey(d + e) == Malformed(KeyPart, Trailing)
  {
    KeyRegular();
    PrefixFree(KeyPart, KeyLayout(), d);
  }

  lemma ValuePrefixFree(key: Key, d: seq<Byte>)
    requires DecodeValue(key, d).Record?
    ensures forall k :: 0 <= k < |d| ==> DecodeValue(key, d[..k]) == Malformed(ValuePart, Truncated)
    ensures forall e: seq<Byte> :: e != [] ==> DecodeValue(key, d + e) == Malformed(ValuePart, Trailing)
  {
    ValueRegular(key);
    PrefixFree(ValuePart, ValueLayout(key), d);
  }

  // ---- whose cut it is ----

  ghost predicate Yields<T>(p: Parser<T>, q: T -> bool) {
    forall d: seq<Byte> {:trigger p(d)} :: p(d).Ok? ==> q(p(d).value)
  }

  lemma ThenYields<A(!new), B>(p: Parser<A>, f: A -> Parser<B>, q: B -> bool)
    requires forall a: A :: Yields(f(a), q)
    ensures Yields(Then(p, f), q)
  {
    forall d: seq<Byte> | Then(p, f)(d).Ok?
      ensures q(Then(p, f)(d).value)
    {
      assert Yields(f(p(d).value), q);
    }
  }

  function CutOf(group: Str, epoch: int): Cut -> bool {
    (cut: Cut) => cut.group == group && cut.epoch == epoch
  }

  lemma WithOffsetsYields(cut: Cut, q: Cut -> bool)
    requires q == CutOf(cut.group, cut.epoch)
    ensures Yields(WithOffsets(cut), q)
  {
    forall o: Position
      ensures Yields(WithMissing(cut.(offsets := o)), q)
    {
      var f := (m: set<TopicPartition>) => Return(cut.(offsets := o, missing := m));
      forall m: set<TopicPartition>
        ensures Yields(f(m), q)
      {
      }
      ThenYields(Missing(), f, q);
    }
    ThenYields(Offsets(), (o: Position) => WithMissing(cut.(offsets := o)), q);
  }

  lemma WithStatusYields(cut: Cut, q: Cut -> bool)
    requires q == CutOf(cut.group, cut.epoch)
    ensures Yields(WithStatus(cut), q)
  {
    forall code: int
      ensures Yields(StatusOf(cut, code), q)
    {
      WithOffsetsYields(cut.(status := if code == 0 then Complete else Partial), q);
    }
    ThenYields(Int(1), (code: int) => StatusOf(cut, code), q);
  }

  lemma WithTriggeredYields(cut: Cut, q: Cut -> bool)
    requires q == CutOf(cut.group, cut.epoch)
    ensures Yields(WithTriggered(cut), q)
  {
    forall t: int
      ensures Yields(WithCompleted(cut.(triggeredAt := t)), q)
    {
      forall c: int
        ensures Yields(WithStatus(cut.(triggeredAt := t, completedAt := c)), q)
      {
        WithStatusYields(cut.(triggeredAt := t, completedAt := c), q);
      }
      ThenYields(Int(8), (c: int) => WithStatus(cut.(triggeredAt := t, completedAt := c)), q);
    }
    ThenYields(Int(8), (t: int) => WithCompleted(cut.(triggeredAt := t)), q);
  }

  /** A decoded cut belongs to the group and the epoch of its key. */
  lemma CutOfKey(key: Key, d: seq<Byte>)
    requires DecodeValue(key, d).Record?
    ensures DecodeValue(key, d).value.group == key.group && DecodeValue(key, d).value.epoch == key.epoch
  {
    var q := CutOf(key.group, key.epoch);
    forall version: int
      ensures Yields(ValueBody(Blank(key), version), q)
    {
      WithTriggeredYields(Blank(key), q);
    }
    ThenYields(Int(2), (version: int) => ValueBody(Blank(key), version), q);
    assert q(ValueLayout(key)(d).value);
  }

  /** A decoded epoch is a 64-bit integer. */
  lemma EpochFits(d: seq<Byte>)
    requires DecodeKey(d).Record?
    ensures Fits(DecodeKey(d).value.epoch, 8)
  {
    var q := (key: Key) => Fits(key.epoch, 8);
    forall kind: int
      ensures Yields(Group(kind), q)
    {
      forall group: Str
        ensures Yields(Epoch(kind, group), q)
      {
        EpochYields(kind, group, q);
      }
      ThenYields(Text(), (group: Str) => Epoch(kind, group), q);
    }
    forall version: int
      ensures Yields(KeyBody(version), q)
    {
      ThenYields(Int(2), Group, q);
    }
    ThenYields(Int(2), KeyBody, q);
    assert q(KeyLayout()(d).value);
  }

  lemma EpochYields(kind: int, group: Str, q: Key -> bool)
    requires forall key: Key :: q(key) <==> Fits(key.epoch, 8)
    ensures Yields(Epoch(kind, group), q)
  {
    forall d: seq<Byte> | Epoch(kind, group)(d).Ok?
      ensures q(Epoch(kind, group)(d).value)
    {
      assert Epoch(kind, group)(d).value.epoch == Get(d[..8]);
    }
  }
}
