/** The cursor that decodes barrier state records, proved to accept exactly the frozen layouts. */
module BarrierReader {
  import opened Common
  import opened Bytes
  import opened Parsing
  import opened BarrierLayout

  /** The outcome and the bytes left agree with a parser's result. */
  ghost predicate Agrees<T>(spec: Parsed<T>, part: Part, r: Decoded<T>, left: seq<Byte>) {
    match spec
    case Ok(v, rest) => r == Record(v) && left == rest
    case Err(kind) => r == Malformed(part, kind)
  }

  // A step of a loop is specified by any name of its layout, which keeps the loop's own proof
  // apart from what one step reads.

  ghost predicate IsEntry(step: map<int, int> -> Parser<map<int, int>>) {
    forall m: map<int, int>, d: seq<Byte> {:trigger Entry(m)(d)} :: Entry(m)(d) == step(m)(d)
  }

  ghost predicate IsTopic(step: Position -> Parser<Position>) {
    forall acc: Position, d: seq<Byte> {:trigger Topic(acc)(d)} :: Topic(acc)(d) == step(acc)(d)
  }

  ghost predicate IsAbsent(step: set<TopicPartition> -> Parser<set<TopicPartition>>) {
    forall acc: set<TopicPartition>, d: seq<Byte> {:trigger Absent(acc)(d)} :: Absent(acc)(d) == step(acc)(d)
  }

  type Counter<!A> = (nat, A, seq<Byte>) -> Parsed<A>

  /** A name for a number of steps, which keeps a loop's proof apart from what its rounds come to. */
  ghost predicate Counts<A(!new)>(rounds: Counter<A>, step: A -> Parser<A>) {
    forall n: nat, acc: A, d: seq<Byte> :: Counted(rounds, step, n, acc, d)
  }

  ghost predicate Counted<A>(rounds: Counter<A>, step: A -> Parser<A>, n: nat, acc: A, d: seq<Byte>) {
    rounds(n, acc, d) == Rounds(n, step, acc, d)
  }

  ghost function RoundsOf<A(!new)>(step: A -> Parser<A>): (rounds: Counter<A>)
    ensures Counts(rounds, step)
  {
    (n: nat, acc: A, d: seq<Byte>) => Rounds(n, step, acc, d)
  }

  lemma OneRound<A(!new)>(rounds: Counter<A>, step: A -> Parser<A>, n: nat, acc: A, d: seq<Byte>, part: Part,
      r: Decoded<A>, left: seq<Byte>)
    requires n > 0 && Counts(rounds, step) && Agrees(step(acc)(d), part, r, left)
    ensures r.Record? ==> rounds(n, acc, d) == rounds(n - 1, r.value, left)
    ensures r.Malformed? ==> Agrees(rounds(n, acc, d), part, r, left)
  {
    assert Counted(rounds, step, n, acc, d);
    if r.Record? {
      assert Counted(rounds, step, n - 1, r.value, left);
    }
  }

  lemma NoRound<A(!new)>(rounds: Counter<A>, step: A -> Parser<A>, acc: A, d: seq<Byte>)
    requires Counts(rounds, step)
    ensures rounds(0, acc, d) == Ok(acc, d)
  {
    assert Counted(rounds, step, 0, acc, d);
  }

  class Reader {
    var data: seq<Byte>
    const part: Part

    constructor (data: seq<Byte>, part: Part)
      ensures this.data == data && this.part == part
    {
      this.data := data;
      this.part := part;
    }

    /** Fails when bytes remain after the last field. */
    method Finish() returns (r: Decoded<()>)
      ensures r == if data == [] then Record(()) else Malformed(part, Trailing)
    {
      if data == [] {
        return Record(());
      }
      r := Malformed(part, Trailing);
    }

    method Slice(count: nat) returns (r: Decoded<seq<Byte>>)
      modifies this
      ensures Agrees(Take(count)(old(data)), part, r, data)
    {
      if |data| < count {
        return Malformed(part, Truncated);
      }
      r := Record(data[..count]);
      data := data[count..];
    }

    /** A big-endian signed integer of one, two, four or eight bytes. */
    method Integer(width: nat) returns (r: Decoded<int>)
      modifies this
      ensures Agrees(Int(width)(old(data)), part, r, data)
    {
      var bytes := Slice(width);
      match bytes
      case Malformed(p, kind) => r := Malformed(p, kind);
      case Record(b) => r := Record(Get(b));
    }

    method String() returns (r: Decoded<Str>)
      modifies this
      ensures Agrees(Text()(old(data)), part, r, data)
    {
      var length := Integer(2);
      if length.Malformed? {
        return Malformed(length.part, length.kind);
      }
      if length.value < 0 {
        return Malformed(part, NegativeLength(length.value));
      }
      var bytes := Slice(length.value);
      if bytes.Malformed? {
        return Malformed(bytes.part, bytes.kind);
      }
      if !Utf8(bytes.value) {
        return Malformed(part, NotUtf8);
      }
      r := Record(bytes.value);
    }

    method ArrayLength() returns (r: Decoded<nat>)
      modifies this
      ensures Agrees(Count()(old(data)), part, r, data)
    {
      var count := Integer(4);
      if count.Malformed? {
        return Malformed(count.part, count.kind);
      }
      if count.value < 0 {
        return Malformed(part, NegativeCount(count.value));
      }
      r := Record(count.value);
    }

    method PartitionOffset(m: map<int, int>, ghost step: map<int, int> -> Parser<map<int, int>>)
      returns (r: Decoded<map<int, int>>)
      requires IsEntry(step)
      modifies this
      ensures Agrees(step(m)(old(data)), part, r, data)
    {
      assert Entry(m)(data) == step(m)(data);
      var p := Integer(4);
      if p.Malformed? {
        return Malformed(p.part, p.kind);
      }
      ghost var mid := data;
      assert Entry(m)(old(data)) == OffsetOf(m, p.value)(mid);
      var o := Integer(8);
      if o.Malformed? {
        return Malformed(o.part, o.kind);
      }
      r := Record(m[p.value := o.value]);
    }

    /** The offsets of one topic, each inserted over any earlier one of its partition. */
    method PartitionOffsets(n: nat, start: map<int, int>, ghost step: map<int, int> -> Parser<map<int, int>>,
        ghost rounds: Counter<map<int, int>>)
      returns (r: Decoded<map<int, int>>)
      requires IsEntry(step) && Counts(rounds, step)
      modifies this
      ensures Agrees(rounds(n, start, old(data)), part, r, data)
    {
      var m, left := start, n;
      while left > 0
        invariant 0 <= left <= n && rounds(n, start, old(data)) == rounds(left, m, data)
      {
        ghost var before := data;
        var entry := PartitionOffset(m, step);
        OneRound(rounds, step, left, m, before, part, entry, data);
        if entry.Malformed? {
          return Malformed(entry.part, entry.kind);
        }
        m, left := entry.value, left - 1;
      }
      NoRound(rounds, step, m, data);
      r := Record(m);
    }

    method TopicOffsets(acc: Position, ghost step: Position -> Parser<Position>) returns (r: Decoded<Position>)
      requires IsTopic(step)
      modifies this
      ensures Agrees(step(acc)(old(data)), part, r, data)
    {
      assert Topic(acc)(data) == step(acc)(data);
      var topic := String();
      if topic.Malformed? {
        return Malformed(topic.part, topic.kind);
      }
      var t := topic.value;
      ghost var afterTopic := data;
      assert Topic(acc)(old(data)) == TopicOf(acc, t)(afterTopic);
      var partitions := ArrayLength();
      if partitions.Malformed? {
        return Malformed(partitions.part, partitions.kind);
      }
      ghost var afterCount := data;
      assert TopicOf(acc, t)(afterTopic) == EntriesOf(acc, t, partitions.value)(afterCount);
      var entries := PartitionOffsets(partitions.value, At(acc, t), Entry, RoundsOf(Entry));
      if entries.Malformed? {
        return Malformed(entries.part, entries.kind);
      }
      r := Record(acc[t := entries.value]);
    }

    method TopicsOffsets(n: nat, start: Position, ghost step: Position -> Parser<Position>,
        ghost rounds: Counter<Position>)
      returns (r: Decoded<Position>)
      requires IsTopic(step) && Counts(rounds, step)
      modifies this
      ensures Agrees(rounds(n, start, old(data)), part, r, data)
    {
      var offsets, left := start, n;
      while left > 0
        invariant 0 <= left <= n && rounds(n, start, old(data)) == rounds(left, offsets, data)
      {
        ghost var before := data;
        var topic := TopicOffsets(offsets, step);
        OneRound(rounds, step, left, offsets, before, part, topic, data);
        if topic.Malformed? {
          return Malformed(topic.part, topic.kind);
        }
        offsets, left := topic.value, left - 1;
      }
      NoRound(rounds, step, offsets, data);
      r := Record(offsets);
    }

    method CutOffsets() returns (r: Decoded<Position>)
      modifies this
      ensures Agrees(Offsets()(old(data)), part, r, data)
    {
      var count := ArrayLength();
      if count.Malformed? {
        return Malformed(count.part, count.kind);
      }
      r := TopicsOffsets(count.value, map[], Topic, RoundsOf(Topic));
    }

    method MissingPartition(acc: set<TopicPartition>, ghost step: set<TopicPartition> -> Parser<set<TopicPartition>>)
      returns (r: Decoded<set<TopicPartition>>)
      requires IsAbsent(step)
      modifies this
      ensures Agrees(step(acc)(old(data)), part, r, data)
    {
      assert Absent(acc)(data) == step(acc)(data);
      var topic := String();
      if topic.Malformed? {
        return Malformed(topic.part, topic.kind);
      }
      ghost var afterTopic := data;
      assert Absent(acc)(old(data)) == AbsentAt(acc, topic.value)(afterTopic);
      var partition := Integer(4);
      if partition.Malformed? {
        return Malformed(partition.part, partition.kind);
      }
      r := Record(acc + {(topic.value, partition.value)});
    }

    method MissingFrom(n: nat, start: set<TopicPartition>,
        ghost step: set<TopicPartition> -> Parser<set<TopicPartition>>, ghost rounds: Counter<set<TopicPartition>>)
      returns (r: Decoded<set<TopicPartition>>)
      requires IsAbsent(step) && Counts(rounds, step)
      modifies this
      ensures Agrees(rounds(n, start, old(data)), part, r, data)
    {
      var missing, left := start, n;
      while left > 0
        invariant 0 <= left <= n && rounds(n, start, old(data)) == rounds(left, missing, data)
      {
        ghost var before := data;
        var partition := MissingPartition(missing, step);
        OneRound(rounds, step, left, missing, before, part, partition, data);
        if partition.Malformed? {
          return Malformed(partition.part, partition.kind);
        }
        missing, left := partition.value, left - 1;
      }
      NoRound(rounds, step, missing, data);
      r := Record(missing);
    }

    method MissingPartitions() returns (r: Decoded<set<TopicPartition>>)
      modifies this
      ensures Agrees(Missing()(old(data)), part, r, data)
    {
      var count := ArrayLength();
      if count.Malformed? {
        return Malformed(count.part, count.kind);
      }
      r := MissingFrom(count.value, {}, Absent, RoundsOf(Absent));
    }
  }

  /** The key of any barrier state record. */
  method ReadKey(data: seq<Byte>) returns (r: Decoded<Key>)
    ensures r == DecodeKey(data)
  {
    var reader := new Reader(data, KeyPart);
    var version := reader.Integer(2);
    if version.Malformed? {
      return Malformed(version.part, version.kind);
    }
    if version.value != RECORD_VERSION {
      return Malformed(KeyPart, UnsupportedVersion(version.value));
    }
    var kind := reader.Integer(2);
    if kind.Malformed? {
      return Malformed(kind.part, kind.kind);
    }
    ghost var afterKind := reader.data;
    assert KeyLayout()(data) == Group(kind.value)(afterKind);
    var group := reader.String();
    if group.Malformed? {
      return Malformed(group.part, group.kind);
    }
    ghost var afterGroup := reader.data;
    assert KeyLayout()(data) == Epoch(kind.value, group.value)(afterGroup);
    var epoch := reader.Integer(8);
    if epoch.Malformed? {
      return Malformed(epoch.part, epoch.kind);
    }
    var end := reader.Finish();
    if end.Malformed? {
      return Malformed(end.part, end.kind);
    }
    r := Record(Key(kind.value, group.value, epoch.value));
  }

  /** The offsets, the missing partitions and the end of a cut value. */
  method ReadPartitions(reader: Reader, cut: Cut) returns (r: Decoded<Cut>)
    modifies reader
    ensures r == Whole(reader.part, WithOffsets(cut), old(reader.data))
  {
    var offsets := reader.CutOffsets();
    if offsets.Malformed? {
      return Malformed(offsets.part, offsets.kind);
    }
    ghost var afterOffsets := reader.data;
    assert WithOffsets(cut)(old(reader.data)) == WithMissing(cut.(offsets := offsets.value))(afterOffsets);
    var missing := reader.MissingPartitions();
    if missing.Malformed? {
      return Malformed(missing.part, missing.kind);
    }
    var end := reader.Finish();
    if end.Malformed? {
      return Malformed(end.part, end.kind);
    }
    r := Record(cut.(offsets := offsets.value, missing := missing.value));
  }

  method ReadStatus(reader: Reader, cut: Cut) returns (r: Decoded<Cut>)
    modifies reader
    ensures r == Whole(reader.part, WithStatus(cut), old(reader.data))
  {
    var code := reader.Integer(1);
    if code.Malformed? {
      return Malformed(code.part, code.kind);
    }
    ghost var afterCode := reader.data;
    assert WithStatus(cut)(old(reader.data)) == StatusOf(cut, code.value)(afterCode);
    if code.value == 0 {
      r := ReadPartitions(reader, cut.(status := Complete));
    } else if code.value == 1 {
      r := ReadPartitions(reader, cut.(status := Partial));
    } else {
      r := Malformed(reader.part, UnknownStatus(code.value));
    }
  }

  method ReadCompleted(reader: Reader, cut: Cut) returns (r: Decoded<Cut>)
    modifies reader
    ensures r == Whole(reader.part, WithCompleted(cut), old(reader.data))
  {
    var completed := reader.Integer(8);
    if completed.Malformed? {
      return Malformed(completed.part, completed.kind);
    }
    ghost var afterCompleted := reader.data;
    assert WithCompleted(cut)(old(reader.data)) == WithStatus(cut.(completedAt := completed.value))(afterCompleted);
    r := ReadStatus(reader, cut.(completedAt := completed.value));
  }

  method ReadTriggered(reader: Reader, cut: Cut) returns (r: Decoded<Cut>)
    modifies reader
    ensures r == Whole(reader.part, WithTriggered(cut), old(reader.data))
  {
    var triggered := reader.Integer(8);
    if triggered.Malformed? {
      return Malformed(triggered.part, triggered.kind);
    }
    ghost var afterTriggered := reader.data;
    assert WithTriggered(cut)(old(reader.data)) == WithCompleted(cut.(triggeredAt := triggered.value))(afterTriggered);
    r := ReadCompleted(reader, cut.(triggeredAt := triggered.value));
  }

  method ReadCutValue(key: Key, data: seq<Byte>) returns (r: Decoded<Cut>)
    ensures r == DecodeValue(key, data)
  {
    var reader := new Reader(data, ValuePart);
    var version := reader.Integer(2);
    if version.Malformed? {
      return Malformed(version.part, version.kind);
    }
    if version.value != RECORD_VERSION {
      return Malformed(ValuePart, UnsupportedVersion(version.value));
    }
    ghost var afterVersion := reader.data;
    assert ValueLayout(key)(data) == WithTriggered(Blank(key))(afterVersion);
    r := ReadTriggered(reader, Blank(key));
  }

  /** A cut, or nothing for a record of another kind and for a tombstone; a malformed key is
      reported first. */
  ghost function DecodeCut(key: seq<Byte>, value: Option<seq<Byte>>): Decoded<Option<Cut>> {
    match DecodeKey(key)
    case Malformed(part, kind) => Malformed(part, kind)
    case Record(k) =>
      if k.kind != CUT_KIND || value.None? then Record(None)
      else
        match DecodeValue(k, value.value)
        case Malformed(part, kind) => Malformed(part, kind)
        case Record(cut) => Record(Some(cut))
  }

  method ReadBarrierCut(key: seq<Byte>, value: Option<seq<Byte>>) returns (r: Decoded<Option<Cut>>)
    ensures r == DecodeCut(key, value)
  {
    var k := ReadKey(key);
    if k.Malformed? {
      return Malformed(k.part, k.kind);
    }
    if k.value.kind != CUT_KIND || value.None? {
      return Record(None);
    }
    var cut := ReadCutValue(k.value, value.value);
    match cut
    case Malformed(part, kind) => r := Malformed(part, kind);
    case Record(c) => r := Record(Some(c));
  }
}
