/** The writer of cut records, which appends to a buffer. */
module BarrierWriter {
  import opened Bytes
  import opened BarrierLayout
  import opened BarrierEncode

  method WriteText(buffer: seq<Byte>, t: Str) returns (out: seq<Byte>)
    requires TextFits(t)
    ensures out == buffer + PutText(t)
  {
    out := buffer + Put(|t|, 2);
    out := out + t;
  }

  method WriteKey(key: Key) returns (buffer: seq<Byte>)
    requires Fits(key.kind, 2) && TextFits(key.group) && Fits(key.epoch, 8)
    ensures buffer == EncodeKey(key)
  {
    buffer := Put(RECORD_VERSION, 2);
    buffer := buffer + Put(key.kind, 2);
    buffer := WriteText(buffer, key.group);
    buffer := buffer + Put(key.epoch, 8);
  }

  /** Groups the offsets by topic, in topic order. */
  method GroupByTopic(offsets: seq<(Str, int, int)>) returns (groups: Groups)
    ensures groups == Grouped(offsets)
  {
    groups := [];
    for i := 0 to |offsets|
      invariant groups == Grouped(offsets[..i])
    {
      var (topic, partition, offset) := offsets[i];
      assert offsets[..i + 1][..i] == offsets[..i];
      groups := Insert(groups, topic, (partition, offset));
    }
    assert offsets[..|offsets|] == offsets;
  }

  method WriteEntries(buffer: seq<Byte>, es: Entries) returns (out: seq<Byte>)
    requires forall i :: 0 <= i < |es| ==> EntryFits(es[i])
    ensures out == buffer + PutEntries(es)
  {
    out := buffer;
    for i := 0 to |es|
      invariant out + PutEntries(es[i..]) == buffer + PutEntries(es)
    {
      assert EntryFits(es[i]);
      assert PutEntries(es[i..]) == PutEntry(es[i]) + PutEntries(es[i + 1..]) by {
        assert es[i..][1..] == es[i + 1..];
      }
      assert out + PutEntries(es[i..]) == (out + PutEntry(es[i])) + PutEntries(es[i + 1..]);
      assert out + PutEntry(es[i]) == (out + Put(es[i].0, 4)) + Put(es[i].1, 8);
      out := out + Put(es[i].0, 4);
      out := out + Put(es[i].1, 8);
    }
    assert es[|es|..] == [];
    assert out + [] == out;
  }

  method WriteGroup(buffer: seq<Byte>, g: (Str, Entries)) returns (out: seq<Byte>)
    requires GroupFits(g)
    ensures out == buffer + PutGroup(g)
  {
    out := WriteText(buffer, g.0);
    out := out + Put(|g.1|, 4);
    out := WriteEntries(out, g.1);
    assert out == buffer + PutGroup(g);
  }

  method WriteGroups(buffer: seq<Byte>, gs: Groups) returns (out: seq<Byte>)
    requires forall i :: 0 <= i < |gs| ==> GroupFits(gs[i])
    ensures out == buffer + PutGroups(gs)
  {
    out := buffer;
    for i := 0 to |gs|
      invariant out + PutGroups(gs[i..]) == buffer + PutGroups(gs)
    {
      assert GroupFits(gs[i]);
      assert PutGroups(gs[i..]) == PutGroup(gs[i]) + PutGroups(gs[i + 1..]) by {
        assert gs[i..][1..] == gs[i + 1..];
      }
      assert out + PutGroups(gs[i..]) == (out + PutGroup(gs[i])) + PutGroups(gs[i + 1..]);
      out := WriteGroup(out, gs[i]);
    }
    assert gs[|gs|..] == [];
    assert out + [] == out;
  }

  method WriteMissing(buffer: seq<Byte>, ms: seq<TopicPartition>) returns (out: seq<Byte>)
    requires forall i :: 0 <= i < |ms| ==> AbsentFits(ms[i])
    ensures out == buffer + PutMissing(ms)
  {
    out := buffer;
    for i := 0 to |ms|
      invariant out + PutMissing(ms[i..]) == buffer + PutMissing(ms)
    {
      assert AbsentFits(ms[i]);
      assert PutMissing(ms[i..]) == PutAbsent(ms[i]) + PutMissing(ms[i + 1..]) by {
        assert ms[i..][1..] == ms[i + 1..];
      }
      assert out + PutMissing(ms[i..]) == (out + PutAbsent(ms[i])) + PutMissing(ms[i + 1..]);
      assert out + PutAbsent(ms[i]) == (out + PutText(ms[i].0)) + Put(ms[i].1, 4);
      out := WriteText(out, ms[i].0);
      out := out + Put(ms[i].1, 4);
    }
    assert ms[|ms|..] == [];
    assert out + [] == out;
  }

  method WritePartitions(buffer: seq<Byte>, gs: Groups, ms: seq<TopicPartition>) returns (out: seq<Byte>)
    requires Fits(|gs|, 4) && (forall i :: 0 <= i < |gs| ==> GroupFits(gs[i]))
    requires Fits(|ms|, 4) && (forall i :: 0 <= i < |ms| ==> AbsentFits(ms[i]))
    ensures out == buffer + EncodePartitions(gs, ms)
  {
    out := buffer + Put(|gs|, 4);
    out := WriteGroups(out, gs);
    out := out + Put(|ms|, 4);
    out := WriteMissing(out, ms);
    Nest(Put(|gs|, 4), PutGroups(gs), Put(|ms|, 4), PutMissing(ms), buffer);
  }

  lemma Nest(a: seq<Byte>, b: seq<Byte>, c: seq<Byte>, d: seq<Byte>, buffer: seq<Byte>)
    ensures buffer + a + b + c + d == buffer + ((a + b) + (c + d))
  {
  }

  lemma NestRight(a: seq<Byte>, b: seq<Byte>, c: seq<Byte>, d: seq<Byte>, e: seq<Byte>)
    ensures a + b + c + d + e == a + (b + (c + (d + e)))
  {
  }

  method WriteCutValue(r: CutRecord) returns (buffer: seq<Byte>)
    requires Encodable(r)
    ensures buffer == EncodeValue(r)
  {
    Spans();
    var groups := GroupByTopic(r.offsets);
    buffer := Put(RECORD_VERSION, 2);
    buffer := buffer + Put(r.triggeredAt, 8);
    buffer := buffer + Put(r.completedAt, 8);
    buffer := buffer + Put(Code(r.status), 1);
    buffer := WritePartitions(buffer, groups, r.missing);
    NestRight(Put(RECORD_VERSION, 2), Put(r.triggeredAt, 8), Put(r.completedAt, 8), Put(Code(r.status), 1),
              EncodePartitions(groups, r.missing));
  }
}
