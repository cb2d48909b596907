/** The encoded records byte by byte. */
module BarrierBytes {
  import opened Bytes
  import opened BarrierLayout
  import opened BarrierEncode
  import opened BarrierRoundTrip

  lemma TwoBytes(x: int)
    requires 0 <= x < 0x8000
    ensures Fits(x, 2) && Put(x, 2) == [x / 256, x % 256]
  {
    Spans();
    NumberBytes(x, 2, 0);
    NumberBytes(x, 2, 1);
    assert Span(0) == 1;
  }

  lemma OneByte(x: int)
    requires 0 <= x < 0x80
    ensures Fits(x, 1) && Put(x, 1) == [x]
  {
    Spans();
    NumberBytes(x, 1, 0);
    assert Span(0) == 1;
  }

  lemma FourBytes(x: int)
    requires 0 <= x < 0x80
    ensures Fits(x, 4) && Put(x, 4) == [0, 0, 0, x]
  {
    Spans();
    assert Span(3) == 0x100_0000 && Span(0) == 1;
    NumberBytes(x, 4, 0);
    NumberBytes(x, 4, 1);
    NumberBytes(x, 4, 2);
    NumberBytes(x, 4, 3);
  }

  /** The key of a cut: version 0, kind 2, the length of the group and the group, and the epoch. */
  lemma KeyBytes(group: Str, epoch: int)
    requires |group| < 0x8000 && Fits(epoch, 8)
    ensures KeyFits(Key(2, group, epoch))
    ensures EncodeKey(Key(2, group, epoch))
         == [0, 0, 0, 2, |group| / 256, |group| % 256] + group + Put(epoch, 8)
  {
    Spans();
    TwoBytes(0);
    TwoBytes(2);
    TwoBytes(|group|);
  }

  /** The value of a cut: version 0, the two times, the status as 0 or 1, and the partitions. */
  lemma ValueBytes(r: CutRecord)
    requires Encodable(r)
    ensures var v, rest := EncodeValue(r), EncodePartitions(Grouped(r.offsets), r.missing);
      v == [0, 0] + Put(r.triggeredAt, 8) + Put(r.completedAt, 8) + [if r.status == Complete then 0 else 1] + rest
  {
    TwoBytes(0);
    OneByte(0);
    OneByte(1);
  }

  /** A topic with one offset, and one missing partition: how many topics, the topic, how many
      offsets, partition and offset; how many are missing, topic and partition. */
  lemma PartitionBytes(t: Str, p: int, o: int, u: Str, q: int)
    requires |t| < 0x8000 && |u| < 0x8000 && Fits(p, 4) && Fits(o, 8) && Fits(q, 4)
    ensures TextFits(t) && TextFits(u) && Fits(1, 4)
    ensures EncodePartitions([(t, [(p, o)])], [(u, q)])
         == [0, 0, 0, 1] + ([|t| / 256, |t| % 256] + t) + [0, 0, 0, 1] + (Put(p, 4) + Put(o, 8))
            + [0, 0, 0, 1] + ([|u| / 256, |u| % 256] + u) + Put(q, 4)
  {
    FourBytes(1);
    TwoBytes(|t|);
    TwoBytes(|u|);
    OneGroup(t, p, o);
    OneAbsent(u, q);
  }

  lemma OneGroup(t: Str, p: int, o: int)
    requires TextFits(t) && Fits(p, 4) && Fits(o, 8) && Fits(1, 4)
    ensures PutGroups([(t, [(p, o)])]) == PutText(t) + Put(1, 4) + (Put(p, 4) + Put(o, 8))
  {
    var es := [(p, o)];
    assert es[1..] == [] && PutEntries(es) == PutEntry(es[0]) + PutEntries(es[1..]);
    var gs := [(t, es)];
    assert gs[1..] == [] && PutGroups(gs) == PutGroup(gs[0]) + PutGroups(gs[1..]);
  }

  lemma OneAbsent(u: Str, q: int)
    requires TextFits(u) && Fits(q, 4)
    ensures PutMissing([(u, q)]) == PutText(u) + Put(q, 4)
  {
    var ms := [(u, q)];
    assert ms[1..] == [] && PutMissing(ms) == PutAbsent(ms[0]) + PutMissing(ms[1..]);
  }
}
