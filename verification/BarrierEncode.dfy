/** The encoder of cut records, and the round trip through the decoder. */
module BarrierEncode {
  import opened Bytes
  import opened Parsing
  import opened BarrierLayout

  /** A cut as its writer lists it: offsets in any order, duplicates included. */
  datatype CutRecord = CutRecord(
    group: Str, epoch: int, triggeredAt: int, completedAt: int, status: Status,
    offsets: seq<(Str, int, int)>, missing: seq<TopicPartition>)

  // ---- the cut a decoder must produce ----

  /** Each offset replaces any earlier one of its partition. */
  function Latest(offsets: seq<(Str, int, int)>): Position {
    if offsets == [] then map[]
    else
      var x, before := offsets[|offsets| - 1], Latest(offsets[..|offsets| - 1]);
      before[x.0 := At(before, x.0)[x.1 := x.2]]
  }

  function ExpectedCut(r: CutRecord): Cut {
    Cut(r.group, r.epoch, r.triggeredAt, r.completedAt, r.status, Latest(r.offsets), set x | x in r.missing)
  }

  method Expected(r: CutRecord) returns (cut: Cut)
    ensures cut == ExpectedCut(r)
  {
    var offsets: Position := map[];
    for i := 0 to |r.offsets|
      invariant offsets == Latest(r.offsets[..i])
    {
      var (topic, partition, offset) := r.offsets[i];
      offsets := offsets[topic := At(offsets, topic)[partition := offset]];
      assert r.offsets[..i + 1][..i] == r.offsets[..i];
    }
    assert r.offsets[..|r.offsets|] == r.offsets;
    cut := Cut(r.group, r.epoch, r.triggeredAt, r.completedAt, r.status, offsets, set x | x in r.missing);
  }

  // ---- offsets grouped by topic, in topic order ----

  type Entries = seq<(int, int)>
  type Groups = seq<(Str, Entries)>

  /** Byte order. */
  predicate Before(a: seq<Byte>, b: seq<Byte>) {
    b != [] && (a == [] || a[0] < b[0] || (a[0] == b[0] && Before(a[1..], b[1..])))
  }

  predicate Sorted(gs: Groups) {
    forall i, j :: 0 <= i < j < |gs| ==> Before(gs[i].0, gs[j].0)
  }

  /** Appends to the entries of a topic, which it inserts in its place when it is new. */
  function Insert(gs: Groups, t: Str, e: (int, int)): Groups {
    if gs == [] then [(t, [e])]
    else if gs[0].0 == t then [(t, gs[0].1 + [e])] + gs[1..]
    else if Before(t, gs[0].0) then [(t, [e])] + gs
    else [gs[0]] + Insert(gs[1..], t, e)
  }

  function Grouped(offsets: seq<(Str, int, int)>): Groups {
    if offsets == [] then []
    else
      var x := offsets[|offsets| - 1];
      Insert(Grouped(offsets[..|offsets| - 1]), x.0, (x.1, x.2))
  }

  lemma {:induction false} BeforeIsTotal(a: seq<Byte>, b: seq<Byte>)
    ensures a != b ==> Before(a, b) || Before(b, a)
    ensures !(Before(a, b) && Before(b, a))
    decreases |a|
  {
    if a != [] && b != [] && a[0] == b[0] {
      BeforeIsTotal(a[1..], b[1..]);
      if a[1..] == b[1..] {
        assert a == [a[0]] + a[1..] && b == [b[0]] + b[1..];
      }
    }
  }

  lemma {:induction false} BeforeIsTransitive(a: seq<Byte>, b: seq<Byte>, c: seq<Byte>)
    requires Before(a, b) && Before(b, c)
    ensures Before(a, c)
    decreases |a|
  {
    if a != [] && a[0] == b[0] && b[0] == c[0] {
      BeforeIsTransitive(a[1..], b[1..], c[1..]);
    }
  }

  predicate Has(gs: Groups, t: Str) {
    exists i :: 0 <= i < |gs| && gs[i].0 == t
  }

  lemma SortedTail(gs: Groups)
    requires Sorted(gs) && gs != []
    ensures Sorted(gs[1..]) && !Has(gs[1..], gs[0].0)
  {
    forall i | 0 <= i < |gs[1..]|
      ensures gs[1..][i].0 != gs[0].0
    {
      BeforeIsTotal(gs[0].0, gs[i + 1].0);
    }
  }

  lemma SortedCons(g: (Str, Entries), gs: Groups)
    requires Sorted(gs) && forall i :: 0 <= i < |gs| ==> Before(g.0, gs[i].0)
    ensures Sorted([g] + gs)
  {
  }

  lemma BeforeAll(t: Str, gs: Groups)
    requires Sorted(gs) && gs != [] && Before(t, gs[0].0)
    ensures forall i :: 0 <= i < |gs| ==> Before(t, gs[i].0)
    ensures !Has(gs, t)
  {
    forall i | 0 <= i < |gs|
      ensures Before(t, gs[i].0) && gs[i].0 != t
    {
      if i > 0 {
        BeforeIsTransitive(t, gs[0].0, gs[i].0);
      }
      BeforeIsTotal(t, gs[i].0);
    }
  }

  /** Insertion keeps the topics in order, and brings in no other topic. */
  lemma {:induction false} InsertSorted(gs: Groups, t: Str, e: (int, int))
    requires Sorted(gs)
    ensures Sorted(Insert(gs, t, e))
    ensures forall i :: 0 <= i < |Insert(gs, t, e)| ==> Insert(gs, t, e)[i].0 == t || Has(gs, Insert(gs, t, e)[i].0)
    decreases |gs|
  {
    if gs != [] {
      SortedTail(gs);
      if gs[0].0 == t {
        SortedCons((t, gs[0].1 + [e]), gs[1..]);
        assert forall i :: 0 <= i < |gs[1..]| ==> gs[1..][i] == gs[i + 1];
      } else if Before(t, gs[0].0) {
        BeforeAll(t, gs);
        SortedCons((t, [e]), gs);
      } else {
        InsertSorted(gs[1..], t, e);
        var rest := Insert(gs[1..], t, e);
        forall i | 0 <= i < |rest|
          ensures Before(gs[0].0, rest[i].0) && (rest[i].0 == t || Has(gs, rest[i].0))
        {
          BeforeIsTotal(gs[0].0, t);
          if rest[i].0 != t {
            var j :| 0 <= j < |gs[1..]| && gs[1..][j].0 == rest[i].0;
            assert gs[j + 1].0 == rest[i].0;
          }
        }
        SortedCons(gs[0], rest);
      }
    }
  }

  // ---- what the groups decode to ----

  function Fill(m: map<int, int>, es: Entries): map<int, int>
    decreases |es|
  {
    if es == [] then m else Fill(m[es[0].0 := es[0].1], es[1..])
  }

  function Table(gs: Groups, acc: Position): Position
    decreases |gs|
  {
    if gs == [] then acc else Table(gs[1..], acc[gs[0].0 := Fill(At(acc, gs[0].0), gs[0].1)])
  }

  lemma {:induction false} FillLast(m: map<int, int>, es: Entries, e: (int, int))
    ensures Fill(m, es + [e]) == Fill(m, es)[e.0 := e.1]
    decreases |es|
  {
    if es == [] {
      assert [] + [e] == [e] && [e][1..] == [];
    } else {
      assert (es + [e])[1..] == es[1..] + [e];
      FillLast(m[es[0].0 := es[0].1], es[1..], e);
    }
  }

  /** A topic that no group names is left alone. */
  lemma {:induction false} TableApart(gs: Groups, acc: Position, t: Str, m: map<int, int>)
    requires !Has(gs, t)
    ensures Table(gs, acc[t := m]) == Table(gs, acc)[t := m]
    ensures t in Table(gs, acc) <==> t in acc
    decreases |gs|
  {
    if gs != [] {
      var g := gs[0];
      assert g.0 != t;
      var v := Fill(At(acc, g.0), g.1);
      assert acc[t := m][g.0 := v] == acc[g.0 := v][t := m];
      assert !Has(gs[1..], t) by {
        assert forall i :: 0 <= i < |gs[1..]| ==> gs[1..][i] == gs[i + 1];
      }
      TableApart(gs[1..], acc[g.0 := v], t, m);
    }
  }

  /** Inserting an offset into its group decodes as inserting it last. */
  lemma {:induction false} TableInsert(gs: Groups, acc: Position, t: Str, e: (int, int))
    requires Sorted(gs) && t !in acc
    ensures var r := Table(gs, acc);
      Table(Insert(gs, t, e), acc) == r[t := At(r, t)[e.0 := e.1]]
    decreases |gs|
  {
    var one: map<int, int> := map[];
    assert Fill(At(acc, t), [e]) == one[e.0 := e.1] by {
      assert [e][1..] == [];
    }
    if gs == [] {
      assert Insert(gs, t, e)[1..] == [];
    } else {
      SortedTail(gs);
      var g, rest := gs[0], gs[1..];
      if g.0 == t {
        FillLast(map[], g.1, e);
        assert Insert(gs, t, e)[1..] == rest;
        TableApart(rest, acc, t, Fill(map[], g.1 + [e]));
        TableApart(rest, acc, t, Fill(map[], g.1));
      } else if Before(t, g.0) {
        BeforeAll(t, gs);
        assert Insert(gs, t, e)[1..] == gs;
        TableApart(gs, acc, t, one[e.0 := e.1]);
      } else {
        assert Insert(gs, t, e)[1..] == Insert(rest, t, e);
        TableInsert(rest, acc[g.0 := Fill(At(acc, g.0), g.1)], t, e);
      }
    }
  }

  /** Regrouping loses nothing: the groups decode to the latest offset of every partition. */
  lemma {:induction false} GroupedIsLatest(offsets: seq<(Str, int, int)>)
    ensures Sorted(Grouped(offsets))
    ensures Table(Grouped(offsets), map[]) == Latest(offsets)
    decreases |offsets|
  {
    if offsets != [] {
      var x, before := offsets[|offsets| - 1], offsets[..|offsets| - 1];
      GroupedIsLatest(before);
      InsertSorted(Grouped(before), x.0, (x.1, x.2));
      TableInsert(Grouped(before), map[], x.0, (x.1, x.2));
    }
  }

  // ---- encoding ----

  predicate TextFits(t: Str) {
    Fits(|t|, 2)
  }

  function PutText(t: Str): seq<Byte>
    requires TextFits(t)
  {
    Put(|t|, 2) + t
  }

  predicate EntryFits(e: (int, int)) {
    Fits(e.0, 4) && Fits(e.1, 8)
  }

  function PutEntry(e: (int, int)): seq<Byte>
    requires EntryFits(e)
  {
    Put(e.0, 4) + Put(e.1, 8)
  }

  function PutEntries(es: Entries): seq<Byte>
    requires forall i :: 0 <= i < |es| ==> EntryFits(es[i])
    decreases |es|
  {
    if es == [] then [] else PutEntry(es[0]) + PutEntries(es[1..])
  }

  predicate GroupFits(g: (Str, Entries)) {
    TextFits(g.0) && Fits(|g.1|, 4) && forall i :: 0 <= i < |g.1| ==> EntryFits(g.1[i])
  }

  function PutGroup(g: (Str, Entries)): seq<Byte>
    requires GroupFits(g)
  {
    PutText(g.0) + (Put(|g.1|, 4) + PutEntries(g.1))
  }

  function PutGroups(gs: Groups): seq<Byte>
    requires forall i :: 0 <= i < |gs| ==> GroupFits(gs[i])
    decreases |gs|
  {
    if gs == [] then [] else PutGroup(gs[0]) + PutGroups(gs[1..])
  }

  predicate AbsentFits(m: TopicPartition) {
    TextFits(m.0) && Fits(m.1, 4)
  }

  function PutAbsent(m: TopicPartition): seq<Byte>
    requires AbsentFits(m)
  {
    PutText(m.0) + Put(m.1, 4)
  }

  function PutMissing(ms: seq<TopicPartition>): seq<Byte>
    requires forall i :: 0 <= i < |ms| ==> AbsentFits(ms[i])
    decreases |ms|
  {
    if ms == [] then [] else PutAbsent(ms[0]) + PutMissing(ms[1..])
  }

  /** The numbers fit their fields, and so do the lengths, of which the writer makes sure. */
  predicate Encodable(r: CutRecord) {
    && TextFits(r.group) && Fits(r.epoch, 8) && Fits(r.triggeredAt, 8) && Fits(r.completedAt, 8)
    && Fits(|Grouped(r.offsets)|, 4)
    && (forall i :: 0 <= i < |Grouped(r.offsets)| ==> GroupFits(Grouped(r.offsets)[i]))
    && Fits(|r.missing|, 4)
    && (forall i :: 0 <= i < |r.missing| ==> AbsentFits(r.missing[i]))
  }

  function EncodeKey(key: Key): seq<Byte>
    requires Fits(key.kind, 2) && TextFits(key.group) && Fits(key.epoch, 8)
  {
    Put(RECORD_VERSION, 2) + (Put(key.kind, 2) + (PutText(key.group) + Put(key.epoch, 8)))
  }

  function EncodePartitions(gs: Groups, ms: seq<TopicPartition>): seq<Byte>
    requires Fits(|gs|, 4) && (forall i :: 0 <= i < |gs| ==> GroupFits(gs[i]))
    requires Fits(|ms|, 4) && (forall i :: 0 <= i < |ms| ==> AbsentFits(ms[i]))
  {
    (Put(|gs|, 4) + PutGroups(gs)) + (Put(|ms|, 4) + PutMissing(ms))
  }

  function EncodeValue(r: CutRecord): seq<Byte>
    requires Encodable(r)
  {
    Put(RECORD_VERSION, 2) + (Put(r.triggeredAt, 8) + (Put(r.completedAt, 8) + (Put(Code(r.status), 1)
    + EncodePartitions(Grouped(r.offsets), r.missing))))
  }

  // ---- what the layouts read ----

  lemma TextReads(t: Str)
    requires TextFits(t)
    ensures Reads(Text(), PutText(t), t)
  {
    IntReads(|t|, 2);
    TakeReads(t);
    ReturnReads<Str>(t);
    ThenReads(Take(|t|), Checked, t, t, [], t);
    assert t + [] == t;
    ThenReads(Int(2), TextOf, Put(|t|, 2), |t|, t, t);
  }

  lemma CountReads(n: nat)
    requires Fits(n, 4)
    ensures Reads(Count(), Put(n, 4), n)
  {
    IntReads(n, 4);
    ReturnReads<nat>(n);
    ThenReads(Int(4), CountOf, Put(n, 4), n, [], n);
    assert Put(n, 4) + [] == Put(n, 4);
  }

  lemma EntryReads(m: map<int, int>, e: (int, int))
    requires EntryFits(e)
    ensures Reads(Entry(m), PutEntry(e), m[e.0 := e.1])
  {
    IntReads(e.0, 4);
    IntReads(e.1, 8);
    var f := (o: int) => Return(m[e.0 := o]);
    ReturnReads(m[e.0 := e.1]);
    ThenReads(Int(8), f, Put(e.1, 8), e.1, [], m[e.0 := e.1]);
    assert Put(e.1, 8) + [] == Put(e.1, 8);
    SameReads(Then(Int(8), f), OffsetOf(m, e.0), Put(e.1, 8), m[e.0 := e.1]);
    ThenReads(Int(4), (p: int) => OffsetOf(m, p), Put(e.0, 4), e.0, Put(e.1, 8), m[e.0 := e.1]);
  }

  lemma {:induction false} EntriesRead(step: map<int, int> -> Parser<map<int, int>>, m: map<int, int>, es: Entries)
    requires forall m: map<int, int>, e: (int, int) :: EntryFits(e) ==> Reads(step(m), PutEntry(e), m[e.0 := e.1])
    requires forall i :: 0 <= i < |es| ==> EntryFits(es[i])
    ensures Reads(Loop(|es|, step, m), PutEntries(es), Fill(m, es))
    decreases |es|
  {
    if es == [] {
      ReturnReads(m);
      SameReads(Return(m), Loop(0, step, m), [], m);
    } else {
      assert EntryFits(es[0]);
      EntriesRead(step, m[es[0].0 := es[0].1], es[1..]);
      LoopReads(|es| - 1, step, m, PutEntry(es[0]), m[es[0].0 := es[0].1], PutEntries(es[1..]), Fill(m, es));
    }
  }

  lemma GroupReads(acc: Position, g: (Str, Entries))
    requires GroupFits(g)
    ensures Reads(Topic(acc), PutGroup(g), acc[g.0 := Fill(At(acc, g.0), g.1)])
  {
    var (t, es) := g;
    var m := Fill(At(acc, t), es);
    forall m: map<int, int>, e: (int, int) | EntryFits(e)
      ensures Reads(Entry(m), PutEntry(e), m[e.0 := e.1])
    {
      EntryReads(m, e);
    }
    EntriesRead(Entry, At(acc, t), es);
    var f := (m: map<int, int>) => Return<Position>(acc[t := m]);
    ReturnReads<Position>(acc[t := m]);
    ThenReads(Loop(|es|, Entry, At(acc, t)), f, PutEntries(es), m, [], acc[t := m]);
    assert PutEntries(es) + [] == PutEntries(es);
    SameReads(Then(Loop(|es|, Entry, At(acc, t)), f), EntriesOf(acc, t, |es|), PutEntries(es), acc[t := m]);
    CountReads(|es|);
    ThenReads(Count(), (n: nat) => EntriesOf(acc, t, n), Put(|es|, 4), |es|, PutEntries(es), acc[t := m]);
    TextReads(t);
    ThenReads(Text(), (t: Str) => TopicOf(acc, t), PutText(t), t, Put(|es|, 4) + PutEntries(es), acc[t := m]);
  }

  lemma {:induction false} GroupsRead(step: Position -> Parser<Position>, acc: Position, gs: Groups)
    requires forall acc: Position, g: (Str, Entries) :: GroupFits(g) ==>
      Reads(step(acc), PutGroup(g), acc[g.0 := Fill(At(acc, g.0), g.1)])
    requires forall i :: 0 <= i < |gs| ==> GroupFits(gs[i])
    ensures Reads(Loop(|gs|, step, acc), PutGroups(gs), Table(gs, acc))
    decreases |gs|
  {
    if gs == [] {
      ReturnReads(acc);
      SameReads(Return(acc), Loop(0, step, acc), [], acc);
    } else {
      assert GroupFits(gs[0]);
      var acc' := acc[gs[0].0 := Fill(At(acc, gs[0].0), gs[0].1)];
      GroupsRead(step, acc', gs[1..]);
      LoopReads(|gs| - 1, step, acc, PutGroup(gs[0]), acc', PutGroups(gs[1..]), Table(gs, acc));
    }
  }

  lemma OffsetsRead(gs: Groups)
    requires Fits(|gs|, 4) && forall i :: 0 <= i < |gs| ==> GroupFits(gs[i])
    ensures Reads(Offsets(), Put(|gs|, 4) + PutGroups(gs), Table(gs, map[]))
  {
    forall acc: Position, g: (Str, Entries) | GroupFits(g)
      ensures Reads(Topic(acc), PutGroup(g), acc[g.0 := Fill(At(acc, g.0), g.1)])
    {
      GroupReads(acc, g);
    }
    GroupsRead(Topic, map[], gs);
    CountReads(|gs|);
    ThenReads(Count(), TopicsOf, Put(|gs|, 4), |gs|, PutGroups(gs), Table(gs, map[]));
  }

  lemma AbsentReads(acc: set<TopicPartition>, m: TopicPartition)
    requires AbsentFits(m)
    ensures Reads(Absent(acc), PutAbsent(m), acc + {m})
  {
    TextReads(m.0);
    IntReads(m.1, 4);
    var f := (p: int) => Return(acc + {(m.0, p)});
    ReturnReads(acc + {m});
    assert f(m.1) == Return(acc + {m});
    ThenReads(Int(4), f, Put(m.1, 4), m.1, [], acc + {m});
    assert Put(m.1, 4) + [] == Put(m.1, 4);
    SameReads(Then(Int(4), f), AbsentAt(acc, m.0), Put(m.1, 4), acc + {m});
    ThenReads(Text(), (t: Str) => AbsentAt(acc, t), PutText(m.0), m.0, Put(m.1, 4), acc + {m});
  }

  lemma {:induction false} AbsentsRead(
    step: set<TopicPartition> -> Parser<set<TopicPartition>>, acc: set<TopicPartition>, ms: seq<TopicPartition>)
    requires forall acc: set<TopicPartition>, m: TopicPartition :: AbsentFits(m) ==>
      Reads(step(acc), PutAbsent(m), acc + {m})
    requires forall i :: 0 <= i < |ms| ==> AbsentFits(ms[i])
    ensures Reads(Loop(|ms|, step, acc), PutMissing(ms), acc + set x | x in ms)
    decreases |ms|
  {
    if ms == [] {
      ReturnReads(acc);
      SameReads(Return(acc), Loop(0, step, acc), [], acc);
      assert acc + (set x | x in ms) == acc;
    } else {
      assert AbsentFits(ms[0]);
      var acc' := acc + {ms[0]};
      AbsentsRead(step, acc', ms[1..]);
      var all := acc + set x | x in ms;
      assert acc' + (set x | x in ms[1..]) == all by {
        assert ms == [ms[0]] + ms[1..];
      }
      LoopReads(|ms| - 1, step, acc, PutAbsent(ms[0]), acc', PutMissing(ms[1..]), all);
    }
  }

  lemma MissingReads(ms: seq<TopicPartition>)
    requires Fits(|ms|, 4) && forall i :: 0 <= i < |ms| ==> AbsentFits(ms[i])
    ensures Reads(Missing(), Put(|ms|, 4) + PutMissing(ms), set x | x in ms)
  {
    forall acc: set<TopicPartition>, m: TopicPartition | AbsentFits(m)
      ensures Reads(Absent(acc), PutAbsent(m), acc + {m})
    {
      AbsentReads(acc, m);
    }
    AbsentsRead(Absent, {}, ms);
    var all := set x | x in ms;
    assert {} + all == all;
    CountReads(|ms|);
    ThenReads(Count(), AbsentsOf, Put(|ms|, 4), |ms|, PutMissing(ms), all);
  }
}
