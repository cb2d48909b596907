/** The incremental reader of cut records. */
module CutReader {
  import opened Common
  import opened BarrierReader
  import opened BarrierLayout
  import opened Bytes
  import opened Parsing
  import opened CutLog
  import opened CutQueries
  import opened CutRecords
  import BarrierEncode
  import BarrierRoundTrip

  // ---- positions in a log ----

  ghost predicate Rising(log: seq<Entry>) {
    forall i, j :: 0 <= i < j < |log| ==> log[i].offset < log[j].offset
  }

  ghost predicate FromZero(log: seq<Entry>) {
    forall i :: 0 <= i < |log| ==> log[i].offset >= 0
  }

  ghost predicate Splits(log: seq<Entry>, o: int, c: nat) {
    && c <= |log|
    && (forall i :: 0 <= i < c ==> log[i].offset < o)
    && (forall i :: c <= i < |log| ==> log[i].offset >= o)
  }

  /** The number of records below an offset. */
  ghost function Below(log: seq<Entry>, o: int): (c: nat)
    requires Rising(log)
    ensures Splits(log, o, c)
  {
    if log == [] then 0
    else if log[|log| - 1].offset < o then |log|
    else Below(log[..|log| - 1], o)
  }

  lemma SplitIsUnique(log: seq<Entry>, o: int, c: nat, o': int, c': nat)
    requires Splits(log, o, c) && Splits(log, o', c') && o <= o'
    ensures c <= c' && (o == o' ==> c == c')
  {
    assert c < |log| ==> log[c].offset >= o;
    assert c' < |log| ==> log[c'].offset >= o';
  }

  /** The offset after reading records: one past the highest, if that moves it. */
  function Bump(from: int, es: seq<Entry>): int {
    if es == [] then from
    else
      var before, next := Bump(from, es[..|es| - 1]), es[|es| - 1].offset + 1;
      if next > before then next else before
  }

  lemma OneMore(cuts: Cuts, from: int, es: seq<Entry>, i: nat)
    requires i < |es|
    ensures Replay(cuts, es[..i + 1]) == Apply(Replay(cuts, es[..i]), es[i].effect)
    ensures var before, next := Bump(from, es[..i]), es[i].offset + 1;
      Bump(from, es[..i + 1]) == if next > before then next else before
  {
    assert es[..i + 1][..i] == es[..i];
  }

  lemma SplitAfter(log: seq<Entry>, b: nat)
    requires Rising(log) && 0 < b <= |log|
    ensures Splits(log, log[b - 1].offset + 1, b)
  {
    assert forall i :: 0 <= i < b - 1 ==> log[i].offset < log[b - 1].offset;
    assert forall i :: b <= i < |log| ==> log[b - 1].offset < log[i].offset;
  }

  /** Reading what is left of a run across the position, its last record in any case, moves the
      offset past the run's end. */
  lemma BumpOfRun(log: seq<Entry>, gone: nat -> bool, a: nat, b: nat, from: int, c: nat)
    requires Rising(log) && Splits(log, from, c) && a <= c < b <= |log| && !gone(b - 1)
    ensures Splits(log, Bump(from, Kept(log, gone, a, b)), b)
    ensures from < Bump(from, Kept(log, gone, a, b))
  {
    var init, last := Kept(log, gone, a, b - 1), log[b - 1];
    assert (init + [last])[..|init|] == init;
    KeptBelow(log, gone, a, b - 1, last.offset);
    BumpBelow(init, from, last.offset);
    SplitAfter(log, b);
  }

  lemma {:induction false} KeptBelow(log: seq<Entry>, gone: nat -> bool, a: nat, b: nat, o: int)
    requires b <= |log| && forall i :: 0 <= i < b ==> log[i].offset < o
    ensures forall x :: 0 <= x < |Kept(log, gone, a, b)| ==> Kept(log, gone, a, b)[x].offset < o
    decreases b
  {
    if a < b {
      KeptBelow(log, gone, a, b - 1, o);
    }
  }

  lemma {:induction false} BumpBelow(es: seq<Entry>, from: int, o: int)
    requires from <= o && forall i :: 0 <= i < |es| ==> es[i].offset < o
    ensures Bump(from, es) <= o
    decreases |es|
  {
    if es != [] {
      BumpBelow(es[..|es| - 1], from, o);
    }
  }

  // ---- the fetcher and the partitions it serves ----

  datatype Fetched = Batch(records: seq<Rec>) | Unavailable

  /** The outside world. The fetcher answers the n-th call; behind it each partition has a log, of
      which a growing prefix is visible and from which compaction removes ever more records, and
      every cut key has a partition of its own. */
  datatype World = World(
    fetch: (nat, int, int) -> Fetched,
    discover: nat -> Option<seq<int>>,
    ghost read: Rec -> Entry,
    ghost logs: int -> seq<Entry>,
    ghost visible: (nat, int) -> nat,
    ghost gone: (nat, int) -> nat -> bool,
    ghost home: CutKey -> int)

  /** A name for what each record asks for. */
  ghost predicate Decodes(read: Rec -> Entry) {
    forall r: Rec {:trigger EntryOf(r)} :: read(r) == EntryOf(r)
  }

  ghost predicate Matches(read: Rec -> Entry, recs: seq<Rec>, es: seq<Entry>) {
    |recs| == |es| && forall i :: 0 <= i < |recs| ==> es[i] == read(recs[i])
  }

  /** What is left of a run of consecutive records that starts at or below `c` and reaches past it. */
  ghost predicate Run(read: Rec -> Entry, recs: seq<Rec>, log: seq<Entry>, gone: nat -> bool, c: nat, seen: nat, a: nat,
      b: nat)
  {
    a <= c < b <= seen <= |log| && !gone(b - 1) && Matches(read, recs, Kept(log, gone, a, b))
  }

  /** An empty batch means that nothing new is visible; any other is a run across the position. */
  ghost predicate Honest(read: Rec -> Entry, f: Fetched, log: seq<Entry>, gone: nat -> bool, seen: nat, o: int)
    requires Rising(log)
  {
    match f
    case Unavailable => true
    case Batch(recs) =>
      if recs == [] then seen <= Below(log, o)
      else exists a: nat, b: nat :: Run(read, recs, log, gone, Below(log, o), seen, a, b)
  }

  /** What compaction goes by: cut records have the same slot exactly when they have the same key. */
  lemma SlotsAreKeys(r: Rec, r': Rec)
    requires SlotOf(r).Some? && SlotOf(r').Some?
    ensures SlotOf(r) == SlotOf(r') <==> r.key == r'.key
  {
    BarrierRoundTrip.KeysCorrespond(r.key.value, r'.key.value);
  }

  ghost predicate AtHome(log: seq<Entry>, home: CutKey -> int, p: int) {
    forall i, k: CutKey :: 0 <= i < |log| && Writes(log[i], k) ==> home(k) == p
  }

  ghost predicate Sound(w: World) {
    && Decodes(w.read)
    && (forall p: int :: Rising(w.logs(p)) && FromZero(w.logs(p)) && AtHome(w.logs(p), w.home, p))
    && (forall p: int, i: int :: 0 <= i < |w.logs(p)| ==> Genuine(w.logs(p)[i]))
    && (forall n: nat, p: int :: w.visible(n, p) <= |w.logs(p)|)
    && (forall n: nat, n': nat, p: int :: n <= n' ==> w.visible(n, p) <= w.visible(n', p))
    && (forall n: nat, p: int :: Compacted(w.logs(p), w.gone(n, p), w.visible(n, p)))
    && (forall n: nat, n': nat, p: int, i: nat :: n <= n' && w.gone(n, p)(i) ==> w.gone(n', p)(i))
    && (forall n: nat, p: int, o: int ::
          Honest(w.read, w.fetch(n, p, o), w.logs(p), w.gone(n, p), w.visible(n, p), o))
  }

  /** The cached cuts of a partition's keys come from between two positions of its log, and by call
      `n` the malformed records below the first are removed. */
  ghost predicate Holds(w: World, n: nat, cuts: Cuts, p: int, lo: nat, hi: nat) {
    && lo <= hi <= |w.logs(p)| && Intact(w.logs(p), w.gone(n, p), lo)
    && forall k: CutKey :: w.home(k) == p ==> Between(cuts, w.logs(p), k, lo, hi)
  }

  lemma HoldsLower(w: World, n: nat, cuts: Cuts, p: int, lo: nat, lo': nat, hi: nat)
    requires Holds(w, n, cuts, p, lo, hi) && lo' <= lo
    ensures Holds(w, n, cuts, p, lo', hi)
  {
    forall k: CutKey | w.home(k) == p
      ensures Between(cuts, w.logs(p), k, lo', hi)
    {
      BetweenLower(cuts, w.logs(p), k, lo, lo', hi);
    }
  }

  lemma BetweenLower(cuts: Cuts, log: seq<Entry>, k: CutKey, lo: nat, lo': nat, hi: nat)
    requires lo' <= lo && hi <= |log| && Between(cuts, log, k, lo, hi)
    ensures Between(cuts, log, k, lo', hi)
  {
    var m: nat :| m <= hi && Means(cuts, log, k, m) && (lo <= m || Ahead(log, k, lo, hi));
    if m < lo {
      var j: nat :| lo <= j < hi && log[j].slot == Some(k);
      assert Ahead(log, k, lo', hi);
    }
  }

  lemma HoldsLater(w: World, n: nat, n': nat, cuts: Cuts, p: int, lo: nat, hi: nat)
    requires Sound(w) && n <= n' && Holds(w, n, cuts, p, lo, hi)
    ensures Holds(w, n', cuts, p, lo, hi)
  {
  }

  /** What is left of a run of one partition advances that partition and leaves the keys of the
      others alone. */
  lemma RunHolds(w: World, n: nat, cuts: Cuts, p: int, a: nat, b: nat, lo: nat, hi: nat, seen: nat)
    requires Holds(w, n, cuts, p, lo, hi) && a <= lo <= b <= seen <= |w.logs(p)| && hi <= seen
    requires Compacted(w.logs(p), w.gone(n, p), seen) && Intact(w.logs(p), w.gone(n, p), b)
    requires AtHome(w.logs(p), w.home, p)
    ensures var cuts' := Replay(cuts, Kept(w.logs(p), w.gone(n, p), a, b));
      Holds(w, n, cuts', p, b, seen) && Elsewhere(w, p, cuts, cuts')
  {
    var log, gone := w.logs(p), w.gone(n, p);
    var es := Kept(log, gone, a, b);
    forall k: CutKey | w.home(k) == p
      ensures Between(Replay(cuts, es), log, k, b, seen)
    {
      RunAdvances(cuts, log, gone, k, a, b, lo, hi, seen);
    }
    forall k: CutKey | w.home(k) != p
      ensures Lookup(Replay(cuts, es), k) == Lookup(cuts, k)
    {
      ReplayDecides(cuts, es, k);
      if Mentions(es, k) {
        var y := KeptLast(log, gone, a, b, k);
      }
    }
  }

  lemma HoldsApart(w: World, n: nat, cuts: Cuts, cuts': Cuts, p: int, lo: nat, hi: nat)
    requires Holds(w, n, cuts, p, lo, hi)
    requires forall k: CutKey :: w.home(k) == p ==> Lookup(cuts', k) == Lookup(cuts, k)
    ensures Holds(w, n, cuts', p, lo, hi)
  {
    forall k: CutKey | w.home(k) == p
      ensures Between(cuts', w.logs(p), k, lo, hi)
    {
      BetweenApart(cuts, cuts', w.logs(p), k, lo, hi);
    }
  }

  lemma BetweenApart(cuts: Cuts, cuts': Cuts, log: seq<Entry>, k: CutKey, lo: nat, hi: nat)
    requires hi <= |log| && Between(cuts, log, k, lo, hi) && Lookup(cuts', k) == Lookup(cuts, k)
    ensures Between(cuts', log, k, lo, hi)
  {
    var m: nat :| m <= hi && Means(cuts, log, k, m) && (lo <= m || Ahead(log, k, lo, hi));
    assert Means(cuts', log, k, m);
  }

  datatype Outcome = Done | FetchFailed | Rejected(part: Part, kind: Kind)

  class Reader {
    const world: World
    var calls: nat
    var partitions: Option<seq<int>>
    var offsets: map<int, int>
    var cuts: Cuts
    /** How much of each partition was visible when something of it was last read. */
    ghost var high: map<int, nat>

    constructor (world: World)
      requires Sound(world)
      ensures this.world == world && Valid()
      ensures calls == 0 && partitions == None && offsets == map[] && cuts == map[]
    {
      this.world := world;
      calls, partitions, offsets, cuts, high := 0, None, map[], map[], map[];
      new;
      forall p: int
        ensures Knows(world, View(), p)
      {
        NothingRead(world, p);
      }
    }

    method Forgets(group: Str, epoch: int)
      modifies this`cuts
      ensures cuts == Apply(old(cuts), Forget(group, epoch))
    {
      if group in cuts {
        cuts := cuts[group := cuts[group] - {epoch}];
      }
    }

    /** Applies the value of a cut record, which is a tombstone when it is missing or empty. */
    method AcceptValue(key: Key, value: Option<seq<Byte>>) returns (r: Outcome)
      modifies this`cuts
      ensures var e := CutEffect(key, value);
        if e.Bad? then r == Rejected(e.part, e.kind) && cuts == old(cuts) else r == Done && cuts == Apply(old(cuts), e)
      ensures r == Done ==> ValueAccepted(key, value, old(cuts), cuts)
    {
      ValueStores(key, value, cuts);
      if value.None? || value.value == [] {
        Forgets(key.group, key.epoch);
        return Done;
      }
      var decoded := ReadCutValue(key, value.value);
      if decoded.Malformed? {
        return Rejected(decoded.part, decoded.kind);
      }
      var cut := decoded.value;
      CutOfKey(key, value.value);
      if cut.status == Complete {
        cuts := cuts[key.group := Of(cuts, key.group)[key.epoch := cut]];
      } else {
        Forgets(key.group, key.epoch);
      }
      r := Done;
    }

    /** Applies one record. The ghost `e` names what the record asks for. */
    method Accept(record: Rec, ghost e: Entry) returns (r: Outcome)
      requires Decodes(world.read) && e == world.read(record)
      modifies this`cuts
      ensures record.offset == e.offset
      ensures e.effect.Bad? ==> r == Rejected(e.effect.part, e.effect.kind) && cuts == old(cuts)
      ensures !e.effect.Bad? ==> r == Done && cuts == Apply(old(cuts), e.effect)
      ensures r == Done ==> Accepted(record, old(cuts), cuts)
      ensures WellFormed(record) ==> r == Done
    {
      assert e == EntryOf(record);
      AcceptedWhole(record, cuts, e);
      if record.key.None? {
        return Done;
      }
      var decoded := ReadKey(record.key.value);
      if decoded.Malformed? {
        return Rejected(decoded.part, decoded.kind);
      }
      var key := decoded.value;
      if key.kind != CUT_KIND {
        return Done;
      }
      r := AcceptValue(key, record.value);
    }

    /** Applies a batch up to its first malformed record, and moves the offset past the records
        it applied. */
    method ApplyBatch(records: seq<Rec>, from: int, ghost es: seq<Entry>)
      returns (r: Outcome, offset: int, ghost n: nat)
      requires Decodes(world.read) && Matches(world.read, records, es)
      modifies this`cuts
      ensures n <= |es| && cuts == Replay(old(cuts), es[..n])
      ensures forall i :: 0 <= i < n ==> !es[i].effect.Bad?
      ensures r.Done? ==> n == |es| && offset == Bump(from, es)
      ensures !r.Done? ==> n < |es| && es[n].effect.Bad? && r == Rejected(es[n].effect.part, es[n].effect.kind)
    {
      offset, n := from, 0;
      var i := 0;
      while i < |records|
        invariant n == i <= |records|
        invariant cuts == Replay(old(cuts), es[..i]) && offset == Bump(from, es[..i])
        invariant forall j :: 0 <= j < i ==> !es[j].effect.Bad?
      {
        r := Accept(records[i], es[i]);
        if !r.Done? {
          return;
        }
        var next := records[i].offset + 1;
        if next > offset {
          offset := next;
        }
        OneMore(old(cuts), from, es, i);
        i, n := i + 1, n + 1;
      }
      assert es[..|es|] == es;
      r := Done;
    }

    /** Applies what is left of a run across position `c` of the partition's log. */
    method ApplyRun(p: int, records: seq<Rec>, from: int, ghost n: nat, ghost c: nat, ghost top: nat, ghost seen: nat)
      returns (r: Outcome, offset: int, ghost c': nat)
      requires Decodes(world.read) && Readable(world, n, p, seen)
      requires Splits(world.logs(p), from, c) && Holds(world, n, cuts, p, c, top) && top <= seen
      requires exists a: nat, b: nat :: Run(world.read, records, world.logs(p), world.gone(n, p), c, seen, a, b)
      modifies this`cuts
      ensures Holds(world, n, cuts, p, c', seen) && c <= c'
      ensures Elsewhere(world, p, old(cuts), cuts)
      ensures r.Done? ==> c < c' && from < offset && Splits(world.logs(p), offset, c')
    {
      ghost var log, gone := world.logs(p), world.gone(n, p);
      ghost var a: nat, b: nat :| Run(world.read, records, log, gone, c, seen, a, b);
      ghost var applied;
      r, offset, applied := ApplyBatch(records, from, Kept(log, gone, a, b));
      c' := RunPart(world, n, old(cuts), p, Kept(log, gone, a, b), a, b, applied, from, c, top, seen);
    }

    /** One fetch from `from`, at position `c` of the partition's log. The result says whether to
        go on; an end means that nothing moves the offset further. */
    method Pull(p: int, from: int, ghost c: nat, ghost top: nat)
      returns (r: Outcome, more: bool, offset: int, ghost c': nat, ghost top': nat)
      requires Sound(world) && Splits(world.logs(p), from, c)
      requires Holds(world, calls, cuts, p, c, top) && top <= world.visible(calls, p)
      modifies this`cuts, this`calls
      ensures calls == old(calls) + 1
      ensures Holds(world, calls, cuts, p, c', top') && top' <= world.visible(calls, p)
      ensures c <= c' && top <= top'
      ensures Elsewhere(world, p, old(cuts), cuts)
      ensures more ==> r.Done? && c < c' && Splits(world.logs(p), offset, c')
      ensures !more && r.Done? ==> offset == from && c' == c == top' && world.visible(old(calls), p) <= c
    {
      r, more, offset, c', top' := Done, false, from, c, top;
      ghost var seen := world.visible(calls, p);
      SoundAt(world, calls, p, from, c);
      var fetched := world.fetch(calls, p, from);
      calls := calls + 1;
      if fetched.Unavailable? {
        r := FetchFailed;
      } else if fetched.records != [] {
        r, offset, c' := ApplyRun(p, fetched.records, from, calls - 1, c, top, seen);
        top' := seen;
        more := r.Done? && offset > from;
      }
      HoldsLater(world, calls - 1, calls, cuts, p, c', top');
    }

    /** Fetches from `from`, at position `start` of the partition's log, until nothing is new. */
    method PullAll(p: int, from: int, ghost start: nat, ghost top: nat)
      returns (r: Outcome, offset: int, ghost c: nat, ghost top': nat)
      requires Sound(world) && Splits(world.logs(p), from, start)
      requires Holds(world, calls, cuts, p, start, top) && top <= world.visible(calls, p)
      modifies this`cuts, this`calls
      ensures calls >= old(calls)
      ensures start <= c && Holds(world, calls, cuts, p, c, top') && top' <= world.visible(calls, p)
      ensures Elsewhere(world, p, old(cuts), cuts)
      ensures r.Done? ==> Splits(world.logs(p), offset, c) && c == top' && world.visible(old(calls), p) <= c
    {
      offset, c, top' := from, start, top;
      var more := true;
      r := Done;
      while more
        invariant calls >= old(calls)
        invariant start <= c && Holds(world, calls, cuts, p, c, top') && top' <= world.visible(calls, p)
        invariant r.Done? ==> Splits(world.logs(p), offset, c)
        invariant more ==> r.Done?
        invariant r.Done? && !more ==> c == top' && world.visible(old(calls), p) <= c
        invariant Elsewhere(world, p, old(cuts), cuts)
        decreases |world.logs(p)| - c, more
      {
        assert world.visible(old(calls), p) <= world.visible(calls, p);
        r, more, offset, c, top' := Pull(p, offset, c, top');
      }
    }

    ghost function View(): Snapshot
      reads this
    {
      Snapshot(calls, offsets, cuts, high)
    }

    ghost predicate Valid()
      reads this
    {
      Sound(world) && Knowing(world, View()) && Confined(high, partitions)
    }

    /** Reads one partition up to its end, and saves where it got to. */
    method ReadPartition(p: int) returns (r: Outcome)
      requires Sound(world) && Knows(world, View(), p)
      modifies this`cuts, this`calls, this`offsets, this`high
      ensures Advanced(world, old(View()), View(), p)
      ensures high == old(high)[p := View().Top(p)]
      ensures r.Done? ==> CaughtUp(world, View(), p, old(calls))
    {
      ghost var s := View();
      var from := if p in offsets then offsets[p] else 0;
      offsets := offsets[p := from];
      ghost var start, c, top;
      start := ReadTo(world, s, p);
      var offset;
      r, offset, c, top := PullAll(p, from, start, s.Top(p));
      high := high[p := top];
      if r.Done? {
        offsets := offsets[p := offset];
        PartitionRead(world, s, View(), p, true, offset, start, c, top);
      } else {
        PartitionRead(world, s, View(), p, false, from, start, c, top);
      }
    }

    method ReadPartitions(ps: seq<int>) returns (r: Outcome)
      requires Sound(world) && Knowing(world, View())
      modifies this`cuts, this`calls, this`offsets, this`high
      ensures Knowing(world, View()) && Onward(world, old(View()), View())
      ensures forall p :: p in high && p !in old(high) ==> p in ps
      ensures r.Done? ==> forall i :: 0 <= i < |ps| ==> CaughtUp(world, View(), ps[i], old(calls))
    {
      r := Done;
      ghost var s0 := View();
      OnwardIsReflexive(world, s0);
      var i := 0;
      while i < |ps|
        invariant 0 <= i <= |ps| && Knowing(world, View()) && Onward(world, s0, View())
        invariant forall p :: p in high && p !in s0.high ==> p in ps
        invariant forall j :: 0 <= j < i ==> CaughtUp(world, View(), ps[j], s0.calls)
      {
        ghost var s := View();
        r := ReadPartition(ps[i]);
        OneAdvanced(world, s0, s, View(), ps[i]);
        if !r.Done? {
          return;
        }
        AllCaughtUp(world, s0, s, View(), ps, i);
        i := i + 1;
      }
    }

    /** Reads every partition up to its end. The first call discovers the partitions. */
    method Refresh() returns (r: Outcome)
      requires Valid()
      modifies this
      ensures Valid() && Onward(world, old(View()), View())
      ensures r.Done? ==> partitions.Some? && Settled(world, View())
      ensures r.Done? ==> forall p :: p in partitions.value ==> CaughtUp(world, View(), p, old(calls))
    {
      ghost var s0 := View();
      OnwardIsReflexive(world, s0);
      if partitions.None? {
        var found := world.discover(calls);
        calls := calls + 1;
        CallMade(world, s0, View());
        if found.None? {
          return FetchFailed;
        }
        var sorted := Sort(found.value);
        partitions := Some(sorted);
      }
      ghost var s1 := View();
      r := ReadPartitions(partitions.value);
      OnwardIsTransitive(world, s0, s1, View());
      if r.Done? {
        SeenEarlier(world, s0, s1, View(), partitions.value);
        SeenEarlier(world, s0.(calls := 0), s1, View(), partitions.value);
        Settles(world, View(), partitions.value);
      }
    }

    /** The complete cut of a group with the highest epoch. */
    method LatestCompleteCut(group: Str) returns (r: Outcome, cut: Option<Cut>)
      requires Valid()
      modifies this
      ensures Valid() && (r.Done? ==> Settled(world, View()))
      ensures r.Done? && cut.None? ==> forall e: int :: Lookup(cuts, (group, e)) == None
      ensures r.Done? && cut.Some? ==> Lookup(cuts, (group, cut.value.epoch)) == cut && cut.value.status == Complete
      ensures r.Done? && cut.Some? ==> forall e: int :: Lookup(cuts, (group, e)).Some? ==> e <= cut.value.epoch
    {
      cut := None;
      r := Refresh();
      if r.Done? {
        HeldIsKeyed(world, View(), group);
        cut := Newest(Of(cuts, group));
        if cut.Some? {
          HeldIsNamed(world, View(), (group, cut.value.epoch));
        }
      }
    }

    /** The complete cuts of a group above an epoch, oldest first. */
    method CompleteCutsAfter(group: Str, epoch: int) returns (r: Outcome, found: seq<Cut>)
      requires Valid() && I64_MIN <= epoch <= I64_MAX
      modifies this
      ensures Valid() && (r.Done? ==> Settled(world, View()) && Oldest(found))
      ensures r.Done? ==> forall c: Cut :: c in found <==>
        Lookup(cuts, (group, c.epoch)) == Some(c) && c.epoch >= Successor(epoch)
    {
      found := [];
      r := Refresh();
      if r.Done? {
        HeldIsKeyed(world, View(), group);
        found := NewerThan(Of(cuts, group), epoch);
      }
    }

    /** The complete cut of one epoch. */
    method CompleteCutAt(group: Str, epoch: int) returns (r: Outcome, cut: Option<Cut>)
      requires Valid()
      modifies this
      ensures Valid() && (r.Done? ==> Settled(world, View()))
      ensures r.Done? ==> cut == Lookup(cuts, (group, epoch)) && Named(cut, (group, epoch))
      ensures r.Done? ==> Answers(world, View(), (group, epoch), cut)
    {
      cut := None;
      r := Refresh();
      if r.Done? {
        HeldIsNamed(world, View(), (group, epoch));
        cut := Lookup(cuts, (group, epoch));
        SettledAnswers(world, View(), (group, epoch));
      }
    }
  }

  // ---- what a reader knows ----

  /** A reader's state. The ghost part says how much of each partition was visible when something
      of it was last read. */
  datatype Snapshot = Snapshot(calls: nat, offsets: map<int, int>, cuts: Cuts, high: map<int, nat>) {
    /** The next offset to read. */
    function Saved(p: int): int {
      if p in offsets then offsets[p] else 0
    }

    function Top(p: int): nat {
      if p in high then high[p] else 0
    }
  }

  /** The number of a partition's records below its saved offset. */
  ghost function ReadTo(w: World, s: Snapshot, p: int): nat
    requires Sound(w)
  {
    Below(w.logs(p), s.Saved(p))
  }

  ghost predicate Knows(w: World, s: Snapshot, p: int)
    requires Sound(w)
  {
    Holds(w, s.calls, s.cuts, p, ReadTo(w, s, p), s.Top(p)) && s.Top(p) <= w.visible(s.calls, p)
  }

  ghost predicate Knowing(w: World, s: Snapshot)
    requires Sound(w)
  {
    forall p: int :: Knows(w, s, p)
  }

  ghost predicate Confined(high: map<int, nat>, partitions: Option<seq<int>>) {
    forall p :: p in high ==> partitions.Some? && p in partitions.value
  }

  /** Everything that was visible when the partition was read, and all that call `n` could see, is
      below its saved offset. */
  ghost predicate CaughtUp(w: World, s: Snapshot, p: int, n: nat)
    requires Sound(w)
  {
    ReadTo(w, s, p) == s.Top(p) && w.visible(n, p) <= ReadTo(w, s, p)
  }

  /** One partition was read further, and no other one was touched. */
  ghost predicate Advanced(w: World, s: Snapshot, s': Snapshot, p: int)
    requires Sound(w)
  {
    && s.calls <= s'.calls && Knows(w, s', p) && Elsewhere(w, p, s.cuts, s'.cuts)
    && ReadTo(w, s, p) <= ReadTo(w, s', p)
    && forall q: int :: q != p ==> s'.Saved(q) == s.Saved(q) && s'.Top(q) == s.Top(q)
  }

  /** No position goes back. */
  ghost predicate Onward(w: World, s: Snapshot, s': Snapshot)
    requires Sound(w)
  {
    s.calls <= s'.calls && forall p: int :: ReadTo(w, s, p) <= ReadTo(w, s', p)
  }

  /** The cached cuts are what the last writers below the saved offsets left. */
  ghost predicate Settled(w: World, s: Snapshot)
    requires Sound(w)
  {
    forall k: CutKey :: Means(s.cuts, w.logs(w.home(k)), k, ReadTo(w, s, w.home(k)))
  }

  /** What a key is to have, told from the records below the saved offset of its partition: the cut
      that the last record of the key carries, if it is complete, and nothing after a tombstone or
      without a record. */
  ghost predicate Answers(w: World, s: Snapshot, k: CutKey, cut: Option<Cut>)
    requires Sound(w)
  {
    var log, m := w.logs(w.home(k)), ReadTo(w, s, w.home(k));
    && (forall r: BarrierEncode.CutRecord :: LastCarries(log, m, k, r) ==> cut == ToHold(r))
    && (LastDeletes(log, m, k) ==> cut == None)
  }

  ghost predicate Reflects(w: World, s: Snapshot)
    requires Sound(w)
  {
    forall k: CutKey :: Answers(w, s, k, Lookup(s.cuts, k))
  }

  lemma SettledAnswers(w: World, s: Snapshot, k: CutKey)
    requires Sound(w) && Settled(w, s)
    ensures Answers(w, s, k, Lookup(s.cuts, k))
  {
    var log, m := w.logs(w.home(k)), ReadTo(w, s, w.home(k));
    assert Means(s.cuts, log, k, m) && AllGenuine(log);
    forall r: BarrierEncode.CutRecord | LastCarries(log, m, k, r)
      ensures Lookup(s.cuts, k) == ToHold(r)
    {
      UpToDate(s.cuts, log, m, k, r);
    }
    if LastDeletes(log, m, k) {
      NothingLeft(s.cuts, log, m, k);
    }
  }

  /** So every settled reader holds exactly the complete cuts that the records carry. */
  lemma SettledReflects(w: World, s: Snapshot)
    requires Sound(w) && Settled(w, s)
    ensures Reflects(w, s)
  {
    forall k: CutKey
      ensures Answers(w, s, k, Lookup(s.cuts, k))
    {
      SettledAnswers(w, s, k);
    }
  }

  lemma AcceptedWhole(record: Rec, cuts: Cuts, e: Entry)
    requires e == EntryOf(record)
    ensures Accepted(record, cuts, Apply(cuts, e.effect))
    ensures WellFormed(record) ==> !e.effect.Bad?
  {
    RecordsStore(record, cuts);
    if cut: BarrierEncode.CutRecord :| Carries(record, cut) {
      CarriedEntry(record, cut);
    } else if k: CutKey :| Deletes(record, k) {
      DeletedEntry(record, k);
    }
  }

  lemma PartitionRead(w: World, s: Snapshot, s': Snapshot, p: int, done: bool, o: int, start: nat, c: nat, top: nat)
    requires Sound(w) && Knows(w, s, p) && start == ReadTo(w, s, p) <= c
    requires s.calls <= s'.calls && Elsewhere(w, p, s.cuts, s'.cuts)
    requires s'.high == s.high[p := top] && top <= w.visible(s'.calls, p) && Holds(w, s'.calls, s'.cuts, p, c, top)
    requires s'.offsets == s.offsets[p := o] && (if done then Splits(w.logs(p), o, c) else o == s.Saved(p))
    ensures Advanced(w, s, s', p)
    ensures done ==> ReadTo(w, s', p) == c
  {
    if done {
      SplitIsUnique(w.logs(p), o, c, o, ReadTo(w, s', p));
    } else {
      HoldsLower(w, s'.calls, s'.cuts, p, c, start, top);
    }
  }

  lemma OnwardIsReflexive(w: World, s: Snapshot)
    requires Sound(w)
    ensures Onward(w, s, s)
  {
  }

  lemma OnwardIsTransitive(w: World, s: Snapshot, s': Snapshot, s'': Snapshot)
    requires Sound(w) && Onward(w, s, s') && Onward(w, s', s'')
    ensures Onward(w, s, s'')
  {
    forall p: int
      ensures ReadTo(w, s, p) <= ReadTo(w, s'', p)
    {
      assert ReadTo(w, s, p) <= ReadTo(w, s', p);
    }
  }

  lemma CallMade(w: World, s: Snapshot, s': Snapshot)
    requires Sound(w) && Knowing(w, s) && s' == s.(calls := s.calls + 1)
    ensures Knowing(w, s') && Onward(w, s, s')
  {
    forall p: int
      ensures Knows(w, s', p) && ReadTo(w, s, p) <= ReadTo(w, s', p)
    {
      assert Knows(w, s, p) && w.visible(s.calls, p) <= w.visible(s'.calls, p);
      HoldsLater(w, s.calls, s'.calls, s.cuts, p, ReadTo(w, s, p), s.Top(p));
    }
  }

  lemma OneAdvanced(w: World, s0: Snapshot, s: Snapshot, s': Snapshot, p: int)
    requires Sound(w) && Knowing(w, s) && Advanced(w, s, s', p) && Onward(w, s0, s)
    ensures Knowing(w, s') && Onward(w, s0, s')
  {
    forall q: int
      ensures Knows(w, s', q) && ReadTo(w, s0, q) <= ReadTo(w, s', q)
    {
      assert ReadTo(w, s0, q) <= ReadTo(w, s, q);
      if q != p {
        assert Knows(w, s, q) && w.visible(s.calls, q) <= w.visible(s'.calls, q);
        HoldsApart(w, s.calls, s.cuts, s'.cuts, q, ReadTo(w, s, q), s.Top(q));
        HoldsLater(w, s.calls, s'.calls, s'.cuts, q, ReadTo(w, s, q), s.Top(q));
      }
    }
  }

  lemma AllCaughtUp(w: World, s0: Snapshot, s: Snapshot, s': Snapshot, ps: seq<int>, i: nat)
    requires Sound(w) && i < |ps| && Advanced(w, s, s', ps[i]) && s0.calls <= s.calls
    requires CaughtUp(w, s', ps[i], s.calls)
    requires forall j :: 0 <= j < i ==> CaughtUp(w, s, ps[j], s0.calls)
    ensures forall j :: 0 <= j < i + 1 ==> CaughtUp(w, s', ps[j], s0.calls)
  {
    forall j | 0 <= j < i + 1
      ensures CaughtUp(w, s', ps[j], s0.calls)
    {
      assert w.visible(s0.calls, ps[i]) <= w.visible(s.calls, ps[i]);
      if ps[j] != ps[i] {
        assert CaughtUp(w, s, ps[j], s0.calls);
      }
    }
  }

  lemma SeenEarlier(w: World, s0: Snapshot, s1: Snapshot, s: Snapshot, ps: seq<int>)
    requires Sound(w) && s0.calls <= s1.calls
    requires forall i :: 0 <= i < |ps| ==> CaughtUp(w, s, ps[i], s1.calls)
    ensures forall p :: p in ps ==> CaughtUp(w, s, p, s0.calls)
  {
    forall p | p in ps
      ensures CaughtUp(w, s, p, s0.calls)
    {
      var i :| 0 <= i < |ps| && ps[i] == p;
      assert CaughtUp(w, s, ps[i], s1.calls);
      assert w.visible(s0.calls, p) <= w.visible(s1.calls, p);
    }
  }

  lemma Settles(w: World, s: Snapshot, ps: seq<int>)
    requires Sound(w) && Knowing(w, s) && Confined(s.high, Some(ps))
    requires forall p :: p in ps ==> CaughtUp(w, s, p, 0)
    ensures Settled(w, s)
  {
    forall k: CutKey
      ensures Means(s.cuts, w.logs(w.home(k)), k, ReadTo(w, s, w.home(k)))
    {
      var p := w.home(k);
      assert Knows(w, s, p);
      assert Between(s.cuts, w.logs(p), k, ReadTo(w, s, p), s.Top(p));
      assert p in ps ==> CaughtUp(w, s, p, 0);
      NothingAhead(s.cuts, w.logs(p), k, s.Top(p));
    }
  }

  /** Whatever a reader went through, failures included, it holds complete cuts only, each under its
      own group and epoch. */
  lemma HeldIsNamed(w: World, s: Snapshot, k: CutKey)
    requires Sound(w) && Knowing(w, s)
    ensures Named(Lookup(s.cuts, k), k)
  {
    var p := w.home(k);
    assert Knows(w, s, p);
    assert Between(s.cuts, w.logs(p), k, ReadTo(w, s, p), s.Top(p));
    var m: nat :| m <= s.Top(p) && Means(s.cuts, w.logs(p), k, m);
    LastIsNamed(w.logs(p)[..m], k);
  }

  lemma HeldIsKeyed(w: World, s: Snapshot, group: Str)
    requires Sound(w) && Knowing(w, s)
    ensures Keyed(Of(s.cuts, group))
  {
    Spans();
    var m := Of(s.cuts, group);
    forall e | e in m
      ensures m[e].epoch == e && I64_MIN <= e <= I64_MAX
    {
      HeldIsNamed(w, s, (group, e));
    }
  }

  /** Two readers that got equally far hold the same cuts, in whichever order they read the
      partitions and however often they failed on the way. */
  lemma OrderDoesNotMatter(w: World, s: Snapshot, s': Snapshot, k: CutKey)
    requires Sound(w) && Settled(w, s) && Settled(w, s')
    requires ReadTo(w, s, w.home(k)) == ReadTo(w, s', w.home(k))
    ensures Lookup(s.cuts, k) == Lookup(s'.cuts, k)
  {
    var p := w.home(k);
    assert Means(s.cuts, w.logs(p), k, ReadTo(w, s, p)) && Means(s'.cuts, w.logs(p), k, ReadTo(w, s', p));
  }

  lemma NothingRead(w: World, p: int)
    requires Sound(w)
    ensures Holds(w, 0, map[], p, 0, 0) && Below(w.logs(p), 0) == 0
  {
    var none: Cuts := map[];
    forall k: CutKey
      ensures Between(none, w.logs(p), k, 0, 0)
    {
      assert w.logs(p)[..0] == [];
      assert Means(none, w.logs(p), k, 0);
    }
    assert Intact(w.logs(p), w.gone(0, p), 0);
    SplitIsUnique(w.logs(p), 0, 0, 0, Below(w.logs(p), 0));
  }

  // ---- partition order ----

  predicate Ascending(s: seq<int>) {
    forall i, j :: 0 <= i < j < |s| ==> s[i] <= s[j]
  }

  function Place(s: seq<int>, x: int): (r: seq<int>) {
    if s == [] then [x] else if x <= s[0] then [x] + s else [s[0]] + Place(s[1..], x)
  }

  lemma {:induction false} PlaceKeeps(s: seq<int>, x: int)
    ensures multiset(Place(s, x)) == multiset(s) + multiset{x}
    decreases |s|
  {
    if s != [] && x > s[0] {
      PlaceKeeps(s[1..], x);
      assert s == [s[0]] + s[1..];
    }
  }

  predicate AtLeast(low: int, s: seq<int>) {
    forall i :: 0 <= i < |s| ==> low <= s[i]
  }

  lemma {:induction false} PlaceAtLeast(s: seq<int>, x: int, low: int)
    requires AtLeast(low, s) && low <= x
    ensures AtLeast(low, Place(s, x))
    decreases |s|
  {
    if s != [] && x > s[0] {
      PlaceAtLeast(s[1..], x, low);
    }
  }

  lemma {:induction false} PlaceAscends(s: seq<int>, x: int)
    requires Ascending(s)
    ensures Ascending(Place(s, x))
    decreases |s|
  {
    if s != [] && x > s[0] {
      PlaceAscends(s[1..], x);
      PlaceAtLeast(s[1..], x, s[0]);
    }
  }

  method Sort(s: seq<int>) returns (r: seq<int>)
    ensures Ascending(r) && multiset(r) == multiset(s)
  {
    r := [];
    for i := 0 to |s|
      invariant Ascending(r) && multiset(r) == multiset(s[..i])
    {
      PlaceAscends(r, s[i]);
      PlaceKeeps(r, s[i]);
      r := Place(r, s[i]);
      assert s[..i + 1] == s[..i] + [s[i]];
    }
    assert s[..|s|] == s;
  }

  /** Keys of other partitions keep their cached cuts. */
  ghost predicate Elsewhere(w: World, p: int, cuts: Cuts, cuts': Cuts) {
    forall k: CutKey :: w.home(k) != p ==> Lookup(cuts', k) == Lookup(cuts, k)
  }

  /** What reading a partition relies on at call `n`. */
  ghost predicate Readable(w: World, n: nat, p: int, seen: nat) {
    var log := w.logs(p);
    && seen <= |log| && Rising(log) && AtHome(log, w.home, p) && Compacted(log, w.gone(n, p), seen)
    && forall i: nat :: i < |log| ==> Genuine(log[i])
  }

  lemma SoundAt(w: World, n: nat, p: int, o: int, c: nat)
    requires Sound(w) && Splits(w.logs(p), o, c)
    ensures Readable(w, n, p, w.visible(n, p))
    ensures w.visible(n, p) <= w.visible(n + 1, p)
    ensures match w.fetch(n, p, o)
            case Unavailable => true
            case Batch(recs) =>
              if recs == [] then w.visible(n, p) <= c
              else exists a: nat, b: nat :: Run(w.read, recs, w.logs(p), w.gone(n, p), c, w.visible(n, p), a, b)
  {
    assert Honest(w.read, w.fetch(n, p, o), w.logs(p), w.gone(n, p), w.visible(n, p), o);
    SplitIsUnique(w.logs(p), o, c, o, Below(w.logs(p), o));
  }

  /** Where a batch stops, at its end or at a malformed record, is not below the position, and what
      lies before is intact. */
  lemma RunApplied(log: seq<Entry>, gone: nat -> bool, es: seq<Entry>, a: nat, b: nat, n: nat, c: nat)
    returns (end: nat)
    requires a <= c < b <= |log| && es == Kept(log, gone, a, b) && n <= |es| && Intact(log, gone, c)
    requires forall i: nat :: i < |log| ==> Genuine(log[i])
    requires (forall i :: 0 <= i < n ==> !es[i].effect.Bad?) && (n < |es| ==> es[n].effect.Bad?)
    ensures c <= end <= b && (n == |es| ==> end == b)
    ensures es[..n] == Kept(log, gone, a, end) && Intact(log, gone, end)
  {
    end := KeptPrefix(log, gone, a, b, n);
    forall i: nat | i < end && log[i].effect.Bad?
      ensures gone(i)
    {
      if c <= i && !gone(i) {
        var x := KeptHas(log, gone, a, end, i);
      }
    }
  }

  /** Applying the first `applied` records of what is left of a run, all of them or up to a malformed
      one. */
  lemma RunPart(w: World, n: nat, cuts: Cuts, p: int, es: seq<Entry>, a: nat, b: nat, applied: nat, from: int, c: nat,
                top: nat, seen: nat)
    returns (end: nat)
    requires Readable(w, n, p, seen) && Splits(w.logs(p), from, c) && Holds(w, n, cuts, p, c, top) && top <= seen
    requires a <= c < b <= seen && !w.gone(n, p)(b - 1) && es == Kept(w.logs(p), w.gone(n, p), a, b)
    requires applied <= |es| && (forall i :: 0 <= i < applied ==> !es[i].effect.Bad?)
    requires applied < |es| ==> es[applied].effect.Bad?
    ensures Holds(w, n, Replay(cuts, es[..applied]), p, end, seen) && c <= end
    ensures Elsewhere(w, p, cuts, Replay(cuts, es[..applied]))
    ensures applied == |es| ==> c < end && from < Bump(from, es) && Splits(w.logs(p), Bump(from, es), end)
  {
    end := RunApplied(w.logs(p), w.gone(n, p), es, a, b, applied, c);
    RunHolds(w, n, cuts, p, a, end, c, top, seen);
    BumpOfRun(w.logs(p), w.gone(n, p), a, b, from, c);
  }
}
