/** Where the worklist and depth-first recursion part: whenever a seed lies below an earlier one,
    there are nodes that tell the two apart. */
module DataflowLimits {
  import opened Common
  import opened Dispatch
  import opened TreeDataflow
  import opened DepthFirst

  type Rec = seq<nat>

  /** Every node hands on the record, marked with its own number. A record without a mark is a seed. */
  function Mark(i: nat, s: int, r: Rec): Local<int, Rec, int> {
    Local(s, [r + [i]], [])
  }

  ghost predicate Unmarked(seeds: seq<Entry<Rec>>) {
    forall k :: 0 <= k < |seeds| ==> seeds[k].record == []
  }

  /** A marked record comes before an unmarked one. */
  ghost predicate SeedAfterForward(h: seq<Rec>) {
    exists p, q :: 0 <= p < q < |h| && h[p] != [] && h[q] == []
  }

  // ---- the worklist delivers seeds first ----

  lemma {:induction false} ForwardsAreMarked(i: nat, s: int, h: seq<Rec>)
    ensures forall k :: 0 <= k < |Fold(Mark, i, s, h).forwards| ==> Fold(Mark, i, s, h).forwards[k] != []
    decreases |h|
  {
    if h != [] {
      ForwardsAreMarked(i, s, h[..|h| - 1]);
    }
  }

  lemma {:induction false} SeedsAreUnmarked(seeds: seq<Entry<Rec>>, c: nat)
    requires Unmarked(seeds)
    ensures forall k :: 0 <= k < |At(seeds, c)| ==> At(seeds, c)[k] == []
    decreases |seeds|
  {
    if seeds != [] {
      SeedsAreUnmarked(seeds[..|seeds| - 1], c);
    }
  }

  lemma WorklistSeedsFirst(children: Wiring, rank: seq<nat>, parent: seq<int>, world: seq<int>, output: seq<Entry<int>>,
                           seeds: seq<Entry<Rec>>, n: nat, c: nat)
    requires Forest(children, rank, parent) && c < |children| == |world| && Routed(children, seeds) && Unmarked(seeds)
    requires Halted(Iter(Process(Mark), children, Start(world, seeds, output), n))
    ensures !SeedAfterForward(At(Iter(Process(Mark), children, Start(world, seeds, output), n).log, c))
  {
    var d := Iter(Process(Mark), children, Start(world, seeds, output), n);
    IterKeepsFifo(Mark, children, rank, parent, world, seeds, output, n);
    assert BalancedAt(Mark, world, parent, seeds, d.log, d.buffer, c);
    var h := At(d.log, c);
    assert h + [] == h;
    SeedsAreUnmarked(seeds, c);
    if 0 <= parent[c] < |world| {
      ForwardsAreMarked(parent[c], world[parent[c]], At(d.log, parent[c]));
    }
  }

  // ---- recursion delivers what an earlier seed leads to first ----

  lemma {:induction false} VisitExtends(children: Wiring, rank: seq<nat>, run: Run<int, Rec, int>, e: Entry<Rec>)
    requires Ranked(children, rank) && e.node < |children| == |run.world|
    ensures run.log + [e] <= Visit(Mark, children, rank, run, e).log
    decreases rank[e.node], 0, 1
  {
    var forwards := Mark(e.node, run.world[e.node], e.record).forwards;
    FanOutRanked(children, rank, e.node, forwards);
    VisitAllExtends(children, rank, rank[e.node], Touch(Mark, run, e), FanOut(Kids(children, e.node), forwards));
  }

  lemma {:induction false} VisitAllExtends(children: Wiring, rank: seq<nat>, bound: nat, run: Run<int, Rec, int>,
      entries: seq<Entry<Rec>>)
    requires Ranked(children, rank) && |children| == |run.world| && RankedBelow(rank, bound, entries)
    ensures run.log <= VisitAll(Mark, children, rank, bound, run, entries).log
    decreases bound, 0, 0, |entries|
  {
    if entries != [] {
      VisitExtends(children, rank, run, entries[0]);
      VisitAllExtends(children, rank, bound, Visit(Mark, children, rank, run, entries[0]), entries[1..]);
    }
  }

  /** Node `c` got a marked record at or after position `from`. */
  ghost predicate MarkedAt(log: seq<Entry<Rec>>, from: nat, c: nat) {
    exists m :: from <= m < |log| && log[m].node == c && log[m].record != []
  }

  lemma MarkedStays(log: seq<Entry<Rec>>, log': seq<Entry<Rec>>, from: nat, from': nat, c: nat)
    requires MarkedAt(log, from, c) && log <= log' && from' <= from
    ensures MarkedAt(log', from', c)
  {
    var m :| from <= m < |log| && log[m].node == c && log[m].record != [];
    assert log'[m] == log[m];
  }

  lemma {:induction false} ChildTowards(rank: seq<nat>, parent: seq<int>, i: nat, c: nat) returns (k: nat)
    requires |rank| == |parent| && i < |rank| && Below(rank, parent, i, c)
    ensures k < |parent| && parent[k] == i && rank[k] < rank[i] && (k == c || Below(rank, parent, k, c))
    decreases Top(rank) - rank[c]
  {
    if parent[c] == i {
      k := c;
    } else {
      k := ChildTowards(rank, parent, i, parent[c]);
    }
  }

  lemma {:induction false} VisitReaches(children: Wiring, rank: seq<nat>, parent: seq<int>, run: Run<int, Rec, int>,
      e: Entry<Rec>, c: nat)
    requires Forest(children, rank, parent) && e.node < |children| == |run.world| && Below(rank, parent, e.node, c)
    ensures MarkedAt(Visit(Mark, children, rank, run, e).log, |run.log|, c)
    decreases rank[e.node], 0, 1
  {
    var i := e.node;
    var k := ChildTowards(rank, parent, i, c);
    var r := e.record + [i];
    var entries := FanOut(Kids(children, i), [r]);
    FanOutRanked(children, rank, i, [r]);
    assert k in Kids(children, i);
    var q := SentTo(Kids(children, i), r, k);
    VisitAllReaches(children, rank, parent, rank[i], Touch(Mark, run, e), entries, q, c);
    var v := Visit(Mark, children, rank, run, e);
    MarkedStays(v.log, v.log, |run.log| + 1, |run.log|, c);
  }

  lemma SentTo(children: seq<nat>, r: Rec, k: nat) returns (q: nat)
    requires k in children
    ensures q < |FanOut(children, [r])| && FanOut(children, [r])[q] == Entry(k, r)
  {
    var one: seq<Rec> := [r];
    assert one[..0] == [];
    assert FanOut(children, one) == [] + ToEach(children, r);
    q :| 0 <= q < |children| && children[q] == k;
  }

  lemma {:induction false} VisitAllReaches(children: Wiring, rank: seq<nat>, parent: seq<int>, bound: nat,
      run: Run<int, Rec, int>, entries: seq<Entry<Rec>>, q: nat, c: nat)
    requires Forest(children, rank, parent) && |children| == |run.world| && RankedBelow(rank, bound, entries)
    requires q < |entries| && entries[q].record != []
    requires entries[q].node == c || Below(rank, parent, entries[q].node, c)
    ensures MarkedAt(VisitAll(Mark, children, rank, bound, run, entries).log, |run.log|, c)
    decreases bound, 0, 0, |entries|
  {
    var e, rest := entries[0], entries[1..];
    var v := Visit(Mark, children, rank, run, e);
    VisitExtends(children, rank, run, e);
    VisitAllExtends(children, rank, bound, v, rest);
    var v' := VisitAll(Mark, children, rank, bound, v, rest);
    assert VisitAll(Mark, children, rank, bound, run, entries) == v';
    if q > 0 {
      assert rest[q - 1] == entries[q];
      VisitAllReaches(children, rank, parent, bound, v, rest, q - 1, c);
      MarkedStays(v'.log, v'.log, |v.log|, |run.log|, c);
    } else {
      if e.node == c {
        assert (run.log + [e])[|run.log|] == e && v.log[|run.log|] == e;
        assert MarkedAt(v.log, |run.log|, c);
      } else {
        VisitReaches(children, rank, parent, run, e, c);
      }
      MarkedStays(v.log, v'.log, |run.log|, |run.log|, c);
    }
  }

  /** Every entry is delivered. */
  lemma {:induction false} VisitAllDelivers(children: Wiring, rank: seq<nat>, bound: nat, run: Run<int, Rec, int>,
                                            entries: seq<Entry<Rec>>, q: nat) returns (m: nat)
    requires Ranked(children, rank) && |children| == |run.world| && RankedBelow(rank, bound, entries) && q < |entries|
    ensures var log := VisitAll(Mark, children, rank, bound, run, entries).log;
      |run.log| <= m < |log| && log[m] == entries[q]
    decreases |entries|
  {
    var e, rest := entries[0], entries[1..];
    var v := Visit(Mark, children, rank, run, e);
    VisitExtends(children, rank, run, e);
    VisitAllExtends(children, rank, bound, v, rest);
    if q == 0 {
      m := |run.log|;
      assert (run.log + [e])[m] == e && v.log[m] == e;
    } else {
      m := VisitAllDelivers(children, rank, bound, v, rest, q - 1);
    }
  }

  /** A log that delivers a marked record to `c` at `p` and later the entry `e`. */
  ghost predicate Late(log: seq<Entry<Rec>>, e: Entry<Rec>, p: nat, q: nat) {
    p < q < |log| && log[p].node == e.node && log[p].record != [] && log[q] == e
  }

  lemma {:induction false} RecursionSeedsLate(children: Wiring, rank: seq<nat>, parent: seq<int>, bound: nat,
      run: Run<int, Rec, int>, entries: seq<Entry<Rec>>, j: nat, k: nat) returns (p: nat, q: nat)
    requires Forest(children, rank, parent) && |children| == |run.world| && RankedBelow(rank, bound, entries)
    requires j < k < |entries| && Below(rank, parent, entries[j].node, entries[k].node)
    ensures Late(VisitAll(Mark, children, rank, bound, run, entries).log, entries[k], p, q)
    decreases |entries|
  {
    var e, rest := entries[0], entries[1..];
    var v := Visit(Mark, children, rank, run, e);
    assert rest[k - 1] == entries[k];
    if j > 0 {
      assert rest[j - 1] == entries[j];
      p, q := RecursionSeedsLate(children, rank, parent, bound, v, rest, j - 1, k - 1);
    } else {
      VisitReaches(children, rank, parent, run, e, entries[k].node);
      p :| |run.log| <= p < |v.log| && v.log[p].node == entries[k].node && v.log[p].record != [];
      VisitAllExtends(children, rank, bound, v, rest);
      q := VisitAllDelivers(children, rank, bound, v, rest, k - 1);
    }
  }

  lemma LateShows(log: seq<Entry<Rec>>, e: Entry<Rec>, p: nat, q: nat)
    requires Late(log, e, p, q) && e.record == []
    ensures SeedAfterForward(At(log, e.node))
  {
    var c := e.node;
    var a, b, d := log[..p], log[p + 1..q], log[q + 1..];
    assert log == (((a + [log[p]]) + b) + [log[q]]) + d;
    AtSnoc(a, log[p], c);
    AtConcat(a + [log[p]], b, c);
    AtSnoc((a + [log[p]]) + b, log[q], c);
    AtConcat(((a + [log[p]]) + b) + [log[q]], d, c);
    var h, x, y := At(log, c), |At(a, c)|, |At(a, c)| + 1 + |At(b, c)|;
    assert h == ((At(a, c) + [log[p].record]) + At(b, c)) + [log[q].record] + At(d, c);
    assert h[x] == log[p].record && h[y] == log[q].record;
  }

  lemma RecursionShows(children: Wiring, rank: seq<nat>, parent: seq<int>, bound: nat, run: Run<int, Rec, int>,
                       seeds: seq<Entry<Rec>>, j: nat, k: nat)
    requires Forest(children, rank, parent) && |children| == |run.world| && RankedBelow(rank, bound, seeds)
    requires Unmarked(seeds)
    requires j < k < |seeds| && Below(rank, parent, seeds[j].node, seeds[k].node)
    ensures SeedAfterForward(At(VisitAll(Mark, children, rank, bound, run, seeds).log, seeds[k].node))
  {
    var p, q := RecursionSeedsLate(children, rank, parent, bound, run, seeds, j, k);
    LateShows(VisitAll(Mark, children, rank, bound, run, seeds).log, seeds[k], p, q);
  }

  /** The drain of marking nodes ends and leaves node `c` another history than recursion does. */
  ghost predicate Apart(children: Wiring, rank: seq<nat>, world: seq<int>, output: seq<Entry<int>>,
      seeds: seq<Entry<Rec>>, n: nat, c: nat)
    requires Ranked(children, rank) && |children| == |world| && RankedBelow(rank, Top(rank) + 1, seeds)
  {
    var d := Iter(Process(Mark), children, Start(world, seeds, output), n);
    var v := VisitAll(Mark, children, rank, Top(rank) + 1, Run(world, [], output), seeds);
    Halted(d) && At(d.log, c) != At(v.log, c)
  }

  lemma HaltedDiffers(children: Wiring, rank: seq<nat>, parent: seq<int>, world: seq<int>, output: seq<Entry<int>>,
                      seeds: seq<Entry<Rec>>, n: nat, j: nat, k: nat)
    requires Forest(children, rank, parent) && |children| == |world| && Routed(children, seeds) && Unmarked(seeds)
    requires j < k < |seeds| && Below(rank, parent, seeds[j].node, seeds[k].node)
    requires Halted(Iter(Process(Mark), children, Start(world, seeds, output), n))
    ensures RankedBelow(rank, Top(rank) + 1, seeds)
    ensures Apart(children, rank, world, output, seeds, n, seeds[k].node)
  {
    SeedsAreBelow(children, rank, seeds);
    var bound, run: Run<int, Rec, int>, c := Top(rank) + 1, Run(world, [], output), seeds[k].node;
    RecursionShows(children, rank, parent, bound, run, seeds, j, k);
    WorklistSeedsFirst(children, rank, parent, world, output, seeds, n, c);
    Differ(At(Iter(Process(Mark), children, Start(world, seeds, output), n).log, c),
           At(VisitAll(Mark, children, rank, bound, run, seeds).log, c));
  }

  /** The order of the seeds is exactly what the agreement needs: when seed `k` lies below the earlier
      seed `j`, the drivers part at its node. */
  lemma OrderIsNeeded(children: Wiring, rank: seq<nat>, parent: seq<int>, world: seq<int>, output: seq<Entry<int>>,
                      seeds: seq<Entry<Rec>>, j: nat, k: nat)
    returns (n: nat)
    requires Forest(children, rank, parent) && |children| == |world| && Routed(children, seeds) && Unmarked(seeds)
    requires j < k < |seeds| && Below(rank, parent, seeds[j].node, seeds[k].node)
    ensures RankedBelow(rank, Top(rank) + 1, seeds)
    ensures Apart(children, rank, world, output, seeds, n, seeds[k].node)
  {
    n := DrainHalts(Process(Mark), children, rank, Start(world, seeds, output));
    HaltedDiffers(children, rank, parent, world, output, seeds, n, j, k);
  }

  lemma Differ(h: seq<Rec>, h': seq<Rec>)
    requires !SeedAfterForward(h) && SeedAfterForward(h')
    ensures h != h'
  {
  }

  // ---- a source that feeds a node and, behind it, another ----

  lemma SourceSeeds<B, R>(src: Source<B, R>, raw: B, seeds: seq<Entry<R>>)
    requires src.read(raw).Some? && seeds == ToEach(src.children, src.read(raw).value)
    ensures Seeds([src], src.topic, raw) == Some(seeds)
  {
    SeedsOfOne(src, src.topic, raw);
    assert Seeds([src], src.topic, raw).value == seeds;
  }

  /** A source whose child `k` lies below its child `j` makes the two drivers differ with a single
      record: the worklist hands child `k` the record itself first, recursion what child `j` made of
      it. */
  lemma LateChildDiffers<B>(children: Wiring, rank: seq<nat>, parent: seq<int>, world: seq<int>,
      output: seq<Entry<int>>, src: Source<B, Rec>, raw: B, seeds: seq<Entry<Rec>>, j: nat, k: nat)
    returns (n: nat)
    requires Forest(children, rank, parent) && |children| == |world|
    requires (forall c :: c in src.children ==> c < |children|) && src.read(raw) == Some([])
    requires j < k < |src.children| && Below(rank, parent, src.children[j], src.children[k])
    requires seeds == ToEach(src.children, [])
    ensures Seeds([src], src.topic, raw) == Some(seeds) && !InOrder(rank, parent, seeds)
    ensures RankedBelow(rank, Top(rank) + 1, seeds) && Apart(children, rank, world, output, seeds, n, src.children[k])
  {
    SourceSeeds(src, raw, seeds);
    LateChildIsBelow(children, rank, parent, src.children, seeds, j, k);
    n := OrderIsNeeded(children, rank, parent, world, output, seeds, j, k);
  }

  lemma {:induction false} LateChildIsBelow(children: Wiring, rank: seq<nat>, parent: seq<int>, kids: seq<nat>,
                                            seeds: seq<Entry<Rec>>, j: nat, k: nat)
    requires |rank| == |parent| && j < k < |kids| && Below(rank, parent, kids[j], kids[k]) && seeds == ToEach(kids, [])
    requires forall c :: c in kids ==> c < |children|
    ensures Routed(children, seeds) && Unmarked(seeds) && !InOrder(rank, parent, seeds)
    ensures Below(rank, parent, seeds[j].node, seeds[k].node) && seeds[k].node == kids[k]
  {
    assert seeds[j].node == kids[j] && seeds[k].node == kids[k];
    forall i | 0 <= i < |seeds|
      ensures seeds[i].node < |children|
    {
      assert seeds[i].node == kids[i] && kids[i] in kids;
    }
  }

  /** A stream merged with a mapping of itself: node 0 maps, node 1 merges, and the source feeds
      both. */
  const BRANCH: Wiring := [[1], []]

  lemma BranchDiffers<B>(src: Source<B, Rec>, raw: B, world: seq<int>, output: seq<Entry<int>>, seeds: seq<Entry<Rec>>)
    returns (n: nat)
    requires src.children == [0, 1] && src.read(raw) == Some([]) && |world| == 2
    requires seeds == [Entry(0, []), Entry(1, [])]
    ensures Forest(BRANCH, [1, 0], [-1, 0]) && Seeds([src], src.topic, raw) == Some(seeds)
    ensures RankedBelow([1, 0], Top([1, 0]) + 1, seeds) && Apart(BRANCH, [1, 0], world, output, seeds, n, 1)
  {
    assert Forest(BRANCH, [1, 0], [-1, 0]) && Below([1, 0], [-1, 0], 0, 1);
    n := LateChildDiffers(BRANCH, [1, 0], [-1, 0], world, output, src, raw, seeds, 0, 1);
  }
}
