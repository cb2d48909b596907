/** Depth-first recursive forwarding, and its agreement with the FIFO drain on forests. */
module DepthFirst {
  import opened Common
  import opened Dispatch
  import opened TreeDataflow

  /** The plain meaning of `forward`: call each child at once, before returning. */
  function Visit<S, R, O>(nodes: Nodes<S, R, O>, children: Wiring, rank: seq<nat>, run: Run<S, R, O>,
      e: Entry<R>): (v: Run<S, R, O>)
    requires Ranked(children, rank) && e.node < |children| == |run.world|
    ensures |v.world| == |run.world|
    decreases rank[e.node]
  {
    var forwards := nodes(e.node, run.world[e.node], e.record).forwards;
    FanOutRanked(children, rank, e.node, forwards);
    VisitAll(nodes, children, rank, rank[e.node], Touch(nodes, run, e), FanOut(Kids(children, e.node), forwards))
  }

  function VisitAll<S, R, O>(nodes: Nodes<S, R, O>, children: Wiring, rank: seq<nat>, ghost bound: nat,
                             run: Run<S, R, O>, entries: seq<Entry<R>>): (v: Run<S, R, O>)
    requires Ranked(children, rank) && |children| == |run.world| && RankedBelow(rank, bound, entries)
    ensures |v.world| == |run.world|
    decreases bound, |entries|
  {
    if entries == [] then run
    else VisitAll(nodes, children, rank, bound, Visit(nodes, children, rank, run, entries[0]), entries[1..])
  }

  // ---- proper descendants ----

  /** `c` lies properly below `i`. */
  ghost predicate Below(rank: seq<nat>, parent: seq<int>, i: nat, c: nat)
    requires |rank| == |parent|
    decreases if c < |rank| then Top(rank) - rank[c] else 0
  {
    && c < |parent|
    && 0 <= parent[c] < |parent|
    && rank[c] < rank[parent[c]]
    && (parent[c] == i || Below(rank, parent, i, parent[c]))
  }

  lemma {:induction false} BelowRanksLower(rank: seq<nat>, parent: seq<int>, i: nat, c: nat)
    requires |rank| == |parent| && i < |rank| && Below(rank, parent, i, c)
    ensures rank[c] < rank[i]
    decreases Top(rank) - rank[c]
  {
    if parent[c] != i {
      BelowRanksLower(rank, parent, i, parent[c]);
    }
  }

  lemma {:induction false} BelowChildBelow(rank: seq<nat>, parent: seq<int>, i: nat, k: nat, c: nat)
    requires |rank| == |parent| && i < |rank| && k < |rank| && parent[k] == i && rank[k] < rank[i]
    requires Below(rank, parent, k, c)
    ensures Below(rank, parent, i, c)
    decreases Top(rank) - rank[c]
  {
    if parent[c] != k {
      BelowChildBelow(rank, parent, i, k, parent[c]);
    }
  }

  // ---- a node is settled when it received its seeds and then exactly what its parent sent ----

  ghost predicate Settled<S, R, O>(nodes: Nodes<S, R, O>, w0: seq<S>, parent: seq<int>, seeded: seq<Entry<R>>,
                                   log: seq<Entry<R>>, c: nat)
    requires |parent| == |w0|
  {
    c < |w0| && At(log, c) == At(seeded, c) + Sent(nodes, w0, parent, log, c)
  }

  ghost predicate AllSettled<S, R, O>(nodes: Nodes<S, R, O>, rank: seq<nat>, parent: seq<int>, w0: seq<S>,
                                      seeded: seq<Entry<R>>, log: seq<Entry<R>>, i: nat)
    requires |parent| == |w0| == |rank|
  {
    forall c: nat :: Below(rank, parent, i, c) ==> Settled(nodes, w0, parent, seeded, log, c)
  }

  /** As `AllSettled`, except at the direct children of `i`. */
  ghost predicate DeepSettled<S, R, O>(nodes: Nodes<S, R, O>, rank: seq<nat>, parent: seq<int>, w0: seq<S>,
                                      seeded: seq<Entry<R>>, log: seq<Entry<R>>, i: nat)
    requires |parent| == |w0| == |rank|
  {
    forall c: nat :: Below(rank, parent, i, c) && parent[c] != i ==> Settled(nodes, w0, parent, seeded, log, c)
  }

  /** `c` received nothing between the two logs. */
  ghost predicate Same<R>(log: seq<Entry<R>>, log': seq<Entry<R>>, c: nat) {
    At(log', c) == At(log, c)
  }

  lemma SettledCarries<S, R, O>(nodes: Nodes<S, R, O>, w0: seq<S>, parent: seq<int>, seeded: seq<Entry<R>>,
                               log: seq<Entry<R>>, log': seq<Entry<R>>, c: nat)
    requires |parent| == |w0| && Settled(nodes, w0, parent, seeded, log, c)
    requires Same(log, log', c) && (0 <= parent[c] < |w0| ==> Same(log, log', parent[c]))
    ensures Settled(nodes, w0, parent, seeded, log', c)
  {
  }

  /** Processing `e` alone unsettles only the direct children of its node. */
  lemma TouchLeavesDeepSettled<S, R, O>(nodes: Nodes<S, R, O>, rank: seq<nat>, parent: seq<int>,
                                        w0: seq<S>, seeded: seq<Entry<R>>, log: seq<Entry<R>>, e: Entry<R>)
    requires |parent| == |w0| == |rank| && e.node < |w0|
    requires AllSettled(nodes, rank, parent, w0, seeded, log, e.node)
    ensures DeepSettled(nodes, rank, parent, w0, seeded, log + [e], e.node)
  {
    forall c: nat | Below(rank, parent, e.node, c) && parent[c] != e.node
      ensures Settled(nodes, w0, parent, seeded, log + [e], c)
    {
      BelowRanksLower(rank, parent, e.node, c);
      AtSnoc(log, e, c);
      AtSnoc(log, e, parent[c]);
      SettledCarries(nodes, w0, parent, seeded, log, log + [e], c);
    }
  }

  /** What visiting the child `k` of `i` promises about a node `c`, from what it promises of `k`. */
  lemma OutsideChildKept<S, R, O>(nodes: Nodes<S, R, O>, rank: seq<nat>, parent: seq<int>, w0: seq<S>,
      seeded: seq<Entry<R>>, log: seq<Entry<R>>, log': seq<Entry<R>>, i: nat, k: nat, c: nat)
    requires |parent| == |w0| == |rank| && i < |w0| && k < |w0| && parent[k] == i && rank[k] < rank[i]
    requires forall x: nat :: x < |w0| && x != k && !Below(rank, parent, k, x) ==> Same(log, log', x)
    requires AllSettled(nodes, rank, parent, w0, seeded, log', k)
    requires Below(rank, parent, i, c) && parent[c] != i && Settled(nodes, w0, parent, seeded, log, c)
    ensures Settled(nodes, w0, parent, seeded, log', c)
  {
    if !Below(rank, parent, k, c) {
      assert parent[c] != k && !Below(rank, parent, k, parent[c]);
      SettledCarries(nodes, w0, parent, seeded, log, log', c);
    }
  }

  lemma {:induction false} VisitSettles<S, R, O>(nodes: Nodes<S, R, O>, children: Wiring, rank: seq<nat>,
      parent: seq<int>, w0: seq<S>, out0: seq<Entry<O>>, seeded: seq<Entry<R>>, run: Run<S, R, O>, e: Entry<R>)
    requires Forest(children, rank, parent) && e.node < |children| == |w0|
    requires Faithful(nodes, w0, out0, run) && AllSettled(nodes, rank, parent, w0, seeded, run.log, e.node)
    ensures var v := Visit(nodes, children, rank, run, e);
            && Faithful(nodes, w0, out0, v)
            && AllSettled(nodes, rank, parent, w0, seeded, v.log, e.node)
            && At(v.log, e.node) == At(run.log, e.node) + [e.record]
            && forall x: nat :: x < |w0| && x != e.node && !Below(rank, parent, e.node, x) ==> Same(run.log, v.log, x)
    decreases rank[e.node], 0, 1
  {
    var i := e.node;
    var forwards := nodes(i, run.world[i], e.record).forwards;
    var entries := FanOut(Kids(children, i), forwards);
    var run1 := Touch(nodes, run, e);
    FanOutRanked(children, rank, i, forwards);
    TouchFaithful(nodes, w0, out0, run, e);
    TouchLeavesDeepSettled(nodes, rank, parent, w0, seeded, run.log, e);
    VisitAllSettles(nodes, children, rank, parent, w0, out0, seeded, run1, i, entries);
    var v := Visit(nodes, children, rank, run, e);
    assert v == VisitAll(nodes, children, rank, rank[i], run1, entries);
    NotBelowItself(rank, parent, i);
    AtSnoc(run.log, e, i);
    forall x: nat | x < |w0| && x != i && !Below(rank, parent, i, x)
      ensures Same(run.log, v.log, x)
    {
      AtSnoc(run.log, e, x);
    }
    forall c: nat | Below(rank, parent, i, c)
      ensures Settled(nodes, w0, parent, seeded, v.log, c)
    {
      if parent[c] == i {
        AtFanOut(Kids(children, i), forwards, c);
        assert c in Kids(children, i);
        AtSnoc(run.log, e, c);
        SentSnoc(nodes, w0, out0, parent, run, e, c);
        assert Same(run1.log, v.log, i);
        Regroup(At(seeded, c), Sent(nodes, w0, parent, run.log, c), At(entries, c));
      }
    }
  }

  lemma NotBelowItself(rank: seq<nat>, parent: seq<int>, i: nat)
    requires |rank| == |parent| && i < |rank|
    ensures !Below(rank, parent, i, i)
  {
    if Below(rank, parent, i, i) {
      BelowRanksLower(rank, parent, i, i);
    }
  }

  lemma {:induction false} VisitAllSettles<S, R, O>(nodes: Nodes<S, R, O>, children: Wiring, rank: seq<nat>,
      parent: seq<int>, w0: seq<S>, out0: seq<Entry<O>>, seeded: seq<Entry<R>>, run: Run<S, R, O>, i: nat,
      entries: seq<Entry<R>>)
    requires Forest(children, rank, parent) && i < |children| == |w0|
    requires RankedBelow(rank, rank[i], entries) && forall k :: 0 <= k < |entries| ==>
      entries[k].node in Kids(children, i)
    requires Faithful(nodes, w0, out0, run) && DeepSettled(nodes, rank, parent, w0, seeded, run.log, i)
    ensures var v := VisitAll(nodes, children, rank, rank[i], run, entries);
            && Faithful(nodes, w0, out0, v)
            && DeepSettled(nodes, rank, parent, w0, seeded, v.log, i)
            && (forall x: nat :: x < |w0| && !Below(rank, parent, i, x) ==> Same(run.log, v.log, x))
            && (forall x: nat :: x < |w0| && parent[x] == i ==> At(v.log, x) == At(run.log, x) + At(entries, x))
    decreases rank[i], 0, 0, |entries|
  {
    if entries != [] {
      var e, rest := entries[0], entries[1..];
      var k := e.node;
      assert k in Kids(children, i);
      assert AllSettled(nodes, rank, parent, w0, seeded, run.log, k) by {
        forall c: nat | Below(rank, parent, k, c)
          ensures Settled(nodes, w0, parent, seeded, run.log, c)
        {
          BelowChildBelow(rank, parent, i, k, c);
          NotBelowSibling(rank, parent, i, k, c);
        }
      }
      VisitSettles(nodes, children, rank, parent, w0, out0, seeded, run, e);
      var v := Visit(nodes, children, rank, run, e);
      forall c: nat | Below(rank, parent, i, c) && parent[c] != i
        ensures Settled(nodes, w0, parent, seeded, v.log, c)
      {
        OutsideChildKept(nodes, rank, parent, w0, seeded, run.log, v.log, i, k, c);
      }
      VisitAllSettles(nodes, children, rank, parent, w0, out0, seeded, v, i, rest);
      var v' := VisitAll(nodes, children, rank, rank[i], run, entries);
      assert v' == VisitAll(nodes, children, rank, rank[i], v, rest);
      forall x: nat | x < |w0| && !Below(rank, parent, i, x)
        ensures Same(run.log, v'.log, x)
      {
        if Below(rank, parent, k, x) {
          BelowChildBelow(rank, parent, i, k, x);
        }
      }
      forall x: nat | x < |w0| && parent[x] == i
        ensures At(v'.log, x) == At(run.log, x) + At(entries, x)
      {
        AtPop(entries, x);
        if Below(rank, parent, k, x) {
          NotBelowSibling(rank, parent, i, k, x);
        }
        VisitedAndRest(At(run.log, x), e, At(rest, x), x);
      }
    } else {
      forall x: nat | x < |w0| && parent[x] == i
        ensures At(run.log, x) == At(run.log, x) + At(entries, x)
      {
      }
    }
  }

  lemma VisitedAndRest<R>(before: seq<R>, e: Entry<R>, rest: seq<R>, x: nat)
    ensures before + ((if e.node == x then [e.record] else []) + rest)
         == (if e.node == x then before + [e.record] else before) + rest
  {
  }

  /** Nothing below one child of `i` is itself a child of `i`. */
  lemma NotBelowSibling(rank: seq<nat>, parent: seq<int>, i: nat, k: nat, c: nat)
    requires |rank| == |parent| && i < |rank| && k < |rank| && parent[k] == i && rank[k] < rank[i]
    requires Below(rank, parent, k, c)
    ensures parent[c] != i
  {
    if parent[c] == i {
      if Below(rank, parent, k, i) {
        BelowRanksLower(rank, parent, k, i);
      }
    }
  }

  // ---- from the seeds ----

  /** `c` is seeded, or lies below a seeded node. */
  ghost predicate Touched<R>(rank: seq<nat>, parent: seq<int>, seeds: seq<Entry<R>>, c: nat)
    requires |rank| == |parent|
  {
    exists j :: 0 <= j < |seeds| && (seeds[j].node == c || Below(rank, parent, seeds[j].node, c))
  }

  /** No seeded node lies below one seeded earlier. */
  ghost predicate InOrder<R>(rank: seq<nat>, parent: seq<int>, seeds: seq<Entry<R>>)
    requires |rank| == |parent|
  {
    forall j, k :: 0 <= j < k < |seeds| ==> !Below(rank, parent, seeds[j].node, seeds[k].node)
  }

  /** So it is for what a punctuator forwards and a cache flush releases: both seed the children of
      one node. */
  lemma FanOutInOrder<R>(children: Wiring, rank: seq<nat>, parent: seq<int>, i: nat, forwards: seq<R>)
    requires Forest(children, rank, parent)
    ensures InOrder(rank, parent, FanOut(Kids(children, i), forwards))
  {
    var seeds := FanOut(Kids(children, i), forwards);
    forall j, k | 0 <= j < k < |seeds|
      ensures !Below(rank, parent, seeds[j].node, seeds[k].node)
    {
      assert seeds[j].node in Kids(children, i) && seeds[k].node in Kids(children, i);
      if Below(rank, parent, seeds[j].node, seeds[k].node) {
        NotBelowSibling(rank, parent, i, seeds[j].node, seeds[k].node);
      }
    }
  }

  /** And so it is for a record from a topic, when the nodes that sources feed have no other parent. */
  lemma {:induction false} RootsOnly<B, R>(parent: seq<int>, sources: seq<Source<B, R>>, topic: string, raw: B)
    requires forall j, k :: 0 <= j < |sources| && 0 <= k < |sources[j].children| ==>
      sources[j].children[k] < |parent| && parent[sources[j].children[k]] < 0
    requires Seeds(sources, topic, raw).Some?
    ensures forall k :: 0 <= k < |Seeds(sources, topic, raw).value| ==>
      var i := Seeds(sources, topic, raw).value[k].node; i < |parent| && parent[i] < 0
    decreases |sources|
  {
    if sources != [] {
      RootsOnly(parent, sources[..|sources| - 1], topic, raw);
    }
  }

  lemma SourcesInOrder<B, R>(rank: seq<nat>, parent: seq<int>, sources: seq<Source<B, R>>, topic: string, raw: B)
    requires |rank| == |parent|
    requires forall j, k :: 0 <= j < |sources| && 0 <= k < |sources[j].children| ==>
      sources[j].children[k] < |parent| && parent[sources[j].children[k]] < 0
    requires Seeds(sources, topic, raw).Some?
    ensures InOrder(rank, parent, Seeds(sources, topic, raw).value)
  {
    RootsOnly(parent, sources, topic, raw);
  }

  /** After the seeds in `done`: every node is settled, and one that no seed concerns is untouched. */
  ghost predicate SeedsDone<S, R, O>(nodes: Nodes<S, R, O>, rank: seq<nat>, parent: seq<int>, w0: seq<S>,
                                     done: seq<Entry<R>>, log: seq<Entry<R>>)
    requires |parent| == |w0| == |rank|
  {
    forall c: nat :: c < |w0| ==>
      Settled(nodes, w0, parent, done, log, c) && (!Touched(rank, parent, done, c) ==> At(log, c) == [])
  }

  /** Nothing was sent to a node that is about to be seeded. */
  lemma NothingSentYet<S, R, O>(nodes: Nodes<S, R, O>, rank: seq<nat>, parent: seq<int>, w0: seq<S>, children: Wiring,
                                done: seq<Entry<R>>, log: seq<Entry<R>>, i: nat)
    requires Forest(children, rank, parent) && |children| == |w0| && i < |w0|
    requires SeedsDone(nodes, rank, parent, w0, done, log)
    requires forall j :: 0 <= j < |done| ==> !Below(rank, parent, done[j].node, i)
    ensures Sent(nodes, w0, parent, log, i) == []
  {
    if 0 <= parent[i] < |w0| {
      assert i in Kids(children, parent[i]);
      assert !Touched(rank, parent, done, parent[i]);
    }
  }

  lemma SeededNode<S, R, O>(nodes: Nodes<S, R, O>, parent: seq<int>, w0: seq<S>,
                            done: seq<Entry<R>>, e: Entry<R>, log: seq<Entry<R>>, log': seq<Entry<R>>)
    requires |parent| == |w0| && e.node < |w0| && Settled(nodes, w0, parent, done, log, e.node)
    requires Sent(nodes, w0, parent, log, e.node) == []
    requires At(log', e.node) == At(log, e.node) + [e.record]
    requires 0 <= parent[e.node] < |w0| ==> Same(log, log', parent[e.node])
    ensures Settled(nodes, w0, parent, done + [e], log', e.node)
  {
    AtSnoc(done, e, e.node);
    assert At(done, e.node) + [] == At(done, e.node) && At(done + [e], e.node) + [] == At(done + [e], e.node);
  }

  lemma OtherNode<S, R, O>(nodes: Nodes<S, R, O>, parent: seq<int>, w0: seq<S>,
                           done: seq<Entry<R>>, e: Entry<R>, log: seq<Entry<R>>, c: nat)
    requires |parent| == |w0| && c != e.node && Settled(nodes, w0, parent, done, log, c)
    ensures Settled(nodes, w0, parent, done + [e], log, c)
  {
    AtSnoc(done, e, c);
  }

  lemma SeedVisited<S, R, O>(nodes: Nodes<S, R, O>, rank: seq<nat>, parent: seq<int>, w0: seq<S>, children: Wiring,
                             done: seq<Entry<R>>, e: Entry<R>, log: seq<Entry<R>>, log': seq<Entry<R>>, c: nat)
    requires Forest(children, rank, parent) && |children| == |w0| && e.node < |w0| && c < |w0|
    requires forall j :: 0 <= j < |done| ==> !Below(rank, parent, done[j].node, e.node)
    requires SeedsDone(nodes, rank, parent, w0, done, log)
    requires AllSettled(nodes, rank, parent, w0, done, log', e.node)
    requires At(log', e.node) == At(log, e.node) + [e.record]
    requires forall x: nat :: x < |w0| && x != e.node && !Below(rank, parent, e.node, x) ==> Same(log, log', x)
    ensures Settled(nodes, w0, parent, done + [e], log', c)
  {
    if 0 <= parent[c] < |w0| {
      assert c in Kids(children, parent[c]);
    }
    if c == e.node {
      NothingSentYet(nodes, rank, parent, w0, children, done, log, c);
      if 0 <= parent[c] < |w0| {
        ParentOutside(rank, parent, c);
      }
      SeededNode(nodes, parent, w0, done, e, log, log');
    } else {
      if !Below(rank, parent, e.node, c) {
        SettledCarries(nodes, w0, parent, done, log, log', c);
      }
      OtherNode(nodes, parent, w0, done, e, log', c);
    }
  }

  lemma ParentOutside(rank: seq<nat>, parent: seq<int>, c: nat)
    requires |rank| == |parent| && c < |rank| && 0 <= parent[c] < |parent| && rank[c] < rank[parent[c]]
    ensures parent[c] != c && !Below(rank, parent, c, parent[c])
  {
    if Below(rank, parent, c, parent[c]) {
      BelowRanksLower(rank, parent, c, parent[c]);
    }
  }

  lemma TouchedMore<R>(rank: seq<nat>, parent: seq<int>, done: seq<Entry<R>>, e: Entry<R>, c: nat)
    requires |rank| == |parent|
    ensures Touched(rank, parent, done + [e], c) <==>
      Touched(rank, parent, done, c) || e.node == c || Below(rank, parent, e.node, c)
  {
    var all := done + [e];
    assert all[|done|] == e;
    if Touched(rank, parent, done, c) {
      var j :| 0 <= j < |done| && (done[j].node == c || Below(rank, parent, done[j].node, c));
      assert all[j] == done[j];
    }
  }

  lemma SeedStep<S, R, O>(nodes: Nodes<S, R, O>, children: Wiring, rank: seq<nat>, parent: seq<int>,
                          w0: seq<S>, out0: seq<Entry<O>>, done: seq<Entry<R>>, e: Entry<R>, run: Run<S, R, O>)
    requires Forest(children, rank, parent) && |children| == |w0| && e.node < |w0|
    requires forall j :: 0 <= j < |done| ==> !Below(rank, parent, done[j].node, e.node)
    requires Faithful(nodes, w0, out0, run) && SeedsDone(nodes, rank, parent, w0, done, run.log)
    ensures var v := Visit(nodes, children, rank, run, e);
            Faithful(nodes, w0, out0, v) && SeedsDone(nodes, rank, parent, w0, done + [e], v.log)
  {
    VisitSettles(nodes, children, rank, parent, w0, out0, done, run, e);
    var v := Visit(nodes, children, rank, run, e);
    forall c: nat | c < |w0|
      ensures Settled(nodes, w0, parent, done + [e], v.log, c)
      ensures !Touched(rank, parent, done + [e], c) ==> At(v.log, c) == []
    {
      SeedVisited(nodes, rank, parent, w0, children, done, e, run.log, v.log, c);
      TouchedMore(rank, parent, done, e, c);
    }
  }

  lemma {:induction false} SeedsSettle<S, R, O>(nodes: Nodes<S, R, O>, children: Wiring, rank: seq<nat>,
      parent: seq<int>, w0: seq<S>, out0: seq<Entry<O>>, seeds: seq<Entry<R>>, done: seq<Entry<R>>, rest: seq<Entry<R>>,
      run: Run<S, R, O>)
    requires Forest(children, rank, parent) && |children| == |w0|
    requires done + rest == seeds
    requires RankedBelow(rank, Top(rank) + 1, rest) && InOrder(rank, parent, seeds)
    requires Faithful(nodes, w0, out0, run) && SeedsDone(nodes, rank, parent, w0, done, run.log)
    ensures var v := VisitAll(nodes, children, rank, Top(rank) + 1, run, rest);
            Faithful(nodes, w0, out0, v) && Balanced(nodes, w0, parent, seeds, v.log, [])
    decreases |rest|
  {
    if rest == [] {
      assert done == seeds;
      forall c | 0 <= c < |w0|
        ensures BalancedAt(nodes, w0, parent, seeds, run.log, [], c)
      {
        assert Settled(nodes, w0, parent, done, run.log, c);
        assert At(run.log, c) + [] == At(run.log, c);
      }
    } else {
      assert seeds[|done|] == rest[0] && (done + [rest[0]]) + rest[1..] == seeds;
      forall j | 0 <= j < |done|
        ensures !Below(rank, parent, done[j].node, rest[0].node)
      {
        assert seeds[j] == done[j];
      }
      SeedStep(nodes, children, rank, parent, w0, out0, done, rest[0], run);
      SeedsSettle(nodes, children, rank, parent, w0, out0, seeds, done + [rest[0]], rest[1..],
                  Visit(nodes, children, rank, run, rest[0]));
    }
  }

  /** The balance determines every node's history. */
  lemma {:induction false} BalancedIsUnique<S, R, O>(nodes: Nodes<S, R, O>, children: Wiring, rank: seq<nat>,
      parent: seq<int>, w0: seq<S>, seeds: seq<Entry<R>>, log: seq<Entry<R>>, log': seq<Entry<R>>, c: nat)
    requires Forest(children, rank, parent) && c < |children| == |w0|
    requires Balanced(nodes, w0, parent, seeds, log, []) && Balanced(nodes, w0, parent, seeds, log', [])
    ensures At(log, c) == At(log', c)
    decreases Top(rank) - rank[c]
  {
    assert BalancedAt(nodes, w0, parent, seeds, log, [], c) && BalancedAt(nodes, w0, parent, seeds, log', [], c);
    if 0 <= parent[c] < |w0| {
      assert c in Kids(children, parent[c]);
      BalancedIsUnique(nodes, children, rank, parent, w0, seeds, log, log', parent[c]);
    }
    assert At(log, c) + [] == At(log, c) && At(log', c) + [] == At(log', c);
  }

  /** The same histories, states and outputs, node by node. */
  ghost predicate Alike<S, R, O>(children: Wiring, d: Config<seq<S>, R, Entry<O>>, v: Run<S, R, O>) {
    && !d.failed && d.world == v.world
    && forall c: nat :: c < |children| ==> At(d.log, c) == At(v.log, c) && At(d.output, c) == At(v.output, c)
  }

  /** Depth-first forwarding, too, delivers each parent's forwards in order. */
  lemma DepthFirstBalanced<S, R, O>(nodes: Nodes<S, R, O>, children: Wiring, rank: seq<nat>, parent: seq<int>,
                                    world: seq<S>, output: seq<Entry<O>>, seeds: seq<Entry<R>>)
    requires Forest(children, rank, parent) && |children| == |world|
    requires Routed(children, seeds) && InOrder(rank, parent, seeds)
    ensures RankedBelow(rank, Top(rank) + 1, seeds)
    ensures var v := VisitAll(nodes, children, rank, Top(rank) + 1, Run(world, [], output), seeds);
            Faithful(nodes, world, output, v) && Balanced(nodes, world, parent, seeds, v.log, [])
  {
    StartIsDone(nodes, rank, parent, world, output);
    SeedsSettle(nodes, children, rank, parent, world, output, seeds, [], seeds, Run(world, [], output));
  }

  lemma StartIsDone<S, R, O>(nodes: Nodes<S, R, O>, rank: seq<nat>, parent: seq<int>, world: seq<S>,
      output: seq<Entry<O>>)
    requires |parent| == |world| == |rank|
    ensures Faithful(nodes, world, output, Run(world, [], output))
    ensures SeedsDone<S, R, O>(nodes, rank, parent, world, [], [])
  {
    forall c | 0 <= c < |world|
      ensures Follows(nodes, world, output, Run(world, [], output), c)
    {
      assert At(output, c) + [] == At(output, c);
    }
  }

  /** Whatever halted in balance and recursed in balance agree. */
  lemma HaltedIsDepthFirst<S, R, O>(nodes: Nodes<S, R, O>, children: Wiring, rank: seq<nat>, parent: seq<int>,
                                    world: seq<S>, output: seq<Entry<O>>, seeds: seq<Entry<R>>,
                                    d: Config<seq<S>, R, Entry<O>>, v: Run<S, R, O>)
    requires Forest(children, rank, parent) && |children| == |world|
    requires FifoInvariant(nodes, parent, Start(world, seeds, output), d) && Halted(d)
    requires Faithful(nodes, world, output, v) && Balanced(nodes, world, parent, seeds, v.log, [])
    ensures Alike(children, d, v)
  {
    forall c: nat | c < |children|
      ensures At(d.log, c) == At(v.log, c) && At(d.output, c) == At(v.output, c) && d.world[c] == v.world[c]
    {
      BalancedIsUnique(nodes, children, rank, parent, world, seeds, d.log, v.log, c);
      assert Follows(nodes, world, output, Run(d.world, d.log, d.output), c) && Follows(nodes, world, output, v, c);
    }
  }

  /** The FIFO drain ends, and it and depth-first recursion leave every node with the same input
      history, the same state and the same outputs in the same order. */
  lemma FifoIsDepthFirst<S, R, O>(nodes: Nodes<S, R, O>, children: Wiring, rank: seq<nat>, parent: seq<int>,
                                  world: seq<S>, output: seq<Entry<O>>, seeds: seq<Entry<R>>)
    returns (n: nat)
    requires Forest(children, rank, parent) && |children| == |world|
    requires Routed(children, seeds) && InOrder(rank, parent, seeds)
    ensures RankedBelow(rank, Top(rank) + 1, seeds)
    ensures var d := Iter(Process(nodes), children, Start(world, seeds, output), n);
            Halted(d) && Alike(children, d,
              VisitAll(nodes, children, rank, Top(rank) + 1, Run(world, [], output), seeds))
  {
    n := DrainHalts(Process(nodes), children, rank, Start(world, seeds, output));
    DepthFirstBalanced(nodes, children, rank, parent, world, output, seeds);
    IterKeepsFifo(nodes, children, rank, parent, world, seeds, output, n);
    HaltedIsDepthFirst(nodes, children, rank, parent, world, output, seeds,
                       Iter(Process(nodes), children, Start(world, seeds, output), n),
                       VisitAll(nodes, children, rank, Top(rank) + 1, Run(world, [], output), seeds));
  }
}
