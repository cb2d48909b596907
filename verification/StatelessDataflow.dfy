/** Draining a graph of stateless nodes agrees with the sum over all paths. */
module StatelessDataflow {
  import opened Dispatch

  /** What a set of pending deliveries is worth: how many `process` calls follow from it, and
      which sink records. */
  datatype Work<!O> = Work(deliveries: nat, outputs: multiset<O>)

  function Plus<O>(a: Work<O>, b: Work<O>): Work<O> {
    Work(a.deliveries + b.deliveries, a.outputs + b.outputs)
  }

  lemma PlusAssociative<O>(a: Work<O>, b: Work<O>, c: Work<O>)
    ensures Plus(Plus(a, b), c) == Plus(a, Plus(b, c))
  {
  }

  /** The nodes as functions of the record alone. */
  datatype Nodes<!R, !O> = Nodes(forwards: (nat, R) -> seq<R>, outputs: (nat, R) -> seq<O>)

  function Process<R, O>(nodes: Nodes<R, O>): Behaviour<(), R, O> {
    (i: nat, w, r) => Done(w, nodes.forwards(i, r), nodes.outputs(i, r))
  }

  /** Depth-first: the record's own outputs and those of every path below it. */
  function PathWork<R, O>(nodes: Nodes<R, O>, children: Wiring, rank: seq<nat>, i: nat, r: R): Work<O>
    requires Ranked(children, rank) && i < |children|
    decreases rank[i]
  {
    FanOutRanked(children, rank, i, nodes.forwards(i, r));
    Plus(Work(1, multiset(nodes.outputs(i, r))),
         AllWork(nodes, children, rank, rank[i], FanOut(Kids(children, i), nodes.forwards(i, r))))
  }

  /** The work of several pending entries; `bound` only witnesses termination. */
  function AllWork<R, O>(nodes: Nodes<R, O>, children: Wiring, rank: seq<nat>, ghost bound: nat,
      entries: seq<Entry<R>>): Work<O>
    requires Ranked(children, rank) && RankedBelow(rank, bound, entries)
    decreases bound, |entries|
  {
    if entries == [] then Work(0, multiset{})
    else Plus(PathWork(nodes, children, rank, entries[0].node, entries[0].record),
              AllWork(nodes, children, rank, bound, entries[1..]))
  }

  lemma {:induction false} AllWorkAnyBound<R, O>(nodes: Nodes<R, O>, children: Wiring, rank: seq<nat>,
                                                 b1: nat, b2: nat, entries: seq<Entry<R>>)
    requires Ranked(children, rank) && RankedBelow(rank, b1, entries) && RankedBelow(rank, b2, entries)
    ensures AllWork(nodes, children, rank, b1, entries) == AllWork(nodes, children, rank, b2, entries)
    decreases |entries|
  {
    if entries != [] {
      AllWorkAnyBound(nodes, children, rank, b1, b2, entries[1..]);
    }
  }

  lemma {:induction false} AllWorkConcat<R, O>(nodes: Nodes<R, O>, children: Wiring, rank: seq<nat>, bound: nat,
                                               a: seq<Entry<R>>, b: seq<Entry<R>>)
    requires Ranked(children, rank) && RankedBelow(rank, bound, a) && RankedBelow(rank, bound, b)
    ensures RankedBelow(rank, bound, a + b)
    ensures AllWork(nodes, children, rank, bound, a + b)
         == Plus(AllWork(nodes, children, rank, bound, a), AllWork(nodes, children, rank, bound, b))
    decreases |a|
  {
    if a == [] {
      assert a + b == b;
    } else {
      assert (a + b)[1..] == a[1..] + b && (a + b)[0] == a[0];
      AllWorkConcat(nodes, children, rank, bound, a[1..], b);
      PlusAssociative(PathWork(nodes, children, rank, a[0].node, a[0].record),
                      AllWork(nodes, children, rank, bound, a[1..]), AllWork(nodes, children, rank, bound, b));
    }
  }

  /** Work already done plus work still pending. */
  ghost function Account<R, O>(nodes: Nodes<R, O>, children: Wiring, rank: seq<nat>, bound: nat,
      c: Config<(), R, O>): Work<O>
    requires Ranked(children, rank) && RankedBelow(rank, bound, c.buffer)
  {
    Plus(Work(|c.log|, multiset(c.output)), AllWork(nodes, children, rank, bound, c.buffer))
  }

  /** Delivering an entry trades its work for its own outputs and the work of what it forwards. */
  lemma DeliveryKeepsWork<R, O>(nodes: Nodes<R, O>, children: Wiring, rank: seq<nat>, bound: nat,
                                e: Entry<R>, rest: seq<Entry<R>>, added: seq<Entry<R>>)
    requires Ranked(children, rank) && RankedBelow(rank, bound, [e] + rest)
    requires added == FanOut(Kids(children, e.node), nodes.forwards(e.node, e.record))
    ensures RankedBelow(rank, bound, rest + added)
    ensures AllWork(nodes, children, rank, bound, [e] + rest)
         == Plus(Work(1, multiset(nodes.outputs(e.node, e.record))),
           AllWork(nodes, children, rank, bound, rest + added))
  {
    assert ([e] + rest)[0] == e && ([e] + rest)[1..] == rest;
    FanOutRanked(children, rank, e.node, nodes.forwards(e.node, e.record));
    AllWorkAnyBound(nodes, children, rank, rank[e.node], bound, added);
    AllWorkConcat(nodes, children, rank, bound, rest, added);
    Swap(Work(1, multiset(nodes.outputs(e.node, e.record))), AllWork(nodes, children, rank, bound, added),
         AllWork(nodes, children, rank, bound, rest));
  }

  lemma Swap<O>(own: Work<O>, below: Work<O>, pending: Work<O>)
    ensures Plus(Plus(own, below), pending) == Plus(own, Plus(pending, below))
  {
  }

  lemma StepKeepsAccount<R, O>(nodes: Nodes<R, O>, children: Wiring, rank: seq<nat>, bound: nat, c: Config<(), R, O>)
    requires Ranked(children, rank) && RankedBelow(rank, bound, c.buffer) && !c.failed
    ensures var d := Step(Process(nodes), children, c);
            && !d.failed && RankedBelow(rank, bound, d.buffer)
            && Account(nodes, children, rank, bound, d) == Account(nodes, children, rank, bound, c)
  {
    if |c.buffer| > 0 {
      var e, rest := c.buffer[0], c.buffer[1..];
      var added := FanOut(Kids(children, e.node), nodes.forwards(e.node, e.record));
      var d := Step(Process(nodes), children, c);
      assert c.buffer == [e] + rest && d.buffer == rest + added;
      DeliveryKeepsWork(nodes, children, rank, bound, e, rest, added);
      var own := Work(1, multiset(nodes.outputs(e.node, e.record)));
      PlusAssociative(Work(|c.log|, multiset(c.output)), own, AllWork(nodes, children, rank, bound, d.buffer));
      assert Work(|d.log|, multiset(d.output)) == Plus(Work(|c.log|, multiset(c.output)), own);
    }
  }

  /** `d` is at most `n` deliveries after `c`, fewer only if it has halted, and balances with it. */
  ghost predicate Balances<R, O>(nodes: Nodes<R, O>, children: Wiring, rank: seq<nat>, bound: nat,
                                 c: Config<(), R, O>, d: Config<(), R, O>, n: nat)
    requires Ranked(children, rank) && RankedBelow(rank, bound, c.buffer)
  {
    && !d.failed && RankedBelow(rank, bound, d.buffer)
    && Account(nodes, children, rank, bound, d) == Account(nodes, children, rank, bound, c)
    && |d.log| <= n && (|d.log| == n || Halted(d))
  }

  lemma StepBalances<R, O>(nodes: Nodes<R, O>, children: Wiring, rank: seq<nat>, bound: nat,
                           c: Config<(), R, O>, d: Config<(), R, O>, n: nat)
    requires Ranked(children, rank) && RankedBelow(rank, bound, c.buffer)
    requires Balances(nodes, children, rank, bound, c, d, n)
    ensures Balances(nodes, children, rank, bound, c, Step(Process(nodes), children, d), n + 1)
  {
    StepKeepsAccount(nodes, children, rank, bound, d);
  }

  lemma StartBalances<R, O>(nodes: Nodes<R, O>, children: Wiring, rank: seq<nat>, bound: nat, c: Config<(), R, O>)
    requires Ranked(children, rank) && RankedBelow(rank, bound, c.buffer) && !c.failed && c.log == []
    ensures Balances(nodes, children, rank, bound, c, c, 0)
  {
  }

  lemma {:induction false} IterKeepsAccount<R, O>(nodes: Nodes<R, O>, children: Wiring, rank: seq<nat>, bound: nat,
                                                  c: Config<(), R, O>, n: nat)
    requires Ranked(children, rank) && RankedBelow(rank, bound, c.buffer) && !c.failed && c.log == []
    ensures Balances(nodes, children, rank, bound, c, Iter(Process(nodes), children, c, n), n)
    decreases n
  {
    if n == 0 {
      StartBalances(nodes, children, rank, bound, c);
    } else {
      IterKeepsAccount(nodes, children, rank, bound, c, n - 1);
      StepBalances(nodes, children, rank, bound, c, Iter(Process(nodes), children, c, n - 1), n - 1);
    }
  }

  lemma {:induction false} PendingHasWork<R, O>(nodes: Nodes<R, O>, children: Wiring, rank: seq<nat>, bound: nat,
      entries: seq<Entry<R>>)
    requires Ranked(children, rank) && RankedBelow(rank, bound, entries)
    ensures AllWork(nodes, children, rank, bound, entries).deliveries == 0 <==> entries == []
    ensures entries == [] ==> AllWork(nodes, children, rank, bound, entries).outputs == multiset{}
  {
  }

  lemma AccountIsSettled<R, O>(nodes: Nodes<R, O>, children: Wiring, rank: seq<nat>, bound: nat,
                               c: Config<(), R, O>, d: Config<(), R, O>, n: nat)
    requires Ranked(children, rank) && RankedBelow(rank, bound, c.buffer) && c.log == []
    requires Balances(nodes, children, rank, bound, c, d, n)
    ensures var total := AllWork(nodes, children, rank, bound, c.buffer);
            && (Halted(d) <==> total.deliveries <= n)
            && (Halted(d) ==> |d.log| == total.deliveries && multiset(d.output) == multiset(c.output) + total.outputs)
  {
    PendingHasWork(nodes, children, rank, bound, d.buffer);
  }

  lemma DrainBelow<R, O>(nodes: Nodes<R, O>, children: Wiring, rank: seq<nat>, bound: nat, c: Config<(), R, O>, n: nat)
    requires Ranked(children, rank) && RankedBelow(rank, bound, c.buffer) && !c.failed && c.log == []
    ensures var total := AllWork(nodes, children, rank, bound, c.buffer);
            var d := Iter(Process(nodes), children, c, n);
            && !d.failed
            && (Halted(d) <==> total.deliveries <= n)
            && (Halted(d) ==> |d.log| == total.deliveries && multiset(d.output) == multiset(c.output) + total.outputs)
  {
    IterKeepsAccount(nodes, children, rank, bound, c, n);
    AccountIsSettled(nodes, children, rank, bound, c, Iter(Process(nodes), children, c, n), n);
  }

  /** The driver halts after exactly as many turns as the recursive sum counts deliveries, and
      its sink records are, as a multiset, the recursive sum over all paths. */
  lemma DrainIsPathSum<R, O>(nodes: Nodes<R, O>, children: Wiring, rank: seq<nat>, seeds: seq<Entry<R>>, output: seq<O>,
      n: nat)
    requires Ranked(children, rank) && Routed(children, seeds)
    ensures RankedBelow(rank, Top(rank) + 1, seeds)
    ensures var total := AllWork(nodes, children, rank, Top(rank) + 1, seeds);
            var d := Iter(Process(nodes), children, Start((), seeds, output), n);
            && !d.failed
            && (Halted(d) <==> total.deliveries <= n)
            && (Halted(d) ==> |d.log| == total.deliveries && multiset(d.output) == multiset(output) + total.outputs)
  {
    SeedsAreBelow(children, rank, seeds);
    DrainBelow(nodes, children, rank, Top(rank) + 1, Start((), seeds, output), n);
  }

  /** The same of what `Graph.Drain` returns: it never fails and yields the path sum. */
  lemma DrainedIsPathSum<R(!new), O(!new)>(nodes: Nodes<R, O>, children: Wiring, rank: seq<nat>, seeds: seq<Entry<R>>,
                                           before: seq<O>, after: seq<O>, ok: bool)
    requires Ranked(children, rank) && Routed(children, seeds)
    requires DrainsTo(Process(nodes), children, Start((), seeds, before), (), after, ok)
    ensures ok && RankedBelow(rank, Top(rank) + 1, seeds)
    ensures multiset(after) == multiset(before) + AllWork(nodes, children, rank, Top(rank) + 1, seeds).outputs
  {
    var n: nat :| StopsAfter(Process(nodes), children, Start((), seeds, before), n, (), after, ok);
    DrainIsPathSum(nodes, children, rank, seeds, before, n);
  }
}
