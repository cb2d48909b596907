/** Draining a forest of stateful nodes agrees with depth-first recursive forwarding.

    Every node has at most one parent and its own state, so each node is a function from the
    records it received to the records it forwards.  Both the FIFO drain and the recursion
    deliver, at every node, the parent's forwards in order, hence the same history everywhere. */
module TreeDataflow {
  import opened Common
  import opened Dispatch

  datatype Local<S, R, O> = Local(state: S, forwards: seq<R>, outputs: seq<O>)

  /** Node `i` in state `s` receives a record. */
  type Nodes<!S, !R, !O> = (nat, S, R) -> Local<S, R, O>

  /** The driver's view: the world holds one state per node, and outputs name their node. */
  function Process<S, R, O>(nodes: Nodes<S, R, O>): Behaviour<seq<S>, R, Entry<O>> {
    (i: nat, w: seq<S>, r) =>
      if i < |w| then
        var l := nodes(i, w[i], r);
        Done(w[i := l.state], l.forwards, Tagged(i, l.outputs))
      else Failed(w, [])
  }

  function Tagged<O>(i: nat, outputs: seq<O>): (r: seq<Entry<O>>)
    ensures |r| == |outputs| && forall k :: 0 <= k < |r| ==> r[k] == Entry(i, outputs[k])
  {
    seq(|outputs|, k requires 0 <= k < |outputs| => Entry(i, outputs[k]))
  }

  /** The records that a list of entries carries to node `i`, in order. */
  function At<R>(entries: seq<Entry<R>>, i: nat): seq<R> {
    if entries == [] then []
    else
      var last := entries[|entries| - 1];
      At(entries[..|entries| - 1], i) + if last.node == i then [last.record] else []
  }

  /** Node `i` after receiving `history` from its initial state. */
  function Fold<S, R, O>(nodes: Nodes<S, R, O>, i: nat, s: S, history: seq<R>): Local<S, R, O> {
    if history == [] then Local(s, [], [])
    else
      var p := Fold(nodes, i, s, history[..|history| - 1]);
      var l := nodes(i, p.state, history[|history| - 1]);
      Local(l.state, p.forwards + l.forwards, p.outputs + l.outputs)
  }

  /** `parent[c]` is the one node that forwards to `c`, or `-1`. */
  ghost predicate Forest(children: Wiring, rank: seq<nat>, parent: seq<int>) {
    && Ranked(children, rank)
    && |parent| == |children|
    && (forall i: nat, c: nat {:trigger c in Kids(children, i)} :: c in Kids(children, i) <==>
      c < |parent| && parent[c] == i)
    && (forall i: nat :: Once(Kids(children, i)))
  }

  lemma {:induction false} AtConcat<R>(a: seq<Entry<R>>, b: seq<Entry<R>>, i: nat)
    ensures At(a + b, i) == At(a, i) + At(b, i)
    decreases |b|
  {
    if b == [] {
      assert a + b == a;
    } else {
      var init := b[..|b| - 1];
      assert (a + b)[..|a + b| - 1] == a + init;
      AtConcat(a, init, i);
    }
  }

  lemma AtSnoc<R>(a: seq<Entry<R>>, e: Entry<R>, i: nat)
    ensures e.node == i ==> At(a + [e], i) == At(a, i) + [e.record]
    ensures e.node != i ==> At(a + [e], i) == At(a, i)
  {
    assert (a + [e])[..|a|] == a;
  }

  lemma AtPop<R>(a: seq<Entry<R>>, i: nat)
    requires |a| > 0
    ensures At(a, i) == (if a[0].node == i then [a[0].record] else []) + At(a[1..], i)
  {
    AtConcat([a[0]], a[1..], i);
    AtSnoc([], a[0], i);
    assert [] + [a[0]] == [a[0]] && [a[0]] + a[1..] == a;
  }

  lemma {:induction false} AtTagged<O>(i: nat, outputs: seq<O>, c: nat)
    ensures At(Tagged(i, outputs), c) == if c == i then outputs else []
    decreases |outputs|
  {
    if outputs != [] {
      AtTagged(i, outputs[..|outputs| - 1], c);
      assert Tagged(i, outputs)[..|outputs| - 1] == Tagged(i, outputs[..|outputs| - 1]);
    }
  }

  /** No child is listed twice. */
  ghost predicate Once(children: seq<nat>) {
    forall j, k :: 0 <= j < k < |children| ==> children[j] != children[k]
  }

  /** A child listed once receives each forward once. */
  lemma {:induction false} AtToEach<R>(children: seq<nat>, record: R, c: nat)
    requires Once(children)
    ensures At(ToEach(children, record), c) == if c in children then [record] else []
    decreases |children|
  {
    if children != [] {
      var init := children[..|children| - 1];
      AtToEach(init, record, c);
      assert ToEach(children, record)[..|init|] == ToEach(init, record);
      assert c in children <==> c in init || c == children[|init|];
    }
  }

  lemma {:induction false} AtFanOut<R>(children: seq<nat>, forwards: seq<R>, c: nat)
    requires Once(children)
    ensures At(FanOut(children, forwards), c) == if c in children then forwards else []
    decreases |forwards|
  {
    if forwards != [] {
      var init, last := forwards[..|forwards| - 1], forwards[|forwards| - 1];
      AtFanOut(children, init, c);
      AtFanOutLast(children, init, last, c);
      InitAndLast(forwards);
    }
  }

  lemma InitAndLast<R>(s: seq<R>)
    requires s != []
    ensures s == s[..|s| - 1] + [s[|s| - 1]]
  {
  }

  lemma AtFanOutLast<R>(children: seq<nat>, init: seq<R>, last: R, c: nat)
    requires Once(children) && At(FanOut(children, init), c) == if c in children then init else []
    ensures At(FanOut(children, init) + ToEach(children, last), c) == if c in children then init + [last] else []
  {
    AtToEach(children, last, c);
    AtConcat(FanOut(children, init), ToEach(children, last), c);
  }

  // ---- what processing does to states and outputs ----

  datatype Run<S, R, O> = Run(world: seq<S>, log: seq<Entry<R>>, output: seq<Entry<O>>)

  /** One `process` call, without the buffer. */
  function Touch<S, R, O>(nodes: Nodes<S, R, O>, run: Run<S, R, O>, e: Entry<R>): Run<S, R, O>
    requires e.node < |run.world|
  {
    var l := nodes(e.node, run.world[e.node], e.record);
    Run(run.world[e.node := l.state], run.log + [e], run.output + Tagged(e.node, l.outputs))
  }

  ghost predicate Follows<S, R, O>(nodes: Nodes<S, R, O>, w0: seq<S>, out0: seq<Entry<O>>, run: Run<S, R, O>, c: nat)
    requires c < |w0| == |run.world|
  {
    var f := Fold(nodes, c, w0[c], At(run.log, c));
    run.world[c] == f.state && At(run.output, c) == At(out0, c) + f.outputs
  }

  /** Every node's state and outputs are those of its history. */
  ghost predicate Faithful<S, R, O>(nodes: Nodes<S, R, O>, w0: seq<S>, out0: seq<Entry<O>>, run: Run<S, R, O>) {
    && |run.world| == |w0|
    && forall c :: 0 <= c < |w0| ==> Follows(nodes, w0, out0, run, c)
  }

  lemma FoldSnoc<S, R, O>(nodes: Nodes<S, R, O>, i: nat, s: S, history: seq<R>, r: R)
    ensures var p := Fold(nodes, i, s, history);
            var l := nodes(i, p.state, r);
            Fold(nodes, i, s, history + [r]) == Local(l.state, p.forwards + l.forwards, p.outputs + l.outputs)
  {
    assert (history + [r])[..|history|] == history;
  }

  lemma TouchFollows<S, R, O>(nodes: Nodes<S, R, O>, w0: seq<S>, out0: seq<Entry<O>>, run: Run<S, R, O>, e: Entry<R>,
      c: nat)
    requires e.node < |w0| == |run.world| && c < |w0|
    requires Follows(nodes, w0, out0, run, c)
    ensures Follows(nodes, w0, out0, Touch(nodes, run, e), c)
  {
    var l := nodes(e.node, run.world[e.node], e.record);
    AtSnoc(run.log, e, c);
    AtConcat(run.output, Tagged(e.node, l.outputs), c);
    AtTagged(e.node, l.outputs, c);
    if c != e.node {
      assert At(run.output, c) + [] == At(run.output, c);
    } else {
      var p := Fold(nodes, c, w0[c], At(run.log, c));
      FoldSnoc(nodes, c, w0[c], At(run.log, c), e.record);
      Regroup(At(out0, c), p.outputs, l.outputs);
    }
  }

  lemma TouchFaithful<S, R, O>(nodes: Nodes<S, R, O>, w0: seq<S>, out0: seq<Entry<O>>, run: Run<S, R, O>, e: Entry<R>)
    requires Faithful(nodes, w0, out0, run) && e.node < |w0|
    ensures Faithful(nodes, w0, out0, Touch(nodes, run, e))
  {
    forall c | 0 <= c < |w0|
      ensures Follows(nodes, w0, out0, Touch(nodes, run, e), c)
    {
      TouchFollows(nodes, w0, out0, run, e, c);
    }
  }

  /** Processing `e` adds its forwards to what its node has sent, and nothing to the others. */
  lemma SentSnoc<S, R, O>(nodes: Nodes<S, R, O>, w0: seq<S>, out0: seq<Entry<O>>, parent: seq<int>,
                          run: Run<S, R, O>, e: Entry<R>, c: nat)
    requires e.node < |w0| && c < |parent| == |w0| && Faithful(nodes, w0, out0, run)
    ensures Sent(nodes, w0, parent, run.log + [e], c)
         == Sent(nodes, w0, parent, run.log, c)
            + if parent[c] == e.node then nodes(e.node, run.world[e.node], e.record).forwards else []
  {
    if 0 <= parent[c] < |w0| {
      var p := parent[c];
      AtSnoc(run.log, e, p);
      if p == e.node {
        assert Follows(nodes, w0, out0, run, p);
        FoldSnoc(nodes, p, w0[p], At(run.log, p), e.record);
      }
    }
  }

  // ---- balance: what a node received is what its parent forwarded ----

  ghost function Sent<S, R, O>(nodes: Nodes<S, R, O>, w0: seq<S>, parent: seq<int>, log: seq<Entry<R>>, c: nat): seq<R>
    requires c < |parent| == |w0|
  {
    if 0 <= parent[c] < |w0| then Fold(nodes, parent[c], w0[parent[c]], At(log, parent[c])).forwards else []
  }

  ghost predicate BalancedAt<S, R, O>(nodes: Nodes<S, R, O>, w0: seq<S>, parent: seq<int>, seeds: seq<Entry<R>>,
                                      log: seq<Entry<R>>, pending: seq<Entry<R>>, c: nat)
    requires c < |parent| == |w0|
  {
    At(log, c) + At(pending, c) == At(seeds, c) + Sent(nodes, w0, parent, log, c)
  }

  /** Received plus pending equals seeded plus forwarded by the parent. */
  ghost predicate Balanced<S, R, O>(nodes: Nodes<S, R, O>, w0: seq<S>, parent: seq<int>, seeds: seq<Entry<R>>,
                                    log: seq<Entry<R>>, pending: seq<Entry<R>>)
    requires |parent| == |w0|
  {
    forall c :: 0 <= c < |w0| ==> BalancedAt(nodes, w0, parent, seeds, log, pending, c)
  }

  ghost predicate FifoInvariant<S, R, O>(nodes: Nodes<S, R, O>, parent: seq<int>, start: Config<seq<S>, R, Entry<O>>,
                                         c: Config<seq<S>, R, Entry<O>>)
    requires |parent| == |start.world|
  {
    && !c.failed
    && (forall k :: 0 <= k < |c.buffer| ==> c.buffer[k].node < |parent|)
    && Faithful(nodes, start.world, start.output, Run(c.world, c.log, c.output))
    && Balanced(nodes, start.world, parent, start.buffer, c.log, c.buffer)
  }

  /** Moving `moved` from pending to received while the parent sends `added` keeps the balance. */
  lemma Transfer<R>(received: seq<R>, moved: seq<R>, pending: seq<R>, added: seq<R>, seeded: seq<R>, sent: seq<R>)
    requires received + (moved + pending) == seeded + sent
    ensures (received + moved) + (pending + added) == seeded + (sent + added)
  {
    assert (received + moved) + (pending + added) == (received + (moved + pending)) + added;
    assert seeded + (sent + added) == (seeded + sent) + added;
  }

  lemma StepBalanced<S, R, O>(nodes: Nodes<S, R, O>, children: Wiring, rank: seq<nat>, parent: seq<int>,
                              w0: seq<S>, out0: seq<Entry<O>>, seeds: seq<Entry<R>>,
                              run: Run<S, R, O>, buffer: seq<Entry<R>>, c: nat)
    requires Forest(children, rank, parent) && c < |w0| == |children|
    requires |buffer| > 0 && buffer[0].node < |w0|
    requires Faithful(nodes, w0, out0, run) && BalancedAt(nodes, w0, parent, seeds, run.log, buffer, c)
    ensures var l := nodes(buffer[0].node, run.world[buffer[0].node], buffer[0].record);
            BalancedAt(nodes, w0, parent, seeds, run.log + [buffer[0]],
                       buffer[1..] + FanOut(Kids(children, buffer[0].node), l.forwards), c)
  {
    var e := buffer[0];
    var l := nodes(e.node, run.world[e.node], e.record);
    var added := FanOut(Kids(children, e.node), l.forwards);
    AtSnoc(run.log, e, c);
    AtPop(buffer, c);
    AtConcat(buffer[1..], added, c);
    AtFanOut(Kids(children, e.node), l.forwards, c);
    SentSnoc(nodes, w0, out0, parent, run, e, c);
    assert c in Kids(children, e.node) <==> parent[c] == e.node;
    var moved := if e.node == c then [e.record] else [];
    assert At(run.log + [e], c) == At(run.log, c) + moved;
    Transfer(At(run.log, c), moved, At(buffer[1..], c), At(added, c), At(seeds, c),
      Sent(nodes, w0, parent, run.log, c));
  }

  /** Every turn of the drain keeps the balance and the states. */
  lemma StepKeepsFifo<S, R, O>(nodes: Nodes<S, R, O>, children: Wiring, rank: seq<nat>, parent: seq<int>,
                               start: Config<seq<S>, R, Entry<O>>, c: Config<seq<S>, R, Entry<O>>)
    requires Forest(children, rank, parent) && |start.world| == |children|
    requires FifoInvariant(nodes, parent, start, c)
    ensures FifoInvariant(nodes, parent, start, Step(Process(nodes), children, c))
  {
    if |c.buffer| > 0 {
      var run := Run(c.world, c.log, c.output);
      var e := c.buffer[0];
      var next := Step(Process(nodes), children, c);
      TouchFaithful(nodes, start.world, start.output, run, e);
      assert Touch(nodes, run, e) == Run(next.world, next.log, next.output);
      forall i | 0 <= i < |start.world|
        ensures BalancedAt(nodes, start.world, parent, start.buffer, next.log, next.buffer, i)
      {
        StepBalanced(nodes, children, rank, parent, start.world, start.output, start.buffer, run, c.buffer, i);
      }
      var added := next.buffer[|c.buffer| - 1..];
      forall k | 0 <= k < |next.buffer|
        ensures next.buffer[k].node < |parent|
      {
        if k >= |c.buffer| - 1 {
          assert next.buffer[k] == added[k - (|c.buffer| - 1)];
          assert next.buffer[k].node in Kids(children, e.node);
        }
      }
    }
  }

  lemma {:induction false} IterKeepsFifo<S, R, O>(nodes: Nodes<S, R, O>, children: Wiring, rank: seq<nat>,
      parent: seq<int>, world: seq<S>, seeds: seq<Entry<R>>, output: seq<Entry<O>>, n: nat)
    requires Forest(children, rank, parent) && |world| == |children| && Routed(children, seeds)
    ensures var start := Start(world, seeds, output);
            FifoInvariant(nodes, parent, start, Iter(Process(nodes), children, start, n))
    decreases n
  {
    var start: Config<seq<S>, R, Entry<O>> := Start(world, seeds, output);
    if n == 0 {
      forall c | 0 <= c < |world|
        ensures BalancedAt(nodes, world, parent, seeds, [], seeds, c)
        ensures Follows(nodes, world, output, Run(world, [], output), c)
      {
        assert [] + At(seeds, c) == At(seeds, c) + [];
        assert At(output, c) + [] == At(output, c);
      }
    } else {
      IterKeepsFifo(nodes, children, rank, parent, world, seeds, output, n - 1);
      StepKeepsFifo(nodes, children, rank, parent, start, Iter(Process(nodes), children, start, n - 1));
    }
  }
}
