/** Order along the edges of any graph, nodes with several parents and cycles included: what a node
    received and has pending from each parent is what that parent forwarded, in order. */
module EdgeOrder {
  import opened Common
  import opened Dispatch
  import opened TreeDataflow

  /** A record with the node that sent it, or -1 for a seed. */
  datatype Parcel<R> = Parcel(from: int, record: R)

  function Stamp<R>(i: int, records: seq<R>): (r: seq<Parcel<R>>)
    ensures |r| == |records| && forall k :: 0 <= k < |r| ==> r[k] == Parcel(i, records[k])
  {
    seq(|records|, k requires 0 <= k < |records| => Parcel(i, records[k]))
  }

  /** The same nodes, which ignore the sender and put their own number on what they forward. */
  function Stamping<S, R, O>(nodes: Nodes<S, R, O>): Nodes<S, Parcel<R>, O> {
    (i: nat, s: S, p: Parcel<R>) =>
      var l := nodes(i, s, p.record);
      Local(l.state, Stamp(i, l.forwards), l.outputs)
  }

  function Outside<R>(seeds: seq<Entry<R>>): (r: seq<Entry<Parcel<R>>>)
    ensures |r| == |seeds| && forall k :: 0 <= k < |r| ==> r[k] == Entry(seeds[k].node, Parcel(-1, seeds[k].record))
  {
    seq(|seeds|, k requires 0 <= k < |seeds| => Entry(seeds[k].node, Parcel(-1, seeds[k].record)))
  }

  // ---- the stamps change nothing ----

  function Bare<R>(entries: seq<Entry<Parcel<R>>>): (r: seq<Entry<R>>)
    ensures |r| == |entries| && forall k :: 0 <= k < |r| ==> r[k] == Entry(entries[k].node, entries[k].record.record)
  {
    seq(|entries|, k requires 0 <= k < |entries| => Entry(entries[k].node, entries[k].record.record))
  }

  function Erased<W, R, O>(c: Config<W, Parcel<R>, O>): Config<W, R, O> {
    Config(c.world, Bare(c.buffer), c.output, Bare(c.log), c.failed)
  }

  lemma BareConcat<R>(a: seq<Entry<Parcel<R>>>, b: seq<Entry<Parcel<R>>>)
    ensures Bare(a + b) == Bare(a) + Bare(b)
  {
  }

  lemma {:induction false} BareFanOut<R>(kids: seq<nat>, i: int, forwards: seq<R>)
    ensures Bare(FanOut(kids, Stamp(i, forwards))) == FanOut(kids, forwards)
    decreases |forwards|
  {
    if forwards != [] {
      var init, last := forwards[..|forwards| - 1], forwards[|forwards| - 1];
      BareFanOut(kids, i, init);
      var stamped := Stamp(i, forwards);
      assert stamped[..|stamped| - 1] == Stamp(i, init);
      BareConcat(FanOut(kids, Stamp(i, init)), ToEach(kids, Parcel(i, last)));
      assert Bare(ToEach(kids, Parcel(i, last))) == ToEach(kids, last);
    }
  }

  lemma StepErased<S, R, O>(nodes: Nodes<S, R, O>, children: Wiring, c: Config<seq<S>, Parcel<R>, Entry<O>>)
    ensures Erased(Step(Process(Stamping(nodes)), children, c)) == Step(Process(nodes), children, Erased(c))
  {
    if !Halted(c) {
      var e := c.buffer[0];
      assert Bare(c.buffer)[0] == Entry(e.node, e.record.record);
      assert Bare(c.buffer[1..]) == Bare(c.buffer)[1..];
      BareConcat(c.log, [e]);
      assert Bare([e]) == [Entry(e.node, e.record.record)];
      if e.node < |c.world| {
        var l := nodes(e.node, c.world[e.node], e.record.record);
        BareFanOut(Kids(children, e.node), e.node, l.forwards);
        BareConcat(c.buffer[1..], FanOut(Kids(children, e.node), Stamp(e.node, l.forwards)));
      }
    }
  }

  lemma {:induction false} IterErased<S, R, O>(nodes: Nodes<S, R, O>, children: Wiring,
      c: Config<seq<S>, Parcel<R>, Entry<O>>, n: nat)
    ensures Erased(Iter(Process(Stamping(nodes)), children, c, n)) == Iter(Process(nodes), children, Erased(c), n)
    decreases n
  {
    if n > 0 {
      IterErased(nodes, children, c, n - 1);
      StepErased(nodes, children, Iter(Process(Stamping(nodes)), children, c, n - 1));
    }
  }

  // ---- what came along an edge ----

  /** The records from `p`, in order. */
  function Along<R>(parcels: seq<Parcel<R>>, p: int): seq<R> {
    if parcels == [] then []
    else
      var last := parcels[|parcels| - 1];
      Along(parcels[..|parcels| - 1], p) + if last.from == p then [last.record] else []
  }

  function Plain<R>(parcels: seq<Parcel<R>>): (r: seq<R>)
    ensures |r| == |parcels| && forall k :: 0 <= k < |r| ==> r[k] == parcels[k].record
  {
    seq(|parcels|, k requires 0 <= k < |parcels| => parcels[k].record)
  }

  lemma {:induction false} AlongConcat<R>(a: seq<Parcel<R>>, b: seq<Parcel<R>>, p: int)
    ensures Along(a + b, p) == Along(a, p) + Along(b, p)
    decreases |b|
  {
    if b == [] {
      assert a + b == a;
    } else {
      AlongConcat(a, b[..|b| - 1], p);
      assert (a + b)[..|a + b| - 1] == a + b[..|b| - 1];
    }
  }

  lemma {:induction false} AlongStamp<R>(i: int, records: seq<R>, p: int)
    ensures Along(Stamp(i, records), p) == if p == i then records else []
    decreases |records|
  {
    if records != [] {
      AlongStamp(i, records[..|records| - 1], p);
      assert Stamp(i, records)[..|records| - 1] == Stamp(i, records[..|records| - 1]);
    }
  }

  /** How often a child is listed. */
  function Copies(kids: seq<nat>, c: nat): nat {
    if kids == [] then 0 else Copies(kids[..|kids| - 1], c) + if kids[|kids| - 1] == c then 1 else 0
  }

  function Same<R>(m: nat, record: R): seq<R> {
    if m == 0 then [] else Same(m - 1, record) + [record]
  }

  /** Each record `m` times in a row. */
  function Stutter<R>(records: seq<R>, m: nat): seq<R> {
    if records == [] then [] else Stutter(records[..|records| - 1], m) + Same(m, records[|records| - 1])
  }

  lemma {:induction false} StutterConcat<R>(a: seq<R>, b: seq<R>, m: nat)
    ensures Stutter(a + b, m) == Stutter(a, m) + Stutter(b, m)
    decreases |b|
  {
    if b == [] {
      assert a + b == a;
    } else {
      StutterConcat(a, b[..|b| - 1], m);
      assert (a + b)[..|a + b| - 1] == a + b[..|b| - 1];
      Regroup(Stutter(a, m), Stutter(b[..|b| - 1], m), Same(m, b[|b| - 1]));
    }
  }

  /** A child listed once receives each record once. */
  lemma {:induction false} StutterOnce<R>(records: seq<R>)
    ensures Stutter(records, 1) == records
    decreases |records|
  {
    if records != [] {
      StutterOnce(records[..|records| - 1]);
      assert Same(1, records[|records| - 1]) == [] + [records[|records| - 1]];
    }
  }

  lemma {:induction false} AtEach<R>(kids: seq<nat>, record: R, c: nat)
    ensures At(ToEach(kids, record), c) == Same(Copies(kids, c), record)
    decreases |kids|
  {
    if kids != [] {
      AtEach(kids[..|kids| - 1], record, c);
      assert ToEach(kids, record)[..|kids| - 1] == ToEach(kids[..|kids| - 1], record);
    }
  }

  lemma {:induction false} AtFans<R>(kids: seq<nat>, forwards: seq<R>, c: nat)
    ensures At(FanOut(kids, forwards), c) == Stutter(forwards, Copies(kids, c))
    decreases |forwards|
  {
    if forwards != [] {
      AtFans(kids, forwards[..|forwards| - 1], c);
      AtEach(kids, forwards[|forwards| - 1], c);
      AtConcat(FanOut(kids, forwards[..|forwards| - 1]), ToEach(kids, forwards[|forwards| - 1]), c);
    }
  }

  lemma {:induction false} AlongSame<R>(m: nat, q: Parcel<R>, p: int)
    ensures Along(Same(m, q), p) == if q.from == p then Same(m, q.record) else []
    decreases m
  {
    if m > 0 {
      AlongSame(m - 1, q, p);
      AlongConcat(Same(m - 1, q), [q], p);
      assert [q][..0] == [];
    }
  }

  lemma {:induction false} AlongStutter<R>(i: int, records: seq<R>, m: nat, p: int)
    ensures Along(Stutter(Stamp(i, records), m), p) == if p == i then Stutter(records, m) else []
    decreases |records|
  {
    if records != [] {
      var init, last := records[..|records| - 1], records[|records| - 1];
      AlongStutter(i, init, m, p);
      assert Stamp(i, records)[..|records| - 1] == Stamp(i, init);
      AlongConcat(Stutter(Stamp(i, init), m), Same(m, Parcel(i, last)), p);
      AlongSame(m, Parcel(i, last), p);
    }
  }

  lemma AlongFans<R>(kids: seq<nat>, i: int, records: seq<R>, c: nat, p: int)
    ensures Along(At(FanOut(kids, Stamp(i, records)), c), p) == if p == i then Stutter(records, Copies(kids, c)) else []
  {
    AtFans(kids, Stamp(i, records), c);
    AlongStutter(i, records, Copies(kids, c), p);
  }

  lemma {:induction false} FoldStamped<S, R, O>(nodes: Nodes<S, R, O>, i: nat, s: S, h: seq<Parcel<R>>)
    ensures var f := Fold(nodes, i, s, Plain(h));
            Fold(Stamping(nodes), i, s, h) == Local(f.state, Stamp(i, f.forwards), f.outputs)
    decreases |h|
  {
    if h == [] {
      assert Plain(h) == [] && Stamp<R>(i, []) == [];
    } else {
      var init, last := h[..|h| - 1], h[|h| - 1];
      FoldStamped(nodes, i, s, init);
      assert Plain(h)[..|h| - 1] == Plain(init);
      var f := Fold(nodes, i, s, Plain(init));
      var l := nodes(i, f.state, last.record);
      assert Stamp(i, f.forwards) + Stamp(i, l.forwards) == Stamp(i, f.forwards + l.forwards);
    }
  }

  // ---- the balance of every edge ----

  /** What `p` has forwarded, given all it received. */
  ghost function Forwarded<S, R, O>(nodes: Nodes<S, R, O>, w0: seq<S>, log: seq<Entry<Parcel<R>>>, p: int): seq<R> {
    if 0 <= p < |w0| then Fold(nodes, p, w0[p], Plain(At(log, p))).forwards else []
  }

  ghost function Owed<S, R, O>(nodes: Nodes<S, R, O>, children: Wiring, w0: seq<S>, log: seq<Entry<Parcel<R>>>, p: int,
      c: nat):
    seq<R>
  {
    if p < 0 then [] else Stutter(Forwarded(nodes, w0, log, p), Copies(Kids(children, p), c))
  }

  ghost predicate EdgeBalanced<S, R, O>(nodes: Nodes<S, R, O>, children: Wiring, w0: seq<S>,
      seeds: seq<Entry<Parcel<R>>>, log: seq<Entry<Parcel<R>>>, pending: seq<Entry<Parcel<R>>>, p: int, c: nat)
  {
    Along(At(log, c), p) + Along(At(pending, c), p) == Along(At(seeds, c), p) + Owed(nodes, children, w0, log, p, c)
  }

  lemma OwedSnoc<S, R, O>(nodes: Nodes<S, R, O>, children: Wiring, w0: seq<S>, out0: seq<Entry<O>>,
                          run: Run<S, Parcel<R>, O>, e: Entry<Parcel<R>>, p: int, c: nat)
    requires e.node < |w0| && Faithful(Stamping(nodes), w0, out0, run)
    ensures Owed(nodes, children, w0, run.log + [e], p, c)
         == Owed(nodes, children, w0, run.log, p, c)
            + if p == e.node then
                Stutter(nodes(e.node, run.world[e.node], e.record.record).forwards, Copies(Kids(children, e.node), c))
              else []
  {
    if p >= 0 {
      AtSnoc(run.log, e, p);
      if p == e.node {
        var h := At(run.log, p);
        assert Follows(Stamping(nodes), w0, out0, run, p);
        FoldStamped(nodes, p, w0[p], h);
        assert Plain(h + [e.record]) == Plain(h) + [e.record.record];
        FoldSnoc(nodes, p, w0[p], Plain(h), e.record.record);
        StutterConcat(Fold(nodes, p, w0[p], Plain(h)).forwards, nodes(p, run.world[p], e.record.record).forwards,
                      Copies(Kids(children, p), c));
      }
    }
  }

  lemma AlongMoved<R>(e: Entry<Parcel<R>>, c: nat, p: int) returns (moved: seq<R>)
    ensures forall a: seq<Entry<Parcel<R>>> :: Along(At(a + [e], c), p) == Along(At(a, c), p) + moved
    ensures forall b: seq<Entry<Parcel<R>>> :: |b| > 0 && b[0] == e ==>
      Along(At(b, c), p) == moved + Along(At(b[1..], c), p)
  {
    var here := if e.node == c then [e.record] else [];
    moved := Along(here, p);
    forall a: seq<Entry<Parcel<R>>>
      ensures Along(At(a + [e], c), p) == Along(At(a, c), p) + moved
    {
      AtSnoc(a, e, c);
      assert At(a + [e], c) == At(a, c) + here;
      AlongConcat(At(a, c), here, p);
    }
    forall b: seq<Entry<Parcel<R>>> | |b| > 0 && b[0] == e
      ensures Along(At(b, c), p) == moved + Along(At(b[1..], c), p)
    {
      AtPop(b, c);
      AlongConcat(here, At(b[1..], c), p);
    }
  }

  lemma StepEdge<S, R, O>(nodes: Nodes<S, R, O>, children: Wiring, w0: seq<S>, out0: seq<Entry<O>>,
      seeds: seq<Entry<Parcel<R>>>, run: Run<S, Parcel<R>, O>, buffer: seq<Entry<Parcel<R>>>, p: int, c: nat)
    requires |buffer| > 0 && buffer[0].node < |w0| && Faithful(Stamping(nodes), w0, out0, run)
    requires EdgeBalanced(nodes, children, w0, seeds, run.log, buffer, p, c)
    ensures var e := buffer[0];
            var l := nodes(e.node, run.world[e.node], e.record.record);
            EdgeBalanced(nodes, children, w0, seeds, run.log + [e],
                         buffer[1..] + FanOut(Kids(children, e.node), Stamp(e.node, l.forwards)), p, c)
  {
    var e := buffer[0];
    var l := nodes(e.node, run.world[e.node], e.record.record);
    var added := FanOut(Kids(children, e.node), Stamp(e.node, l.forwards));
    var moved := AlongMoved(e, c, p);
    AtConcat(buffer[1..], added, c);
    AlongConcat(At(buffer[1..], c), At(added, c), p);
    AlongFans(Kids(children, e.node), e.node, l.forwards, c, p);
    OwedSnoc(nodes, children, w0, out0, run, e, p, c);
    Transfer(Along(At(run.log, c), p), moved, Along(At(buffer[1..], c), p), Along(At(added, c), p),
             Along(At(seeds, c), p), Owed(nodes, children, w0, run.log, p, c));
  }

  /** Children are nodes of the graph. */
  ghost predicate Closed(children: Wiring) {
    forall i: nat, c: nat {:trigger c in Kids(children, i)} :: c in Kids(children, i) ==> c < |children|
  }

  ghost predicate EdgeInvariant<S, R, O>(nodes: Nodes<S, R, O>, children: Wiring,
      start: Config<seq<S>, Parcel<R>, Entry<O>>, c: Config<seq<S>, Parcel<R>, Entry<O>>)
  {
    && !c.failed && Routed(children, c.buffer)
    && Faithful(Stamping(nodes), start.world, start.output, Run(c.world, c.log, c.output))
    && forall p: int, i: nat :: EdgeBalanced(nodes, children, start.world, start.buffer, c.log, c.buffer, p, i)
  }

  lemma FansRouted<R>(children: Wiring, buffer: seq<Entry<R>>, i: nat, forwards: seq<R>)
    requires Closed(children) && Routed(children, buffer)
    ensures Routed(children, buffer + FanOut(Kids(children, i), forwards))
  {
    var added := FanOut(Kids(children, i), forwards);
    forall k | 0 <= k < |buffer + added|
      ensures (buffer + added)[k].node < |children|
    {
      if k >= |buffer| {
        assert added[k - |buffer|].node in Kids(children, i);
      }
    }
  }

  lemma StepKeepsEdges<S, R, O>(nodes: Nodes<S, R, O>, children: Wiring, start: Config<seq<S>, Parcel<R>, Entry<O>>,
                                c: Config<seq<S>, Parcel<R>, Entry<O>>)
    requires Closed(children) && |start.world| == |children| && EdgeInvariant(nodes, children, start, c)
    ensures EdgeInvariant(nodes, children, start, Step(Process(Stamping(nodes)), children, c))
  {
    if |c.buffer| > 0 {
      var run, e := Run(c.world, c.log, c.output), c.buffer[0];
      var next := Step(Process(Stamping(nodes)), children, c);
      TouchFaithful(Stamping(nodes), start.world, start.output, run, e);
      assert Touch(Stamping(nodes), run, e) == Run(next.world, next.log, next.output);
      FansRouted(children, c.buffer[1..], e.node, Stamping(nodes)(e.node, c.world[e.node], e.record).forwards);
      forall p: int, i: nat
        ensures EdgeBalanced(nodes, children, start.world, start.buffer, next.log, next.buffer, p, i)
      {
        StepEdge(nodes, children, start.world, start.output, start.buffer, run, c.buffer, p, i);
      }
    }
  }

  lemma StartIsBalanced<S, R, O>(nodes: Nodes<S, R, O>, children: Wiring, world: seq<S>, seeds: seq<Entry<Parcel<R>>>,
                                 output: seq<Entry<O>>)
    requires Routed(children, seeds)
    ensures var start := Start(world, seeds, output); EdgeInvariant(nodes, children, start, start)
  {
    forall c | 0 <= c < |world|
      ensures Follows(Stamping(nodes), world, output, Run(world, [], output), c)
    {
      assert At(output, c) + [] == At(output, c);
    }
    forall p: int, i: nat
      ensures EdgeBalanced(nodes, children, world, seeds, [], seeds, p, i)
    {
      assert [] + Along(At(seeds, i), p) == Along(At(seeds, i), p) + [];
      assert Plain<R>([]) == [];
    }
  }

  lemma {:induction false} IterKeepsEdges<S, R, O>(nodes: Nodes<S, R, O>, children: Wiring, world: seq<S>,
                                                   seeds: seq<Entry<Parcel<R>>>, output: seq<Entry<O>>, n: nat)
    requires Closed(children) && |world| == |children| && Routed(children, seeds)
    ensures var start := Start(world, seeds, output);
            EdgeInvariant(nodes, children, start, Iter(Process(Stamping(nodes)), children, start, n))
    decreases n
  {
    if n == 0 {
      StartIsBalanced(nodes, children, world, seeds, output);
    } else {
      IterKeepsEdges(nodes, children, world, seeds, output, n - 1);
      var start: Config<seq<S>, Parcel<R>, Entry<O>> := Start(world, seeds, output);
      StepKeepsEdges(nodes, children, start, Iter(Process(Stamping(nodes)), children, start, n - 1));
    }
  }

  lemma AlongOne<R>(q: Parcel<R>, p: int)
    ensures Along([q], p) == if q.from == p then [q.record] else []
  {
    assert [q][..0] == [];
  }

  lemma {:induction false} AlongOutside<R>(seeds: seq<Entry<R>>, c: nat, p: int)
    ensures Along(At(Outside(seeds), c), p) == if p == -1 then At(seeds, c) else []
    decreases |seeds|
  {
    if seeds != [] {
      var init, last := seeds[..|seeds| - 1], seeds[|seeds| - 1];
      var parcel := Parcel(-1, last.record);
      AlongOutside(init, c, p);
      assert Outside(seeds) == Outside(init) + [Entry(last.node, parcel)];
      AtSnoc(Outside(init), Entry(last.node, parcel), c);
      AlongConcat(At(Outside(init), c), [parcel], p);
      AlongOne(parcel, p);
    }
  }

  /** A node's seeds come to it in order, and so does along each edge what the parent forwarded over
      its own history. */
  ghost predicate InSequence<S, R, O>(nodes: Nodes<S, R, O>, children: Wiring, world: seq<S>, seeds: seq<Entry<R>>,
                                      log: seq<Entry<Parcel<R>>>, pending: seq<Entry<Parcel<R>>>, p: int, c: nat)
  {
    Along(At(log, c), p) + Along(At(pending, c), p)
    == if p == -1 then At(seeds, c) else Owed(nodes, children, world, log, p, c)
  }

  lemma BalancedIsInSequence<S, R, O>(nodes: Nodes<S, R, O>, children: Wiring, world: seq<S>, seeds: seq<Entry<R>>,
                                      log: seq<Entry<Parcel<R>>>, pending: seq<Entry<Parcel<R>>>, p: int, c: nat)
    requires EdgeBalanced(nodes, children, world, Outside(seeds), log, pending, p, c)
    ensures InSequence(nodes, children, world, seeds, log, pending, p, c)
  {
    AlongOutside(seeds, c, p);
  }

  lemma StampedRun<S, R, O>(nodes: Nodes<S, R, O>, children: Wiring, world: seq<S>, seeds: seq<Entry<R>>,
                            output: seq<Entry<O>>, n: nat)
    ensures Erased(Iter(Process(Stamping(nodes)), children, Start(world, Outside(seeds), output), n))
         == Iter(Process(nodes), children, Start(world, seeds, output), n)
  {
    var start: Config<seq<S>, Parcel<R>, Entry<O>> := Start(world, Outside(seeds), output);
    assert Bare(Outside(seeds)) == seeds;
    assert Erased(start) == Start(world, seeds, output);
    IterErased(nodes, children, start, n);
  }

  /** After every turn, on every graph: the run is one whose records carry their senders, and every
      edge is in sequence. */
  lemma EdgesKeepOrder<S, R, O>(nodes: Nodes<S, R, O>, children: Wiring, world: seq<S>, seeds: seq<Entry<R>>,
                                output: seq<Entry<O>>, n: nat)
    returns (d: Config<seq<S>, Parcel<R>, Entry<O>>)
    requires Closed(children) && |world| == |children| && Routed(children, seeds)
    ensures Erased(d) == Iter(Process(nodes), children, Start(world, seeds, output), n) && !d.failed
    ensures forall p: int, c: nat :: InSequence(nodes, children, world, seeds, d.log, d.buffer, p, c)
  {
    d := Iter(Process(Stamping(nodes)), children, Start(world, Outside(seeds), output), n);
    StampedRun(nodes, children, world, seeds, output, n);
    IterKeepsEdges(nodes, children, world, Outside(seeds), output, n);
    AllInSequence(nodes, children, world, seeds, output, d);
  }

  lemma AllInSequence<S, R, O>(nodes: Nodes<S, R, O>, children: Wiring, world: seq<S>, seeds: seq<Entry<R>>,
                               output: seq<Entry<O>>, d: Config<seq<S>, Parcel<R>, Entry<O>>)
    requires EdgeInvariant(nodes, children, Start(world, Outside(seeds), output), d)
    ensures forall p: int, c: nat :: InSequence(nodes, children, world, seeds, d.log, d.buffer, p, c)
  {
    forall p: int, c: nat
      ensures InSequence(nodes, children, world, seeds, d.log, d.buffer, p, c)
    {
      assert EdgeBalanced(nodes, children, world, Outside(seeds), d.log, d.buffer, p, c);
      BalancedIsInSequence(nodes, children, world, seeds, d.log, d.buffer, p, c);
    }
  }

  /** On every acyclic graph the drain ends with every node having received its seeds and, from each
      parent, all that the parent forwarded, in the parent's order. */
  lemma EdgesDeliver<S, R, O>(nodes: Nodes<S, R, O>, children: Wiring, rank: seq<nat>, world: seq<S>,
      seeds: seq<Entry<R>>, output: seq<Entry<O>>)
    returns (n: nat, d: Config<seq<S>, Parcel<R>, Entry<O>>)
    requires Ranked(children, rank) && |world| == |children| && Routed(children, seeds)
    ensures Erased(d) == Iter(Process(nodes), children, Start(world, seeds, output), n)
    ensures !d.failed && d.buffer == []
    ensures forall p: int, c: nat :: InSequence(nodes, children, world, seeds, d.log, [], p, c)
  {
    n := DrainHalts(Process(nodes), children, rank, Start(world, seeds, output));
    d := EdgesKeepOrder(nodes, children, world, seeds, output, n);
    assert |Bare(d.buffer)| == |Erased(d).buffer| == 0;
  }
}
