/** Flushing the record caches of a graph at commit.

    The pass visits the cached stores in ascending order of their owning node and drains after
    each one, so that a downstream store sees the changes an upstream store forwarded.  One pass
    leaves every store clean exactly when no writer of a store can be reached from an owner that
    is flushed with it or after it. */
module CacheFlush {
  import opened Dispatch

  /** The stores, with the deduplicated changes each cached one still holds back. */
  datatype Stores<W, R> = Stores(rest: W, dirty: map<string, seq<R>>)

  /** A store and the node that its forwarded changes are rooted at. */
  datatype Owner = Owner(store: string, node: nat)

  function Held<W, R>(w: Stores<W, R>, store: string): seq<R> {
    if store in w.dirty then w.dirty[store] else []
  }

  /** Writing a store through: nothing is held back any more. */
  function Cleaned<W, R>(w: Stores<W, R>, store: string): Stores<W, R> {
    if store in w.dirty then w.(dirty := w.dirty[store := []]) else w
  }

  /** Node `i` dirties no store outside `writes(i)`, whether its call succeeds or fails. */
  ghost predicate Respects<W(!new), R(!new), O(!new)>(process: Behaviour<Stores<W, R>, R, O>,
      writes: nat -> set<string>)
  {
    forall i: nat, w: Stores<W, R>, r: R, s: string ::
      s !in writes(i) ==> Held(process(i, w, r).world, s) == Held(w, s)
  }

  /** `w` can be reached from `i` along one edge or more. */
  ghost predicate Reaches(children: Wiring, rank: seq<nat>, i: nat, w: nat)
    requires Ranked(children, rank)
    decreases if i < |rank| then rank[i] else 0
  {
    exists c: nat :: c in Kids(children, i) && (c == w || Reaches(children, rank, c, w))
  }

  /** The changes of one store, rooted at its owner, on their way. */
  function FlushStart<W, R, O>(children: Wiring, o: Owner, w: Stores<W, R>,
      output: seq<O>): Config<Stores<W, R>, R, O> {
    Start(Cleaned(w, o.store), FanOut(Kids(children, o.node), Held(w, o.store)), output)
  }

  /** The whole pass: flush, drain, next store; a failed drain ends it. */
  ghost predicate FlushesTo<W(!new), R(!new), O(!new)>(
      process: Behaviour<Stores<W, R>, R, O>, children: Wiring, order: seq<Owner>,
      w: Stores<W, R>, output: seq<O>, w': Stores<W, R>, output': seq<O>, ok: bool)
    decreases |order|
  {
    if order == [] then w' == w && output' == output && ok
    else exists wm: Stores<W, R>, om: seq<O>, okm: bool ::
      && DrainsTo(process, children, FlushStart(children, order[0], w, output), wm, om, okm)
      && if okm then FlushesTo(process, children, order[1..], wm, om, w', output', ok)
         else w' == wm && output' == om && !ok
  }

  // ---- nothing is lost ----

  /** The store gives up what it held, and nothing else changes. */
  ghost predicate GivesUp<W, R>(w: Stores<W, R>, w': Stores<W, R>, store: string) {
    && w'.rest == w.rest && w'.dirty.Keys == w.dirty.Keys && Held(w', store) == []
    && forall s: string :: s != store ==> Held(w', s) == Held(w, s)
  }

  /** One flush: every change that the store held goes to every child of its owner, in order, and the
      drain starts from these. */
  ghost predicate FlushesOne<W(!new), R(!new), O(!new)>(process: Behaviour<Stores<W, R>, R, O>, children: Wiring,
      o: Owner, w: Stores<W, R>, output: seq<O>, wm: Stores<W, R>, om: seq<O>, okm: bool)
  {
    exists start: Stores<W, R>, seeds: seq<Entry<R>> ::
      && GivesUp(w, start, o.store) && Dealt(seeds, Kids(children, o.node), Held(w, o.store))
      && Chronicled(process, children, start, output, seeds, wm, om, okm)
  }

  /** The pass as one such flush after the other. A drain that fails ends it. */
  ghost predicate Conserves<W(!new), R(!new), O(!new)>(process: Behaviour<Stores<W, R>, R, O>, children: Wiring,
      order: seq<Owner>, w: Stores<W, R>, output: seq<O>, w': Stores<W, R>, output': seq<O>, ok: bool)
    decreases |order|
  {
    if order == [] then w' == w && output' == output && ok
    else exists wm: Stores<W, R>, om: seq<O>, okm: bool ::
      && FlushesOne(process, children, order[0], w, output, wm, om, okm)
      && if okm then Conserves(process, children, order[1..], wm, om, w', output', ok)
         else w' == wm && output' == om && !ok
  }

  lemma OneFlush<W(!new), R(!new), O(!new)>(process: Behaviour<Stores<W, R>, R, O>, children: Wiring, o: Owner,
      w: Stores<W, R>, output: seq<O>, wm: Stores<W, R>, om: seq<O>, okm: bool)
    requires DrainsTo(process, children, FlushStart(children, o, w, output), wm, om, okm)
    ensures FlushesOne(process, children, o, w, output, wm, om, okm)
  {
    var start, seeds := Cleaned(w, o.store), FanOut(Kids(children, o.node), Held(w, o.store));
    FanOutDeals(Kids(children, o.node), Held(w, o.store));
    DrainIsChronicled(process, children, start, output, seeds, wm, om, okm);
    assert GivesUp(w, start, o.store);
  }

  /** No pass loses a change. */
  lemma {:induction false} FlushConserves<W(!new), R(!new), O(!new)>(process: Behaviour<Stores<W, R>, R, O>,
      children: Wiring, order: seq<Owner>, w: Stores<W, R>, output: seq<O>, w': Stores<W, R>, output': seq<O>, ok: bool)
    requires FlushesTo(process, children, order, w, output, w', output', ok)
    ensures Conserves(process, children, order, w, output, w', output', ok)
    decreases |order|
  {
    if order != [] {
      var wm: Stores<W, R>, om: seq<O>, okm: bool :|
        && DrainsTo(process, children, FlushStart(children, order[0], w, output), wm, om, okm)
        && if okm then FlushesTo(process, children, order[1..], wm, om, w', output', ok)
           else w' == wm && output' == om && !ok;
      OneFlush(process, children, order[0], w, output, wm, om, okm);
      if okm {
        FlushConserves(process, children, order[1..], wm, om, w', output', ok);
      }
    }
  }

  /** Ascending owning-node order, each store once; ties come in any order. */
  ghost predicate InFlushOrder(order: seq<Owner>) {
    forall j, k :: 0 <= j < k < |order| ==> order[j].node <= order[k].node && order[j].store != order[k].store
  }

  /** No writer of `s` lies downstream of the owner of a store that is flushed with `s` or later. */
  ghost predicate FlushSafe(children: Wiring, rank: seq<nat>, order: seq<Owner>, writes: nat -> set<string>)
    requires Ranked(children, rank)
  {
    forall j, k, n: nat :: 0 <= j < |order| && 0 <= k < |order| && order[j].node <= order[k].node ==>
      order[j].store in writes(n) ==> !Reaches(children, rank, order[k].node, n)
  }

  lemma FirstFlush<W(!new), R(!new), O(!new)>(process: Behaviour<Stores<W, R>, R, O>, children: Wiring,
      order: seq<Owner>, w: Stores<W, R>, output: seq<O>, w': Stores<W, R>, output': seq<O>)
    returns (wm: Stores<W, R>, om: seq<O>)
    requires order != [] && FlushesTo(process, children, order, w, output, w', output', true)
    ensures DrainsTo(process, children, FlushStart(children, order[0], w, output), wm, om, true)
    ensures FlushesTo(process, children, order[1..], wm, om, w', output', true)
  {
    var okm: bool;
    wm, om, okm :|
      && DrainsTo(process, children, FlushStart(children, order[0], w, output), wm, om, okm)
      && if okm then FlushesTo(process, children, order[1..], wm, om, w', output', true)
         else w' == wm && output' == om && !true;
  }

  // ---- sufficient ----

  ghost predicate Downstream<R>(children: Wiring, rank: seq<nat>, from: nat, buffer: seq<Entry<R>>)
    requires Ranked(children, rank)
  {
    forall k :: 0 <= k < |buffer| ==> Reaches(children, rank, from, buffer[k].node)
  }

  lemma {:induction false} ReachesChild(children: Wiring, rank: seq<nat>, i: nat, n: nat, c: nat)
    requires Ranked(children, rank) && Reaches(children, rank, i, n) && c in Kids(children, n)
    ensures Reaches(children, rank, i, c)
    decreases if i < |rank| then rank[i] else 0
  {
    var d: nat :| d in Kids(children, i) && (d == n || Reaches(children, rank, d, n));
    if d == n {
      assert Reaches(children, rank, n, c);
    } else {
      ReachesChild(children, rank, d, n, c);
    }
  }

  lemma FanOutDownstream<R>(children: Wiring, rank: seq<nat>, from: nat, n: nat, forwards: seq<R>)
    requires Ranked(children, rank) && (from == n || Reaches(children, rank, from, n))
    ensures Downstream(children, rank, from, FanOut(Kids(children, n), forwards))
  {
    var added := FanOut(Kids(children, n), forwards);
    forall k | 0 <= k < |added|
      ensures Reaches(children, rank, from, added[k].node)
    {
      if from != n {
        ReachesChild(children, rank, from, n, added[k].node);
      }
    }
  }

  /** One turn below `from` leaves alone every store that nothing below `from` writes. */
  lemma StepKeepsStore<W(!new), R(!new), O(!new)>(process: Behaviour<Stores<W, R>, R, O>, children: Wiring,
      rank: seq<nat>, writes: nat -> set<string>, from: nat, s: string, c: Config<Stores<W, R>, R, O>)
    requires Ranked(children, rank) && Respects(process, writes) && Downstream(children, rank, from, c.buffer)
    requires forall n: nat :: s in writes(n) ==> !Reaches(children, rank, from, n)
    ensures var d := Step(process, children, c);
            Downstream(children, rank, from, d.buffer) && Held(d.world, s) == Held(c.world, s)
  {
    if !Halted(c) {
      var e := c.buffer[0];
      var effect := process(e.node, c.world, e.record);
      if effect.Done? {
        FanOutDownstream(children, rank, from, e.node, effect.forwards);
      }
    }
  }

  lemma {:induction false} IterKeepsStore<W(!new), R(!new), O(!new)>(process: Behaviour<Stores<W, R>, R, O>,
      children: Wiring, rank: seq<nat>, writes: nat -> set<string>, from: nat, s: string, c: Config<Stores<W, R>, R, O>,
      n: nat)
    requires Ranked(children, rank) && Respects(process, writes) && Downstream(children, rank, from, c.buffer)
    requires forall i: nat :: s in writes(i) ==> !Reaches(children, rank, from, i)
    ensures var d := Iter(process, children, c, n);
            Downstream(children, rank, from, d.buffer) && Held(d.world, s) == Held(c.world, s)
    decreases n
  {
    if n > 0 {
      IterKeepsStore(process, children, rank, writes, from, s, c, n - 1);
      StepKeepsStore(process, children, rank, writes, from, s, Iter(process, children, c, n - 1));
    }
  }

  /** A store stays clean while the later stores are flushed and drained. */
  lemma {:induction false} CleanStaysClean<W(!new), R(!new), O(!new)>(process: Behaviour<Stores<W, R>, R, O>,
      children: Wiring, rank: seq<nat>, writes: nat -> set<string>, order: seq<Owner>, s: string, w: Stores<W, R>,
      output: seq<O>, w': Stores<W, R>, output': seq<O>)
    requires Ranked(children, rank) && Respects(process, writes)
    requires forall k, n: nat :: 0 <= k < |order| && s in writes(n) ==> !Reaches(children, rank, order[k].node, n)
    requires FlushesTo(process, children, order, w, output, w', output', true)
    requires Held(w, s) == []
    ensures Held(w', s) == []
    decreases |order|
  {
    if order != [] {
      var wm, om := FirstFlush(process, children, order, w, output, w', output');
      DrainKeepsStore(process, children, rank, writes, order[0], s, w, output, wm, om, true);
      CleanStaysClean(process, children, rank, writes, order[1..], s, wm, om, w', output');
    }
  }

  lemma DrainKeepsStore<W(!new), R(!new), O(!new)>(
      process: Behaviour<Stores<W, R>, R, O>, children: Wiring, rank: seq<nat>, writes: nat -> set<string>, o: Owner,
      s: string, w: Stores<W, R>, output: seq<O>, wm: Stores<W, R>, om: seq<O>, okm: bool)
    requires Ranked(children, rank) && Respects(process, writes)
    requires forall n: nat :: s in writes(n) ==> !Reaches(children, rank, o.node, n)
    requires DrainsTo(process, children, FlushStart(children, o, w, output), wm, om, okm)
    ensures Held(wm, s) == Held(Cleaned(w, o.store), s)
  {
    var c := FlushStart(children, o, w, output);
    var n: nat :| StopsAfter(process, children, c, n, wm, om, okm);
    FanOutDownstream(children, rank, o.node, o.node, Held(w, o.store));
    IterKeepsStore(process, children, rank, writes, o.node, s, c, n);
  }

  lemma LaterIsSafe(children: Wiring, rank: seq<nat>, order: seq<Owner>, writes: nat -> set<string>)
    requires Ranked(children, rank) && order != []
    ensures InFlushOrder(order) ==> InFlushOrder(order[1..])
    ensures FlushSafe(children, rank, order, writes) ==> FlushSafe(children, rank, order[1..], writes)
  {
    var later := order[1..];
    if FlushSafe(children, rank, order, writes) {
      forall j, k, n: nat | 0 <= j < |later| && 0 <= k < |later| && later[j].node <= later[k].node
        && later[j].store in writes(n)
        ensures !Reaches(children, rank, later[k].node, n)
      {
        assert later[j] == order[j + 1] && later[k] == order[k + 1];
      }
    }
  }

  /** A successful pass leaves every cached store clean, although draining one may dirty later ones. */
  lemma {:induction false} FlushLeavesClean<W(!new), R(!new), O(!new)>(process: Behaviour<Stores<W, R>, R, O>,
      children: Wiring, rank: seq<nat>, writes: nat -> set<string>, order: seq<Owner>, w: Stores<W, R>, output: seq<O>,
      w': Stores<W, R>, output': seq<O>, j: nat)
    requires Ranked(children, rank) && Respects(process, writes)
    requires InFlushOrder(order) && FlushSafe(children, rank, order, writes) && j < |order|
    requires FlushesTo(process, children, order, w, output, w', output', true)
    ensures Held(w', order[j].store) == []
    decreases |order|
  {
    var wm, om := FirstFlush(process, children, order, w, output, w', output');
    if j == 0 {
      DrainKeepsStore(process, children, rank, writes, order[0], order[0].store, w, output, wm, om, true);
      CleanStaysClean(process, children, rank, writes, order[1..], order[0].store, wm, om, w', output');
    } else {
      LaterIsSafe(children, rank, order, writes);
      FlushLeavesClean(process, children, rank, writes, order[1..], wm, om, w', output', j - 1);
    }
  }

  // ---- necessary ----

  /** Nodes that pass every record on and touch every store they may write. */
  function Eager<R, O>(writes: nat -> set<string>): Behaviour<Stores<(), R>, R, O> {
    (i: nat, w: Stores<(), R>, r: R) => Done(Dirtied(w, writes(i), r), [r], [])
  }

  function Dirtied<R>(w: Stores<(), R>, stores: set<string>, r: R): Stores<(), R> {
    w.(dirty := map s | s in w.dirty :: if s in stores then w.dirty[s] + [r] else w.dirty[s])
  }

  lemma EagerRespects<R(!new), O(!new)>(writes: nat -> set<string>)
    ensures Respects<(), R, O>(Eager(writes), writes)
  {
  }

  /** Some pending entry is at the writer `n`, or will lead there. */
  ghost predicate Heading<R>(children: Wiring, rank: seq<nat>, buffer: seq<Entry<R>>, n: nat)
    requires Ranked(children, rank)
  {
    exists k :: 0 <= k < |buffer| && (buffer[k].node == n || Reaches(children, rank, buffer[k].node, n))
  }

  lemma FanOutHeading<R>(children: Wiring, rank: seq<nat>, i: nat, forwards: seq<R>, n: nat)
    requires Ranked(children, rank) && Reaches(children, rank, i, n) && forwards != []
    ensures Heading(children, rank, FanOut(Kids(children, i), forwards), n)
  {
    var kids := Kids(children, i);
    var c: nat :| c in kids && (c == n || Reaches(children, rank, c, n));
    var k :| 0 <= k < |kids| && kids[k] == c;
    var init := FanOut(kids, forwards[..|forwards| - 1]);
    var added := FanOut(kids, forwards);
    assert added == init + ToEach(kids, forwards[|forwards| - 1]);
    assert added[|init| + k].node == c;
  }

  lemma EagerTurn<R, O>(children: Wiring, writes: nat -> set<string>, c: Config<Stores<(), R>, R, O>)
    requires !Halted(c)
    ensures var e, d := c.buffer[0], Step(Eager(writes), children, c);
            && !d.failed && d.world == Dirtied(c.world, writes(e.node), e.record)
            && d.buffer == c.buffer[1..] + FanOut(Kids(children, e.node), [e.record])
  {
    var e := c.buffer[0];
    assert Eager<R, O>(writes)(e.node, c.world, e.record)
      == Done(Dirtied(c.world, writes(e.node), e.record), [e.record], []);
  }

  lemma EagerStep<R, O>(children: Wiring, rank: seq<nat>, writes: nat -> set<string>, s: string, n: nat,
      c: Config<Stores<(), R>, R, O>)
    requires Ranked(children, rank) && s in c.world.dirty && !c.failed
    requires Held(c.world, s) != [] || (s in writes(n) && Heading(children, rank, c.buffer, n))
    ensures var d := Step(Eager(writes), children, c);
            && s in d.world.dirty && !d.failed
            && (Held(d.world, s) != [] || (s in writes(n) && Heading(children, rank, d.buffer, n)))
  {
    if |c.buffer| > 0 {
      var e := c.buffer[0];
      var d := Step(Eager(writes), children, c);
      EagerTurn(children, writes, c);
      assert d.world.dirty[s] == if s in writes(e.node) then c.world.dirty[s] + [e.record] else c.world.dirty[s];
      if Held(c.world, s) == [] && e.node != n {
        StillHeading(children, rank, c.buffer, n);
      }
    }
  }

  lemma StillHeading<R>(children: Wiring, rank: seq<nat>, buffer: seq<Entry<R>>, n: nat)
    requires Ranked(children, rank) && |buffer| > 0 && buffer[0].node != n && Heading(children, rank, buffer, n)
    ensures Heading(children, rank, buffer[1..] + FanOut(Kids(children, buffer[0].node), [buffer[0].record]), n)
  {
    var e := buffer[0];
    var k :| 0 <= k < |buffer| && (buffer[k].node == n || Reaches(children, rank, buffer[k].node, n));
    var added := FanOut(Kids(children, e.node), [e.record]);
    var next := buffer[1..] + added;
    if k > 0 {
      assert next[k - 1] == buffer[k];
    } else {
      FanOutHeading(children, rank, e.node, [e.record], n);
      var h :| 0 <= h < |added| && (added[h].node == n || Reaches(children, rank, added[h].node, n));
      assert next[|buffer| - 1 + h] == added[h];
    }
  }

  lemma {:induction false} EagerIter<R, O>(children: Wiring, rank: seq<nat>, writes: nat -> set<string>, s: string,
      n: nat, c: Config<Stores<(), R>, R, O>, turns: nat)
    requires Ranked(children, rank) && s in c.world.dirty && !c.failed
    requires Held(c.world, s) != [] || (s in writes(n) && Heading(children, rank, c.buffer, n))
    ensures var d := Iter(Eager(writes), children, c, turns);
            && s in d.world.dirty && !d.failed
            && (Held(d.world, s) != [] || (s in writes(n) && Heading(children, rank, d.buffer, n)))
    decreases turns
  {
    if turns > 0 {
      EagerIter(children, rank, writes, s, n, c, turns - 1);
      EagerStep(children, rank, writes, s, n, Iter(Eager(writes), children, c, turns - 1));
    }
  }

  /** Flushing a store that holds something, upstream of a writer of `s`, dirties `s`; any other
      flush leaves a dirty `s` dirty. */
  lemma EagerDrain<R(!new), O(!new)>(children: Wiring, rank: seq<nat>, writes: nat -> set<string>, o: Owner, s: string,
      n: nat, w: Stores<(), R>, output: seq<O>, wm: Stores<(), R>, om: seq<O>, okm: bool)
    requires Ranked(children, rank) && s in w.dirty
    requires (o.store != s && Held(w, s) != [])
      || (s in writes(n) && Held(w, o.store) != [] && Reaches(children, rank, o.node, n))
    requires DrainsTo(Eager(writes), children, FlushStart(children, o, w, output), wm, om, okm)
    ensures s in wm.dirty && Held(wm, s) != []
  {
    var c := FlushStart(children, o, w, output);
    var turns: nat :| StopsAfter(Eager(writes), children, c, turns, wm, om, okm);
    if s in writes(n) && Held(w, o.store) != [] && Reaches(children, rank, o.node, n) {
      FanOutHeading(children, rank, o.node, Held(w, o.store), n);
    }
    EagerIter(children, rank, writes, s, n, c, turns);
  }

  lemma {:induction false} DomainKept<R, O>(children: Wiring, writes: nat -> set<string>,
      c: Config<Stores<(), R>, R, O>, n: nat)
    ensures Iter(Eager(writes), children, c, n).world.dirty.Keys == c.world.dirty.Keys
    decreases n
  {
    if n > 0 {
      DomainKept(children, writes, c, n - 1);
      var d := Iter(Eager(writes), children, c, n - 1);
      if !Halted(d) {
        EagerTurn(children, writes, d);
      }
    }
  }

  lemma StoresKept<R(!new), O(!new)>(children: Wiring, writes: nat -> set<string>, o: Owner, s: string,
                                     w: Stores<(), R>, output: seq<O>, wm: Stores<(), R>, om: seq<O>, okm: bool)
    requires s in w.dirty && DrainsTo(Eager(writes), children, FlushStart(children, o, w, output), wm, om, okm)
    ensures s in wm.dirty
  {
    var c := FlushStart(children, o, w, output);
    var turns: nat :| StopsAfter(Eager(writes), children, c, turns, wm, om, okm);
    DomainKept(children, writes, c, turns);
  }

  /** Each state leads to the next by the flush between them. */
  ghost predicate Linked<S, P>(leads: (Owner, S, P, S, P) -> bool, order: seq<Owner>, ws: seq<S>, os: seq<P>) {
    |ws| == |os| == |order| + 1 && forall i: nat :: i < |order| ==> LinkedAt(leads, order, ws, os, i)
  }

  ghost predicate LinkedAt<S, P>(leads: (Owner, S, P, S, P) -> bool, order: seq<Owner>, ws: seq<S>, os: seq<P>, i: nat)
    requires |ws| == |os| == |order| + 1 && i < |order|
  {
    leads(order[i], ws[i], os[i], ws[i + 1], os[i + 1])
  }

  lemma LinkedFrom<S, P>(leads: (Owner, S, P, S, P) -> bool, order: seq<Owner>, w: S, output: P, ws: seq<S>, os: seq<P>)
    requires order != [] && Linked(leads, order[1..], ws, os) && leads(order[0], w, output, ws[0], os[0])
    ensures Linked(leads, order, [w] + ws, [output] + os)
  {
    var vs, ps := [w] + ws, [output] + os;
    forall i: nat | i < |order|
      ensures LinkedAt(leads, order, vs, ps, i)
    {
      if i > 0 {
        var h: nat := i - 1;
        assert LinkedAt(leads, order[1..], ws, os, h);
        assert vs[i] == ws[h] && vs[i + 1] == ws[i] && ps[i] == os[h] && ps[i + 1] == os[i];
      }
    }
  }

  ghost function Drains<W(!new), R(!new), O(!new)>(process: Behaviour<Stores<W, R>, R, O>, children: Wiring):
    (Owner, Stores<W, R>, seq<O>, Stores<W, R>, seq<O>) -> bool
  {
    (o: Owner, w: Stores<W, R>, output: seq<O>, wm: Stores<W, R>, om: seq<O>) =>
      DrainsTo(process, children, FlushStart(children, o, w, output), wm, om, true)
  }

  /** The states of a successful pass, before each flush and after the last. */
  ghost predicate Trace<W(!new), R(!new), O(!new)>(process: Behaviour<Stores<W, R>, R, O>, children: Wiring,
      order: seq<Owner>, ws: seq<Stores<W, R>>, os: seq<seq<O>>)
  {
    Linked(Drains(process, children), order, ws, os)
  }

  ghost predicate TraceFrom<W(!new), R(!new), O(!new)>(process: Behaviour<Stores<W, R>, R, O>, children: Wiring,
      order: seq<Owner>, w: Stores<W, R>, output: seq<O>, w': Stores<W, R>, ws: seq<Stores<W, R>>, os: seq<seq<O>>)
  {
    Trace(process, children, order, ws, os) && ws[0] == w && os[0] == output && ws[|order|] == w'
  }

  lemma {:induction false} TraceNothing<W(!new), R(!new), O(!new)>(process: Behaviour<Stores<W, R>, R, O>,
      children: Wiring, w: Stores<W, R>, output: seq<O>, w': Stores<W, R>, output': seq<O>)
    requires FlushesTo(process, children, [], w, output, w', output', true)
    ensures TraceFrom(process, children, [], w, output, w', [w], [output])
  {
  }

  lemma {:induction false} TraceStep<W(!new), R(!new), O(!new)>(process: Behaviour<Stores<W, R>, R, O>,
      children: Wiring, order: seq<Owner>, w: Stores<W, R>, output: seq<O>, wm: Stores<W, R>, om: seq<O>,
      w': Stores<W, R>, vs: seq<Stores<W, R>>, ps: seq<seq<O>>)
    returns (ws: seq<Stores<W, R>>, os: seq<seq<O>>)
    requires order != [] && DrainsTo(process, children, FlushStart(children, order[0], w, output), wm, om, true)
    requires TraceFrom(process, children, order[1..], wm, om, w', vs, ps)
    ensures TraceFrom(process, children, order, w, output, w', ws, os)
  {
    ws, os := [w] + vs, [output] + ps;
    LinkedFrom(Drains(process, children), order, w, output, vs, ps);
    assert ws[|order|] == vs[|order[1..]|];
  }

  lemma {:induction false} TraceOf<W(!new), R(!new), O(!new)>(process: Behaviour<Stores<W, R>, R, O>, children: Wiring,
      order: seq<Owner>, w: Stores<W, R>, output: seq<O>, w': Stores<W, R>, output': seq<O>)
    returns (ws: seq<Stores<W, R>>, os: seq<seq<O>>)
    requires FlushesTo(process, children, order, w, output, w', output', true)
    ensures TraceFrom(process, children, order, w, output, w', ws, os)
    decreases |order|
  {
    if order == [] {
      TraceNothing(process, children, w, output, w', output');
      ws, os := [w], [output];
    } else {
      var wm, om := FirstFlush(process, children, order, w, output, w', output');
      ws, os := TraceOf(process, children, order[1..], wm, om, w', output');
      ws, os := TraceStep(process, children, order, w, output, wm, om, w', ws, os);
    }
  }

  /** `EagerDrain` and `StoresKept` of one flush of the pass. */
  lemma EagerFlush<R(!new), O(!new)>(children: Wiring, rank: seq<nat>, writes: nat -> set<string>, order: seq<Owner>,
      s: string, n: nat, ws: seq<Stores<(), R>>, os: seq<seq<O>>, i: nat)
    requires Ranked(children, rank) && Trace(Eager(writes), children, order, ws, os) && i < |order| && s in ws[i].dirty
    ensures s in ws[i + 1].dirty
    ensures order[i].store != s && Held(ws[i], s) != [] ==> Held(ws[i + 1], s) != []
    ensures s in writes(n) && Held(ws[i], order[i].store) != [] && Reaches(children, rank, order[i].node, n) ==>
      Held(ws[i + 1], s) != []
  {
    assert LinkedAt(Drains(Eager(writes), children), order, ws, os, i);
    StoresKept(children, writes, order[i], s, ws[i], os[i], ws[i + 1], os[i + 1], true);
    if (order[i].store != s && Held(ws[i], s) != [])
      || (s in writes(n) && Held(ws[i], order[i].store) != [] && Reaches(children, rank, order[i].node, n))
    {
      EagerDrain(children, rank, writes, order[i], s, n, ws[i], os[i], ws[i + 1], os[i + 1], true);
    }
  }

  lemma {:induction false} StoresStay<R(!new), O(!new)>(children: Wiring, rank: seq<nat>, writes: nat -> set<string>,
      order: seq<Owner>, s: string, ws: seq<Stores<(), R>>, os: seq<seq<O>>, i: nat)
    requires Ranked(children, rank) && Trace(Eager(writes), children, order, ws, os) && s in ws[0].dirty && i <= |order|
    ensures s in ws[i].dirty
    decreases i
  {
    if i > 0 {
      StoresStay(children, rank, writes, order, s, ws, os, i - 1);
      EagerFlush(children, rank, writes, order, s, 0, ws, os, i - 1);
    }
  }

  /** A dirty store stays dirty until its own flush. */
  lemma {:induction false} DirtyStaysDirty<R(!new), O(!new)>(children: Wiring, rank: seq<nat>,
      writes: nat -> set<string>, order: seq<Owner>, s: string, ws: seq<Stores<(), R>>, os: seq<seq<O>>, lo: nat,
      hi: nat)
    requires Ranked(children, rank) && Trace(Eager(writes), children, order, ws, os) && lo <= hi <= |order|
    requires s in ws[lo].dirty && Held(ws[lo], s) != [] && forall j :: lo <= j < hi ==> order[j].store != s
    ensures s in ws[hi].dirty && Held(ws[hi], s) != []
    decreases hi - lo
  {
    if lo < hi {
      DirtyStaysDirty(children, rank, writes, order, s, ws, os, lo, hi - 1);
      EagerFlush(children, rank, writes, order, s, 0, ws, os, hi - 1);
    }
  }

  /** The flush of `order[k]` reaches a writer of `s`, whose own flush is not later. */
  lemma {:induction false} LateFlushDirties<R(!new), O(!new)>(children: Wiring, rank: seq<nat>,
      writes: nat -> set<string>, order: seq<Owner>, k: nat, s: string, n: nat, ws: seq<Stores<(), R>>, os: seq<seq<O>>)
    requires Ranked(children, rank) && k < |order| && InFlushOrder(order)
    requires Trace(Eager(writes), children, order, ws, os)
    requires s in writes(n) && Reaches(children, rank, order[k].node, n)
    requires s in ws[0].dirty && order[k].store in ws[0].dirty && Held(ws[0], order[k].store) != []
    requires forall j :: k < j < |order| ==> order[j].store != s
    ensures Held(ws[|order|], s) != []
  {
    DirtyStaysDirty(children, rank, writes, order, order[k].store, ws, os, 0, k);
    StoresStay(children, rank, writes, order, s, ws, os, k);
    EagerFlush(children, rank, writes, order, s, n, ws, os, k);
    DirtyStaysDirty(children, rank, writes, order, s, ws, os, k + 1, |order|);
  }

  ghost predicate Unfailing<W(!new), R(!new), O(!new)>(process: Behaviour<W, R, O>) {
    forall i: nat, w: W, r: R :: process(i, w, r).Done?
  }

  lemma {:induction false} NeverFails<W(!new), R(!new), O(!new)>(process: Behaviour<W, R, O>, children: Wiring,
      c: Config<W, R, O>, n: nat)
    requires Unfailing(process) && !c.failed
    ensures !Iter(process, children, c, n).failed
    decreases n
  {
    if n > 0 {
      NeverFails(process, children, c, n - 1);
    }
  }

  /** Every flush and drain ends. */
  lemma FlushDrains<W(!new), R(!new), O(!new)>(process: Behaviour<Stores<W, R>, R, O>, children: Wiring, rank: seq<nat>,
      o: Owner, w: Stores<W, R>, output: seq<O>)
    returns (wm: Stores<W, R>, om: seq<O>, okm: bool)
    requires Ranked(children, rank)
    ensures DrainsTo(process, children, FlushStart(children, o, w, output), wm, om, okm)
    ensures Unfailing(process) ==> okm
  {
    var c: Config<Stores<W, R>, R, O> := FlushStart(children, o, w, output);
    var n := DrainHalts(process, children, rank, c);
    var d := Iter(process, children, c, n);
    wm, om, okm := d.world, d.output, !d.failed;
    assert StopsAfter(process, children, c, n, wm, om, okm);
    if Unfailing(process) {
      NeverFails(process, children, c, n);
    }
  }

  /** So every pass ends, and succeeds where no node fails. */
  lemma {:induction false} FlushEnds<W(!new), R(!new), O(!new)>(process: Behaviour<Stores<W, R>, R, O>,
      children: Wiring, rank: seq<nat>, order: seq<Owner>, w: Stores<W, R>, output: seq<O>)
    returns (w': Stores<W, R>, output': seq<O>, ok: bool)
    requires Ranked(children, rank)
    ensures FlushesTo(process, children, order, w, output, w', output', ok)
    ensures Unfailing(process) ==> ok
    decreases |order|
  {
    if order == [] {
      w', output', ok := w, output, true;
    } else {
      var wm, om, okm := FlushDrains(process, children, rank, order[0], w, output);
      if okm {
        w', output', ok := FlushEnds(process, children, rank, order[1..], wm, om);
      } else {
        w', output', ok := wm, om, false;
      }
    }
  }

  /** The condition is exact: without it there are nodes that write only what they may, and from
      every state in which the stores are dirty their pass succeeds and leaves one dirty. */
  lemma UnsafeLeavesDirty<R(!new), O(!new)>(children: Wiring, rank: seq<nat>, writes: nat -> set<string>,
      order: seq<Owner>, w: Stores<(), R>, output: seq<O>)
    returns (w': Stores<(), R>, output': seq<O>, j: nat)
    requires Ranked(children, rank) && InFlushOrder(order) && !FlushSafe(children, rank, order, writes)
    requires forall j :: 0 <= j < |order| ==> Held(w, order[j].store) != []
    ensures Respects<(), R, O>(Eager(writes), writes)
    ensures FlushesTo(Eager(writes), children, order, w, output, w', output', true)
    ensures j < |order| && Held(w', order[j].store) != []
  {
    EagerRespects<R, O>(writes);
    var ok: bool;
    w', output', ok := FlushEnds(Eager(writes), children, rank, order, w, output);
    var k: nat, n: nat;
    j, k, n :| j < |order| && k < |order| && order[j].node <= order[k].node
      && order[j].store in writes(n) && Reaches(children, rank, order[k].node, n);
    var late := if order[j].node == order[k].node && k < j then j else k;
    var ws, os := TraceOf(Eager(writes), children, order, w, output, w', output');
    LateFlushDirties(children, rank, writes, order, late, order[j].store, n, ws, os);
  }

  // ---- what the graphs of the builder satisfy ----

  lemma {:induction false} ReachesHigher(children: Wiring, rank: seq<nat>, i: nat, n: nat)
    requires Ranked(children, rank) && Reaches(children, rank, i, n)
    requires forall i: nat, c: nat {:trigger c in Kids(children, i)} :: c in Kids(children, i) ==> i < c
    ensures i < n
    decreases if i < |rank| then rank[i] else 0
  {
    var c: nat :| c in Kids(children, i) && (c == n || Reaches(children, rank, c, n));
    if c != n {
      ReachesHigher(children, rank, c, n);
    }
  }

  /** The condition on the owner map, whatever order the ties come in. */
  ghost predicate SafeOwners(children: Wiring, rank: seq<nat>, cacheOwner: map<string, nat>, writes: nat -> set<string>)
    requires Ranked(children, rank)
  {
    forall s, t, n: nat :: s in cacheOwner && t in cacheOwner && cacheOwner[s] <= cacheOwner[t] ==>
      s in writes(n) ==> !Reaches(children, rank, cacheOwner[t], n)
  }

  /** `order` lists exactly the owners of the map, in flush order. */
  ghost predicate OrderOf(order: seq<Owner>, cacheOwner: map<string, nat>) {
    && InFlushOrder(order)
    && (forall s :: s in cacheOwner ==> Owner(s, cacheOwner[s]) in order)
    && (forall k :: 0 <= k < |order| ==> order[k].store in cacheOwner && order[k].node == cacheOwner[order[k].store])
  }

  /** When child indices exceed the parent's and no node after the owner writes a store, in
      particular when only the owner does, the condition holds. */
  lemma WrittenByOwnerIsSafe(children: Wiring, rank: seq<nat>, cacheOwner: map<string, nat>, writes: nat -> set<string>)
    requires Ranked(children, rank)
    requires forall i: nat, c: nat {:trigger c in Kids(children, i)} :: c in Kids(children, i) ==> i < c
    requires forall s, n: nat :: s in cacheOwner && s in writes(n) ==> n <= cacheOwner[s]
    ensures SafeOwners(children, rank, cacheOwner, writes)
  {
    forall s, t, n: nat | s in cacheOwner && t in cacheOwner && cacheOwner[s] <= cacheOwner[t] && s in writes(n)
      ensures !Reaches(children, rank, cacheOwner[t], n)
    {
      if Reaches(children, rank, cacheOwner[t], n) {
        ReachesHigher(children, rank, cacheOwner[t], n);
      }
    }
  }

  /** Graphs with cogroups. The writers of a store lie from its owner up to the node `last[s]`: for
      most stores the owner itself, for a cogroup the last of its aggregates, whose first is the
      owner. The aggregates feed only nodes after all of them, and no other store is owned among
      them. */
  ghost predicate InBlocks(children: Wiring, cacheOwner: map<string, nat>, writes: nat -> set<string>,
      last: map<string, nat>)
  {
    && cacheOwner.Keys <= last.Keys
    && (forall s, n: nat :: s in cacheOwner && s in writes(n) ==> n <= last[s])
    && (forall s, c: nat {:trigger c in Kids(children, cacheOwner[s])} ::
          s in cacheOwner && c in Kids(children, cacheOwner[s]) ==> last[s] < c)
    && (forall s, t :: s in cacheOwner && t in cacheOwner && cacheOwner[s] < cacheOwner[t] ==> last[s] <= cacheOwner[t])
  }

  /** What the owner reaches lies behind all writers of its store. */
  lemma ReachesBehind(children: Wiring, rank: seq<nat>, i: nat, n: nat, last: nat)
    requires Ranked(children, rank) && Reaches(children, rank, i, n)
    requires forall i: nat, c: nat {:trigger c in Kids(children, i)} :: c in Kids(children, i) ==> i < c
    requires forall c: nat :: c in Kids(children, i) ==> last < c
    ensures last < n
  {
    var c: nat :| c in Kids(children, i) && (c == n || Reaches(children, rank, c, n));
    if c != n {
      ReachesHigher(children, rank, c, n);
    }
  }

  /** Graphs with cogroups are wired safely, cached tables upstream of a cogroup included. */
  lemma CogroupsAreSafe(children: Wiring, rank: seq<nat>, cacheOwner: map<string, nat>, writes: nat -> set<string>,
      last: map<string, nat>)
    requires Ranked(children, rank) && InBlocks(children, cacheOwner, writes, last)
    requires forall i: nat, c: nat {:trigger c in Kids(children, i)} :: c in Kids(children, i) ==> i < c
    ensures SafeOwners(children, rank, cacheOwner, writes)
  {
    forall s, t, n: nat | s in cacheOwner && t in cacheOwner && cacheOwner[s] <= cacheOwner[t] && s in writes(n)
      ensures !Reaches(children, rank, cacheOwner[t], n)
    {
      if Reaches(children, rank, cacheOwner[t], n) {
        if cacheOwner[s] == cacheOwner[t] {
          ReachesBehind(children, rank, cacheOwner[s], n, last[s]);
        } else {
          ReachesHigher(children, rank, cacheOwner[t], n);
        }
      }
    }
  }

  /** A counting aggregate, node 0, and behind it a user's processor that corrects the counts. */
  const RECOUNT: Wiring := [[1], []]

  function RecountWrites(i: nat): set<string> {
    if i < 2 then {"counts"} else {}
  }

  /** A processor may write any store by name. One that writes the store of an aggregate upstream of
      it dirties that store again when its changes are flushed, so the pass leaves it dirty. */
  lemma RecountStaysDirty<R(!new), O(!new)>(w: Stores<(), R>, output: seq<O>)
    returns (w': Stores<(), R>, output': seq<O>)
    requires Held(w, "counts") != []
    ensures OrderOf([Owner("counts", 0)], map["counts" := 0]) && Respects<(), R, O>(Eager(RecountWrites), RecountWrites)
    ensures FlushesTo(Eager(RecountWrites), RECOUNT, [Owner("counts", 0)], w, output, w', output', true)
    ensures Held(w', "counts") != []
  {
    var order := [Owner("counts", 0)];
    assert 1 in Kids(RECOUNT, 0) && Ranked(RECOUNT, [1, 0]);
    assert Reaches(RECOUNT, [1, 0], 0, 1);
    assert order[0].store in RecountWrites(1);
    var j: nat;
    w', output', j := UnsafeLeavesDirty(RECOUNT, [1, 0], RecountWrites, order, w, output);
  }

  // ---- the pass itself ----

  class CachedGraph<W(!new), R(!new), O(!new)> {
    const graph: Graph<Stores<W, R>, R, O>
    /** Store name to owning node. */
    var cacheOwner: map<string, nat>

    constructor (graph: Graph<Stores<W, R>, R, O>, cacheOwner: map<string, nat>)
      ensures this.graph == graph && this.cacheOwner == cacheOwner
    {
      this.graph := graph;
      this.cacheOwner := cacheOwner;
    }

    /** The owners sorted by node; stores of one node come in any order. */
    method SortedOwners() returns (order: seq<Owner>)
      ensures OrderOf(order, cacheOwner)
    {
      order := [];
      var rest := cacheOwner.Keys;
      while rest != {}
        invariant rest <= cacheOwner.Keys
        invariant forall s :: s in cacheOwner && s !in rest ==> Owner(s, cacheOwner[s]) in order
        invariant forall k :: 0 <= k < |order| ==> order[k].store in cacheOwner && order[k].store !in rest
                                                   && order[k].node == cacheOwner[order[k].store]
        invariant forall k, s :: 0 <= k < |order| && s in rest ==> order[k].node <= cacheOwner[s]
        invariant InFlushOrder(order)
      {
        var least := Least(rest);
        var o := Owner(least, cacheOwner[least]);
        AppendKeepsOrder(order, o);
        order := order + [o];
        rest := rest - {least};
      }
    }

    method Least(stores: set<string>) returns (least: string)
      requires stores != {} && stores <= cacheOwner.Keys
      ensures least in stores && forall s :: s in stores ==> cacheOwner[least] <= cacheOwner[s]
    {
      least :| least in stores;
      var rest := stores - {least};
      while rest != {}
        invariant rest < stores && least in stores - rest
        invariant forall s :: s in stores && s !in rest ==> cacheOwner[least] <= cacheOwner[s]
      {
        var s :| s in rest;
        if cacheOwner[s] < cacheOwner[least] {
          least := s;
        }
        rest := rest - {s};
      }
    }

    /** `flush_caches`.  A failed drain ends the pass. */
    method FlushCaches(ghost rank: seq<nat>, ghost writes: nat -> set<string>) returns (ok: bool)
      requires Ranked(graph.children, rank)
      requires forall s :: s in cacheOwner ==> cacheOwner[s] < |graph.children|
      modifies graph
      ensures graph.children == old(graph.children)
      ensures exists order :: && OrderOf(order, cacheOwner)
                              && FlushesTo(graph.process, graph.children, order, old(graph.world), old(graph.output),
                                           graph.world, graph.output, ok)
                              && Conserves(graph.process, graph.children, order, old(graph.world), old(graph.output),
                                           graph.world, graph.output, ok)
      ensures ok && Respects(graph.process, writes) && SafeOwners(graph.children, rank, cacheOwner, writes) ==>
              forall s :: s in cacheOwner ==> Held(graph.world, s) == []
    {
      var order := SortedOwners();
      ok := FlushInOrder(order, rank);
      FlushConserves(graph.process, graph.children, order, old(graph.world), old(graph.output), graph.world,
                     graph.output, ok);
      if ok && Respects(graph.process, writes) && SafeOwners(graph.children, rank, cacheOwner, writes) {
        forall s | s in cacheOwner
          ensures Held(graph.world, s) == []
        {
          var j :| 0 <= j < |order| && order[j] == Owner(s, cacheOwner[s]);
          FlushLeavesClean(graph.process, graph.children, rank, writes, order, old(graph.world), old(graph.output),
                           graph.world, graph.output, j);
        }
      }
    }

    method FlushInOrder(order: seq<Owner>, ghost rank: seq<nat>) returns (ok: bool)
      requires Ranked(graph.children, rank)
      requires forall k :: 0 <= k < |order| ==> order[k].node < |graph.children|
      modifies graph
      ensures graph.children == old(graph.children)
      ensures FlushesTo(graph.process, graph.children, order, old(graph.world), old(graph.output), graph.world,
        graph.output, ok)
    {
      ghost var w0, out0 := graph.world, graph.output;
      var k := 0;
      while k < |order|
        invariant 0 <= k <= |order|
        invariant graph.children == old(graph.children)
        invariant Completes(graph.process, graph.children, order, w0, out0, order[k..], graph.world, graph.output)
      {
        var o := order[k];
        ghost var w1, out1 := graph.world, graph.output;
        var kids := graph.children[o.node];
        var buffer := ForwardAll(kids, [], Held(graph.world, o.store));
        FanOutRouted(graph.children, rank, o.node, Held(graph.world, o.store));
        graph.world := Cleaned(graph.world, o.store);
        assert [] + FanOut(kids, Held(w1, o.store)) == FanOut(kids, Held(w1, o.store));
        ok := graph.Drain(buffer, rank);
        FlushedOne(graph.process, graph.children, order, w0, out0, order[k..], w1, out1, graph.world, graph.output, ok);
        if !ok {
          return;
        }
        assert order[k..][1..] == order[k + 1..];
        k := k + 1;
      }
      assert order[k..] == [];
      ok := true;
    }
  }

  lemma AppendKeepsOrder(order: seq<Owner>, o: Owner)
    requires InFlushOrder(order) && forall k :: 0 <= k < |order| ==>
      order[k].node <= o.node && order[k].store != o.store
    ensures InFlushOrder(order + [o])
    ensures forall x :: x in order + [o] <==> x in order || x == o
  {
  }

  /** However `rest` goes on from `(w, output)`, that is how `order` goes on from `(w0, out0)`. */
  ghost predicate Completes<W(!new), R(!new), O(!new)>(process: Behaviour<Stores<W, R>, R, O>, children: Wiring,
      order: seq<Owner>, w0: Stores<W, R>, out0: seq<O>, rest: seq<Owner>, w: Stores<W, R>, output: seq<O>)
  {
    forall w': Stores<W, R>, output': seq<O>, ok: bool ::
      FlushesTo(process, children, rest, w, output, w', output', ok) ==>
      FlushesTo(process, children, order, w0, out0, w', output', ok)
  }

  lemma FlushedOne<W(!new), R(!new), O(!new)>(process: Behaviour<Stores<W, R>, R, O>, children: Wiring,
      order: seq<Owner>, w0: Stores<W, R>, out0: seq<O>, rest: seq<Owner>, w: Stores<W, R>, output: seq<O>,
      wm: Stores<W, R>, om: seq<O>, okm: bool)
    requires rest != [] && Completes(process, children, order, w0, out0, rest, w, output)
    requires DrainsTo(process, children, FlushStart(children, rest[0], w, output), wm, om, okm)
    ensures okm ==> Completes(process, children, order, w0, out0, rest[1..], wm, om)
    ensures !okm ==> FlushesTo(process, children, order, w0, out0, wm, om, false)
  {
    if okm {
      forall w': Stores<W, R>, output': seq<O>,
        ok: bool | FlushesTo(process, children, rest[1..], wm, om, w', output', ok)
        ensures FlushesTo(process, children, order, w0, out0, w', output', ok)
      {
        assert FlushesTo(process, children, rest, w, output, w', output', ok);
      }
    } else {
      assert FlushesTo(process, children, rest, w, output, wm, om, false);
    }
  }

  lemma FanOutRouted<R>(children: Wiring, rank: seq<nat>, i: nat, forwards: seq<R>)
    requires Ranked(children, rank) && i < |children|
    ensures Routed(children, FanOut(Kids(children, i), forwards))
  {
    FanOutRanked(children, rank, i, forwards);
  }
}
