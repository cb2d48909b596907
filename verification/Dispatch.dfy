/** The record dispatch loop of one runnable processor graph.

    A node's `forward` appends one entry per child to a FIFO buffer and the driver drains the
    buffer, so a graph runs without recursion.  `Step` is one turn of the loop, `Iter` a number
    of turns, and `Graph.Drain` is the loop itself. */
module Dispatch {
  import opened Common

  datatype Entry<R> = Entry(node: nat, record: R)

  /** What one `process` call does: the new world (node states, stores), the records it
      forwarded and the sink records it emitted.  A call that ends in an error keeps what it
      changed and emitted until then; what it forwarded is dropped with the buffer. */
  datatype Effect<W, R, O> =
    | Done(world: W, forwards: seq<R>, outputs: seq<O>)
    | Failed(world: W, outputs: seq<O>)

  type Behaviour<!W, !R, !O> = (nat, W, R) -> Effect<W, R, O>

  /** `children[i]` lists the node indices that node `i` forwards to. */
  type Wiring = seq<seq<nat>>

  function Kids(children: Wiring, i: nat): seq<nat> {
    if i < |children| then children[i] else []
  }

  /** A ranking that falls along every edge: the graph is acyclic and has no dangling child. */
  ghost predicate Ranked(children: Wiring, rank: seq<nat>) {
    && |rank| == |children|
    && forall i: nat, c: nat {:trigger c in Kids(children, i)} :: c in Kids(children, i) ==>
      c < |children| && rank[c] < rank[i]
  }

  ghost predicate Routed<R>(children: Wiring, entries: seq<Entry<R>>) {
    forall k :: 0 <= k < |entries| ==> entries[k].node < |children|
  }

  function ToEach<R>(children: seq<nat>, record: R): (r: seq<Entry<R>>)
    ensures |r| == |children|
    ensures forall k :: 0 <= k < |r| ==> r[k] == Entry(children[k], record)
  {
    seq(|children|, k requires 0 <= k < |children| => Entry(children[k], record))
  }

  /** The entries that a series of `forward` calls appends, in order. */
  function FanOut<R>(children: seq<nat>, forwards: seq<R>): (r: seq<Entry<R>>)
    ensures forall k :: 0 <= k < |r| ==> r[k].node in children
  {
    if forwards == [] then []
    else FanOut(children, forwards[..|forwards| - 1]) + ToEach(children, forwards[|forwards| - 1])
  }

  /** Every record goes to every child: record by record, and to the children in their order. */
  ghost predicate Dealt<R>(entries: seq<Entry<R>>, children: seq<nat>, records: seq<R>) {
    && |entries| == |records| * |children|
    && forall i: nat, j: nat :: i < |records| && j < |children| ==>
         DealtAt(entries, i * |children| + j, children[j], records[i])
  }

  ghost predicate DealtAt<R>(entries: seq<Entry<R>>, at: int, child: nat, record: R) {
    0 <= at < |entries| && entries[at].node == child && entries[at].record == record
  }

  lemma {:induction false} FanOutLength<R>(children: seq<nat>, forwards: seq<R>)
    ensures |FanOut(children, forwards)| == |forwards| * |children|
    decreases |forwards|
  {
    if forwards != [] {
      FanOutLength(children, forwards[..|forwards| - 1]);
      OneMore(|forwards| - 1, |children|);
    }
  }

  lemma OneMore(m: nat, n: nat)
    ensures (m + 1) * n == m * n + n
  {
  }

  lemma {:induction false} FanOutAt<R>(children: seq<nat>, forwards: seq<R>, i: nat, j: nat)
    requires i < |forwards| && j < |children|
    ensures DealtAt(FanOut(children, forwards), i * |children| + j, children[j], forwards[i])
    decreases |forwards|
  {
    var init, last := forwards[..|forwards| - 1], forwards[|forwards| - 1];
    if i < |init| {
      FanOutAt(children, init, i, j);
    } else {
      FanOutLength(children, init);
      assert FanOut(children, forwards) == FanOut(children, init) + ToEach(children, last);
    }
  }

  lemma FanOutDeals<R>(children: seq<nat>, forwards: seq<R>)
    ensures Dealt(FanOut(children, forwards), children, forwards)
  {
    FanOutLength(children, forwards);
    forall i: nat, j: nat | i < |forwards| && j < |children|
      ensures DealtAt(FanOut(children, forwards), i * |children| + j, children[j], forwards[i])
    {
      FanOutAt(children, forwards, i, j);
    }
  }

  /** The driver between two turns.  `log` lists the entries processed so far. */
  datatype Config<W, R, O> =
    Config(world: W, buffer: seq<Entry<R>>, output: seq<O>, log: seq<Entry<R>>, failed: bool)

  function Start<W, R, O>(world: W, seeds: seq<Entry<R>>, output: seq<O>): Config<W, R, O> {
    Config(world, seeds, output, [], false)
  }

  predicate Halted<W, R, O>(c: Config<W, R, O>) {
    c.failed || |c.buffer| == 0
  }

  /** One turn: pop the oldest entry, process it, append what it forwarded.  A failure stops
      the drain and drops the rest of the buffer unprocessed. */
  function Step<W, R, O>(process: Behaviour<W, R, O>, children: Wiring, c: Config<W, R, O>): Config<W, R, O> {
    if Halted(c) then c
    else
      var e := c.buffer[0];
      match process(e.node, c.world, e.record)
      case Failed(w, outputs) => Config(w, c.buffer[1..], c.output + outputs, c.log + [e], true)
      case Done(w, forwards, outputs) =>
        Config(w, c.buffer[1..] + FanOut(Kids(children, e.node), forwards),
               c.output + outputs, c.log + [e], false)
  }

  function Iter<W, R, O>(process: Behaviour<W, R, O>, children: Wiring, c: Config<W, R, O>, n: nat): Config<W, R, O> {
    if n == 0 then c else Step(process, children, Iter(process, children, c, n - 1))
  }

  /** Once halted, further turns change nothing, so the halted configuration is unique. */
  lemma {:induction false} HaltedIsFinal<W, R, O>(process: Behaviour<W, R, O>, children: Wiring,
                                                  c: Config<W, R, O>, m: nat, n: nat)
    requires m <= n && Halted(Iter(process, children, c, m))
    ensures Iter(process, children, c, n) == Iter(process, children, c, m)
    decreases n
  {
    if m < n {
      HaltedIsFinal(process, children, c, m, n - 1);
    }
  }

  /** The driver stopped at `world`, `output` after some number of turns from `c`. */
  ghost predicate DrainsTo<W(!new), R(!new), O(!new)>(
      process: Behaviour<W, R, O>, children: Wiring, c: Config<W, R, O>, world: W, output: seq<O>, ok: bool)
  {
    exists n: nat :: StopsAfter(process, children, c, n, world, output, ok)
  }

  ghost predicate StopsAfter<W, R, O>(
      process: Behaviour<W, R, O>, children: Wiring, c: Config<W, R, O>, n: nat, world: W, output: seq<O>, ok: bool)
  {
    var d := Iter(process, children, c, n);
    Halted(d) && d.world == world && d.output == output && ok == !d.failed
  }

  /** `d` is a configuration on the way from `c`. */
  ghost predicate Reached<W, R, O>(process: Behaviour<W, R, O>, children: Wiring, c: Config<W, R, O>,
      d: Config<W, R, O>)
  {
    exists n: nat :: Iter(process, children, c, n) == d
  }

  lemma ReachedStep<W(!new), R(!new), O(!new)>(process: Behaviour<W, R, O>, children: Wiring, c: Config<W, R, O>,
      d: Config<W, R, O>)
    requires Reached(process, children, c, d)
    ensures Reached(process, children, c, Step(process, children, d))
  {
    var n: nat :| Iter(process, children, c, n) == d;
    assert Iter(process, children, c, n + 1) == Step(process, children, d);
  }

  lemma ReachedStops<W(!new), R(!new), O(!new)>(process: Behaviour<W, R, O>, children: Wiring, c: Config<W, R, O>,
      d: Config<W, R, O>)
    requires Reached(process, children, c, d) && Halted(d)
    ensures DrainsTo(process, children, c, d.world, d.output, !d.failed)
  {
    var n: nat :| Iter(process, children, c, n) == d;
    assert StopsAfter(process, children, c, n, d.world, d.output, !d.failed);
  }

  // ---- a drain told call by call ----

  /** What call `k` of a drain did: `ws` are the worlds before the calls and after the last. */
  ghost function CallAt<W, R, O>(process: Behaviour<W, R, O>, log: seq<Entry<R>>, ws: seq<W>, k: nat): Effect<W, R, O>
    requires k < |log| && |ws| == |log| + 1
  {
    process(log[k].node, ws[k], log[k].record)
  }

  /** The outputs of the first `n` calls, in order. */
  ghost function Emitted<W, R, O>(process: Behaviour<W, R, O>, log: seq<Entry<R>>, ws: seq<W>, n: nat): seq<O>
    requires n <= |log| && |ws| == |log| + 1
  {
    if n == 0 then [] else Emitted(process, log, ws, n - 1) + CallAt(process, log, ws, n - 1).outputs
  }

  /** What the first `n` calls forwarded, one entry per child for each record; a call that failed
      forwards nothing. */
  ghost function Passed<W, R, O>(process: Behaviour<W, R, O>, children: Wiring, log: seq<Entry<R>>, ws: seq<W>, n: nat):
    seq<Entry<R>>
    requires n <= |log| && |ws| == |log| + 1
  {
    if n == 0 then []
    else
      var call := CallAt(process, log, ws, n - 1);
      Passed(process, children, log, ws, n - 1)
      + if call.Done? then FanOut(Kids(children, log[n - 1].node), call.forwards) else []
  }

  ghost predicate AllDone<W, R, O>(process: Behaviour<W, R, O>, log: seq<Entry<R>>, ws: seq<W>, n: nat)
    requires n <= |log| && |ws| == |log| + 1
  {
    forall k: nat :: k < n ==> CallAt(process, log, ws, k).Done?
  }

  /** Every call succeeded, or every one but the last. */
  ghost predicate Ended<W, R, O>(process: Behaviour<W, R, O>, log: seq<Entry<R>>, ws: seq<W>, failed: bool)
    requires |ws| == |log| + 1
  {
    if failed then
      log != [] && AllDone(process, log, ws, |log| - 1) && CallAt(process, log, ws, |log| - 1).Failed?
    else AllDone(process, log, ws, |log|)
  }

  /** The calls in `log` ran one after the other from `world` to the last of `ws`. Their entries are
      served in the order in which they were queued: seeds first, then what each call forwarded.
      Their outputs follow `output`. */
  ghost predicate Ran<W, R, O>(process: Behaviour<W, R, O>, children: Wiring, world: W, output: seq<O>,
      seeds: seq<Entry<R>>, log: seq<Entry<R>>, pending: seq<Entry<R>>, ws: seq<W>, output': seq<O>)
  {
    && |ws| == |log| + 1 && ws[0] == world
    && (forall k: nat :: k < |log| ==> CallAt(process, log, ws, k).world == ws[k + 1])
    && output' == output + Emitted(process, log, ws, |log|)
    && log + pending == seeds + Passed(process, children, log, ws, |log|)
  }

  /** A drain: it succeeds exactly when every call did and nothing is left, and it fails exactly when
      its last call failed. */
  ghost predicate Chronicle<W, R, O>(process: Behaviour<W, R, O>, children: Wiring, world: W, output: seq<O>,
      seeds: seq<Entry<R>>, log: seq<Entry<R>>, pending: seq<Entry<R>>, ws: seq<W>, world': W, output': seq<O>,
      ok: bool)
  {
    && Ran(process, children, world, output, seeds, log, pending, ws, output') && world' == ws[|log|]
    && Ended(process, log, ws, !ok) && (ok ==> pending == [])
  }

  ghost predicate Chronicled<W(!new), R(!new), O(!new)>(process: Behaviour<W, R, O>, children: Wiring, world: W,
      output: seq<O>, seeds: seq<Entry<R>>, world': W, output': seq<O>, ok: bool)
  {
    exists log: seq<Entry<R>>, pending: seq<Entry<R>>, ws: seq<W> ::
      Chronicle(process, children, world, output, seeds, log, pending, ws, world', output', ok)
  }

  lemma {:induction false} LongerSame<W, R, O>(process: Behaviour<W, R, O>, children: Wiring, log: seq<Entry<R>>,
      ws: seq<W>, e: Entry<R>, w: W, n: nat)
    requires n <= |log| && |ws| == |log| + 1
    ensures Emitted(process, log + [e], ws + [w], n) == Emitted(process, log, ws, n)
    ensures Passed(process, children, log + [e], ws + [w], n) == Passed(process, children, log, ws, n)
    decreases n
  {
    if n > 0 {
      LongerSame(process, children, log, ws, e, w, n - 1);
      assert CallAt(process, log + [e], ws + [w], n - 1) == CallAt(process, log, ws, n - 1);
    }
  }

  /** How far a run has come: a call failed exactly when the run has, and then it was the last. */
  ghost predicate RanTo<W, R, O>(process: Behaviour<W, R, O>, children: Wiring, world: W, output: seq<O>,
      seeds: seq<Entry<R>>, c: Config<W, R, O>, ws: seq<W>)
  {
    && Ran(process, children, world, output, seeds, c.log, c.buffer, ws, c.output) && c.world == ws[|c.log|]
    && Ended(process, c.log, ws, c.failed)
  }

  lemma QueueTurns<R>(log: seq<Entry<R>>, buffer: seq<Entry<R>>, queue: seq<Entry<R>>, added: seq<Entry<R>>)
    requires |buffer| > 0 && log + buffer == queue
    ensures (log + [buffer[0]]) + (buffer[1..] + added) == queue + added
  {
    assert buffer == [buffer[0]] + buffer[1..];
  }

  lemma CallsStay<W, R, O>(process: Behaviour<W, R, O>, log: seq<Entry<R>>, ws: seq<W>, e: Entry<R>, w: W)
    requires |ws| == |log| + 1
    ensures forall k: nat :: k < |log| ==> CallAt(process, log + [e], ws + [w], k) == CallAt(process, log, ws, k)
    ensures CallAt(process, log + [e], ws + [w], |log|) == process(e.node, ws[|log|], e.record)
  {
  }

  function Sends<W, R, O>(children: Wiring, i: nat, call: Effect<W, R, O>): seq<Entry<R>> {
    if call.Done? then FanOut(Kids(children, i), call.forwards) else []
  }

  lemma NextCall<W, R, O>(process: Behaviour<W, R, O>, children: Wiring, log: seq<Entry<R>>, ws: seq<W>, e: Entry<R>,
      call: Effect<W, R, O>)
    requires |ws| == |log| + 1 && call == process(e.node, ws[|log|], e.record)
    ensures Emitted(process, log + [e], ws + [call.world], |log| + 1) == Emitted(process, log, ws, |log|) + call.outputs
    ensures Passed(process, children, log + [e], ws + [call.world], |log| + 1)
         == Passed(process, children, log, ws, |log|) + Sends(children, e.node, call)
  {
    LongerSame(process, children, log, ws, e, call.world, |log|);
    CallsStay(process, log, ws, e, call.world);
  }

  lemma CallRuns<W, R, O>(process: Behaviour<W, R, O>, children: Wiring, world: W, output: seq<O>,
      seeds: seq<Entry<R>>, log: seq<Entry<R>>, buffer: seq<Entry<R>>, ws: seq<W>, output': seq<O>,
      call: Effect<W, R, O>)
    requires Ran(process, children, world, output, seeds, log, buffer, ws, output') && |buffer| > 0
    requires call == process(buffer[0].node, ws[|log|], buffer[0].record)
    ensures Ran(process, children, world, output, seeds, log + [buffer[0]],
                buffer[1..] + Sends(children, buffer[0].node, call), ws + [call.world], output' + call.outputs)
  {
    var e := buffer[0];
    var added := Sends(children, e.node, call);
    NextCall(process, children, log, ws, e, call);
    CallsStay(process, log, ws, e, call.world);
    QueueTurns(log, buffer, seeds + Passed(process, children, log, ws, |log|), added);
    Regroup(seeds, Passed(process, children, log, ws, |log|), added);
    Regroup(output, Emitted(process, log, ws, |log|), call.outputs);
  }

  lemma StepIs<W, R, O>(process: Behaviour<W, R, O>, children: Wiring, c: Config<W, R, O>, call: Effect<W, R, O>)
    requires !Halted(c) && call == process(c.buffer[0].node, c.world, c.buffer[0].record)
    ensures Step(process, children, c)
         == Config(call.world, c.buffer[1..] + Sends(children, c.buffer[0].node, call), c.output + call.outputs,
                   c.log + [c.buffer[0]], call.Failed?)
  {
    assert c.buffer[1..] + [] == c.buffer[1..];
  }

  lemma StepRuns<W, R, O>(process: Behaviour<W, R, O>, children: Wiring, world: W, output: seq<O>, seeds: seq<Entry<R>>,
      c: Config<W, R, O>, ws: seq<W>)
    returns (ws': seq<W>)
    requires RanTo(process, children, world, output, seeds, c, ws)
    ensures RanTo(process, children, world, output, seeds, Step(process, children, c), ws')
  {
    ws' := ws;
    if !Halted(c) {
      var call := process(c.buffer[0].node, c.world, c.buffer[0].record);
      ws' := ws + [call.world];
      StepIs(process, children, c, call);
      CallRuns(process, children, world, output, seeds, c.log, c.buffer, ws, c.output, call);
      EndedNext(process, c.log, ws, c.buffer[0], call);
    }
  }

  lemma EndedNext<W, R, O>(process: Behaviour<W, R, O>, log: seq<Entry<R>>, ws: seq<W>, e: Entry<R>,
      call: Effect<W, R, O>)
    requires |ws| == |log| + 1 && Ended(process, log, ws, false) && call == process(e.node, ws[|log|], e.record)
    ensures Ended(process, log + [e], ws + [call.world], call.Failed?)
  {
    CallsStay(process, log, ws, e, call.world);
  }

  lemma StartRan<W, R, O>(process: Behaviour<W, R, O>, children: Wiring, world: W, seeds: seq<Entry<R>>, output: seq<O>)
    ensures RanTo(process, children, world, output, seeds, Start(world, seeds, output), [world])
  {
    assert [] + seeds == seeds + [] && output + [] == output;
  }

  lemma {:induction false} IterRuns<W, R, O>(process: Behaviour<W, R, O>, children: Wiring, world: W,
      seeds: seq<Entry<R>>, output: seq<O>, n: nat)
    returns (ws: seq<W>)
    ensures RanTo(process, children, world, output, seeds, Iter(process, children, Start(world, seeds, output), n), ws)
    decreases n
  {
    if n == 0 {
      ws := [world];
      StartRan(process, children, world, seeds, output);
    } else {
      ws := IterRuns(process, children, world, seeds, output, n - 1);
      ws := StepRuns(process, children, world, output, seeds,
                     Iter(process, children, Start(world, seeds, output), n - 1), ws);
    }
  }

  /** Every drain has such a chronicle. */
  lemma DrainIsChronicled<W(!new), R(!new), O(!new)>(process: Behaviour<W, R, O>, children: Wiring, world: W,
      output: seq<O>, seeds: seq<Entry<R>>, world': W, output': seq<O>, ok: bool)
    requires DrainsTo(process, children, Start(world, seeds, output), world', output', ok)
    ensures Chronicled(process, children, world, output, seeds, world', output', ok)
  {
    var n: nat :| StopsAfter(process, children, Start(world, seeds, output), n, world', output', ok);
    var ws := IterRuns(process, children, world, seeds, output, n);
    var d := Iter(process, children, Start(world, seeds, output), n);
    assert Chronicle(process, children, world, output, seeds, d.log, d.buffer, ws, world', output', ok);
  }

  /** `forward`: one copy per child; the last child receives the original. */
  method Forward<R>(children: seq<nat>, buffer: seq<Entry<R>>, record: R) returns (after: seq<Entry<R>>)
    ensures after == buffer + ToEach(children, record)
  {
    after := buffer;
    if |children| == 0 {
      return;
    }
    var last := children[|children| - 1];
    var k := 0;
    while k < |children| - 1
      invariant 0 <= k <= |children| - 1
      invariant after == buffer + ToEach(children, record)[..k]
    {
      after := after + [Entry(children[k], record)];
      k := k + 1;
    }
    after := after + [Entry(last, record)];
  }

  /** A node's `forward` calls in a row. */
  method ForwardAll<R>(children: seq<nat>, buffer: seq<Entry<R>>, forwards: seq<R>) returns (after: seq<Entry<R>>)
    ensures after == buffer + FanOut(children, forwards)
  {
    after := buffer;
    var f := 0;
    while f < |forwards|
      invariant 0 <= f <= |forwards|
      invariant after == buffer + FanOut(children, forwards[..f])
    {
      after := Forward(children, after, forwards[f]);
      assert forwards[..f + 1][..f] == forwards[..f];
      f := f + 1;
    }
    assert forwards[..f] == forwards;
  }

  /** The largest rank in the graph. */
  ghost function Top(rank: seq<nat>): (t: nat)
    ensures forall k :: 0 <= k < |rank| ==> rank[k] <= t
  {
    if rank == [] then 0
    else
      var t := Top(rank[..|rank| - 1]);
      if t < rank[|rank| - 1] then rank[|rank| - 1] else t
  }

  ghost predicate RankedBelow<R>(rank: seq<nat>, bound: nat, entries: seq<Entry<R>>) {
    forall k :: 0 <= k < |entries| ==> entries[k].node < |rank| && rank[entries[k].node] < bound
  }

  lemma SeedsAreBelow<R>(children: Wiring, rank: seq<nat>, seeds: seq<Entry<R>>)
    requires Ranked(children, rank) && Routed(children, seeds)
    ensures RankedBelow(rank, Top(rank) + 1, seeds)
  {
  }

  lemma FanOutRanked<R>(children: Wiring, rank: seq<nat>, i: nat, forwards: seq<R>)
    requires Ranked(children, rank) && i < |children|
    ensures RankedBelow(rank, rank[i], FanOut(Kids(children, i), forwards))
  {
    var added := FanOut(Kids(children, i), forwards);
    forall k | 0 <= k < |added|
      ensures added[k].node < |rank| && rank[added[k].node] < rank[i]
    {
      assert added[k].node in Kids(children, i);
    }
  }

  /** FIFO order processes the buffer in rounds.  The first `m` entries are what is left of the
      current round, whose ranks are at most `k`; everything behind them ranks lower.  So the
      pair `(k, m)` falls on every turn, whatever the nodes do. */
  ghost predicate InRounds<R>(rank: seq<nat>, buffer: seq<Entry<R>>, k: nat, m: nat) {
    && m <= |buffer|
    && (m == 0 ==> |buffer| == 0)
    && (forall j :: 0 <= j < |buffer| ==> buffer[j].node < |rank| && rank[buffer[j].node] <= k)
    && (forall j :: m <= j < |buffer| ==> rank[buffer[j].node] < k)
  }

  lemma RoundAdvances<R>(children: Wiring, rank: seq<nat>, buffer: seq<Entry<R>>, k: nat, m: nat, forwards: seq<R>)
    returns (k': nat, m': nat)
    requires Ranked(children, rank) && InRounds(rank, buffer, k, m) && m > 0
    ensures var next := buffer[1..] + FanOut(Kids(children, buffer[0].node), forwards);
            InRounds(rank, next, k', m')
    ensures k' < k || (k' == k && m' < m)
  {
    var added := FanOut(Kids(children, buffer[0].node), forwards);
    var next := buffer[1..] + added;
    forall j | m - 1 <= j < |next|
      ensures next[j].node < |rank| && rank[next[j].node] < k
    {
      if j < |buffer| - 1 {
        assert next[j] == buffer[j + 1];
      } else {
        assert next[j] == added[j - (|buffer| - 1)];
      }
    }
    if m > 1 || |next| == 0 {
      k', m' := k, m - 1;
    } else {
      assert rank[next[0].node] < k;
      k', m' := k - 1, |next|;
    }
  }

  /** Every drain ends: on an acyclic graph some number of turns halts the driver, whatever the
      nodes do, and any number that halts it leads to the same end. */
  lemma DrainHalts<W, R, O>(process: Behaviour<W, R, O>, children: Wiring, rank: seq<nat>, c: Config<W, R, O>)
    returns (n: nat)
    requires Ranked(children, rank) && Routed(children, c.buffer)
    ensures Halted(Iter(process, children, c, n))
    ensures forall m: nat :: Halted(Iter(process, children, c, m)) ==>
              Iter(process, children, c, m) == Iter(process, children, c, n)
  {
    n := RoundsHalt(process, children, rank, c, 0, Top(rank), |c.buffer|);
    forall m: nat | Halted(Iter(process, children, c, m))
      ensures Iter(process, children, c, m) == Iter(process, children, c, n)
    {
      if m <= n {
        HaltedIsFinal(process, children, c, m, n);
      } else {
        HaltedIsFinal(process, children, c, n, m);
      }
    }
  }

  lemma {:induction false} RoundsHalt<W, R, O>(process: Behaviour<W, R, O>, children: Wiring, rank: seq<nat>,
                                               c: Config<W, R, O>, from: nat, k: nat, m: nat)
    returns (n: nat)
    requires Ranked(children, rank) && InRounds(rank, Iter(process, children, c, from).buffer, k, m)
    ensures Halted(Iter(process, children, c, n))
    decreases k, m
  {
    var d := Iter(process, children, c, from);
    if Halted(d) {
      n := from;
    } else {
      match process(d.buffer[0].node, d.world, d.buffer[0].record)
      case Failed(w, outputs) =>
        n := from + 1;
      case Done(w, forwards, outputs) =>
        var k', m' := RoundAdvances(children, rank, d.buffer, k, m, forwards);
        assert Iter(process, children, c, from + 1) == Step(process, children, d);
        n := RoundsHalt(process, children, rank, c, from + 1, k', m');
    }
  }

  // ---- sources ----

  /** A source reads the raw records of a topic, and feeds the nodes it lists. */
  datatype Source<!B, R> = Source(topic: string, children: seq<nat>, read: B -> Option<R>)

  /** What a raw record seeds: one reading per child of each source on its topic, in order, or
      nothing at all when one of them fails. */
  function Seeds<B, R>(sources: seq<Source<B, R>>, topic: string, raw: B): Option<seq<Entry<R>>> {
    if sources == [] then Some([])
    else
      var src := sources[|sources| - 1];
      match Seeds(sources[..|sources| - 1], topic, raw)
      case None => None
      case Some(before) =>
        if src.topic != topic || src.children == [] then Some(before)
        else
          match src.read(raw)
          case None => None
          case Some(r) => Some(before + ToEach(src.children, r))
  }

  /** A source on the topic that has a child to feed and cannot read the record. */
  predicate Unreadable<B, R>(src: Source<B, R>, topic: string, raw: B) {
    src.topic == topic && src.children != [] && src.read(raw).None?
  }

  /** A record fails to enter exactly when some source that must read it cannot. */
  lemma {:induction false} SeedsFailExactly<B, R>(sources: seq<Source<B, R>>, topic: string, raw: B)
    ensures Seeds(sources, topic, raw).None? <==> exists j :: 0 <= j < |sources| && Unreadable(sources[j], topic, raw)
    decreases |sources|
  {
    if sources != [] {
      var init, n := sources[..|sources| - 1], |sources| - 1;
      SeedsFailExactly(init, topic, raw);
      assert forall j :: 0 <= j < n ==> init[j] == sources[j];
      if j :| 0 <= j < |sources| && Unreadable(sources[j], topic, raw) {
        assert j < n ==> Unreadable(init[j], topic, raw);
      }
    }
  }

  /** The entries of one source: one for each child, in order, none of another topic. */
  lemma SeedsOfOne<B, R>(src: Source<B, R>, topic: string, raw: B)
    ensures src.topic != topic ==> Seeds([src], topic, raw) == Some([])
    ensures src.topic == topic && !Unreadable(src, topic, raw) ==>
      && Seeds([src], topic, raw).Some? && |Seeds([src], topic, raw).value| == |src.children|
      && forall k :: 0 <= k < |src.children| ==>
           && src.read(raw).Some?
           && Seeds([src], topic, raw).value[k] == Entry(src.children[k], src.read(raw).value)
  {
    var sources := [src];
    assert sources[..0] == [];
    assert Seeds(sources[..0], topic, raw) == Some([]);
  }

  /** Sources seed one after the other. */
  lemma {:induction false} SeedsConcat<B, R>(a: seq<Source<B, R>>, b: seq<Source<B, R>>, topic: string, raw: B)
    ensures var x, y := Seeds(a, topic, raw), Seeds(b, topic, raw);
      Seeds(a + b, topic, raw) == if x.Some? && y.Some? then Some(x.value + y.value) else None
    decreases |b|
  {
    if b == [] {
      assert a + b == a;
      var x := Seeds(a, topic, raw);
      assert x.Some? ==> x.value + [] == x.value;
    } else {
      var init, src := b[..|b| - 1], b[|b| - 1];
      SeedsConcat(a, init, topic, raw);
      assert (a + b)[..|a + b| - 1] == a + init;
      var x, y := Seeds(a, topic, raw), Seeds(init, topic, raw);
      if x.Some? && y.Some? && src.topic == topic && src.children != [] && src.read(raw).Some? {
        Regroup(x.value, y.value, ToEach(src.children, src.read(raw).value));
      }
    }
  }

  lemma {:induction false} SeedsRouted<B, R>(children: Wiring, sources: seq<Source<B, R>>, topic: string, raw: B)
    requires forall j, k :: 0 <= j < |sources| && 0 <= k < |sources[j].children| ==> sources[j].children[k] < |children|
    ensures Seeds(sources, topic, raw).Some? ==> Routed(children, Seeds(sources, topic, raw).value)
    decreases |sources|
  {
    if sources != [] {
      SeedsRouted(children, sources[..|sources| - 1], topic, raw);
    }
  }

  /** The seeding loops of `pipe`. */
  method Seed<B, R>(sources: seq<Source<B, R>>, topic: string, raw: B) returns (buffer: Option<seq<Entry<R>>>)
    ensures buffer == Seeds(sources, topic, raw)
  {
    var seeds: seq<Entry<R>> := [];
    for j := 0 to |sources|
      invariant Seeds(sources[..j], topic, raw) == Some(seeds)
    {
      var src := sources[j];
      assert sources[..j + 1][..j] == sources[..j];
      if src.topic == topic {
        var added := ReadPerChild(src, raw);
        if added.None? {
          SeedsFail(sources, topic, raw, j + 1);
          return None;
        }
        if src.children == [] {
          assert seeds + added.value == seeds;
        }
        seeds := seeds + added.value;
      }
    }
    assert sources[..|sources|] == sources;
    buffer := Some(seeds);
  }

  /** A record is read anew for every child. */
  method ReadPerChild<B, R>(src: Source<B, R>, raw: B) returns (added: Option<seq<Entry<R>>>)
    ensures src.children == [] ==> added == Some([])
    ensures src.children != [] && src.read(raw).None? ==> added.None?
    ensures src.children != [] && src.read(raw).Some? ==> added == Some(ToEach(src.children, src.read(raw).value))
  {
    var entries: seq<Entry<R>> := [];
    for k := 0 to |src.children|
      invariant k > 0 ==> src.read(raw).Some?
      invariant |entries| == k
      invariant forall i :: 0 <= i < k ==> entries[i] == Entry(src.children[i], src.read(raw).value)
    {
      var r := src.read(raw);
      if r.None? {
        return None;
      }
      entries := entries + [Entry(src.children[k], r.value)];
    }
    assert src.children != [] ==> entries == ToEach(src.children, src.read(raw).value);
    added := Some(entries);
  }

  lemma {:induction false} SeedsFail<B, R>(sources: seq<Source<B, R>>, topic: string, raw: B, j: nat)
    requires j <= |sources| && Seeds(sources[..j], topic, raw).None?
    ensures Seeds(sources, topic, raw).None?
    decreases |sources| - j
  {
    if j < |sources| {
      assert sources[..j + 1][..j] == sources[..j];
      SeedsFail(sources, topic, raw, j + 1);
    } else {
      assert sources[..j] == sources;
    }
  }

  /** One subtopology's graph at one partition. */
  class Graph<W(!new), R(!new), O(!new)> {
    const process: Behaviour<W, R, O>
    var children: Wiring
    var world: W
    var output: seq<O>
    var streamTime: int

    constructor (process: Behaviour<W, R, O>, children: Wiring, world: W)
      ensures this.process == process && this.children == children && this.world == world && output == []
      ensures streamTime == I64_MIN
    {
      this.process := process;
      this.children := children;
      this.world := world;
      this.output := [];
      this.streamTime := I64_MIN;
    }

    /** Drive the buffer to completion.  It terminates on every acyclic graph, whatever state
        the nodes keep and however many records they forward.  The child lists taken out for
        the borrow are put back, on the error path too. */
    method Drain(seeds: seq<Entry<R>>, ghost rank: seq<nat>) returns (ok: bool)
      requires Ranked(children, rank) && Routed(children, seeds)
      modifies this`children, this`world, this`output
      ensures children == old(children)
      ensures DrainsTo(process, children, Start(old(world), seeds, old(output)), world, output, ok)
      ensures Chronicled(process, children, old(world), old(output), seeds, world, output, ok)
    {
      var buffer := seeds;
      ghost var wiring := children;
      ghost var start: Config<W, R, O> := Start(world, seeds, output);
      ghost var c := start;
      ghost var k: nat, m: nat := Top(rank), |buffer|;
      assert Iter(process, wiring, start, 0) == start;
      while |buffer| > 0
        invariant children == wiring
        invariant InRounds(rank, buffer, k, m)
        invariant Reached(process, wiring, start, c)
        invariant c.world == world && c.buffer == buffer && c.output == output && !c.failed
        decreases k, m
      {
        var idx, rec := buffer[0].node, buffer[0].record;
        ReachedStep(process, wiring, start, c);
        c := Step(process, wiring, c);
        var kids := children[idx];
        children := children[idx := []];
        var effect := process(idx, world, rec);
        if effect.Failed? {
          world, output := effect.world, output + effect.outputs;
          children := children[idx := kids];
          assert children == wiring;
          ReachedStops(process, wiring, start, c);
          DrainIsChronicled(process, wiring, start.world, start.output, seeds, world, output, false);
          return false;
        }
        k, m := RoundAdvances(wiring, rank, buffer, k, m, effect.forwards);
        world, output := effect.world, output + effect.outputs;
        buffer := ForwardAll(kids, buffer[1..], effect.forwards);
        children := children[idx := kids];
        assert children == wiring;
      }
      ReachedStops(process, wiring, start, c);
      DrainIsChronicled(process, wiring, start.world, start.output, seeds, world, output, true);
      ok := true;
    }

    /** A record enters the graph.  It raises the stream time, whatever becomes of it.  One that
        cannot be read fails before anything is processed; one of a topic without a source is
        ignored. */
    method Pipe<B>(sources: seq<Source<B, R>>, topic: string, raw: B, timestamp: int, ghost rank: seq<nat>)
      returns (ok: bool)
      requires Ranked(children, rank)
      requires forall j, k :: 0 <= j < |sources| && 0 <= k < |sources[j].children| ==>
        sources[j].children[k] < |children|
      modifies this
      ensures children == old(children)
      ensures streamTime == if timestamp > old(streamTime) then timestamp else old(streamTime)
      ensures match Seeds(sources, topic, raw)
              case None => !ok && world == old(world) && output == old(output)
              case Some(seeds) =>
                && DrainsTo(process, children, Start(old(world), seeds, old(output)), world, output, ok)
                && Chronicled(process, children, old(world), old(output), seeds, world, output, ok)
    {
      if timestamp > streamTime {
        streamTime := timestamp;
      }
      var buffer := Seed(sources, topic, raw);
      if buffer.None? {
        return false;
      }
      SeedsRouted(children, sources, topic, raw);
      ok := Drain(buffer.value, rank);
    }
  }
}
