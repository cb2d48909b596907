/** Lowering a logical graph to a processor topology, in node order. */
module Lowering {
  import opened Common
  import opened LogicalGraph

  /** A node of the lowered topology. A sink is internal when it writes a repartition topic. */
  datatype Emitted =
    | Source(name: string, topics: seq<string>)
    | Processor(name: string, op: nat, parents: seq<string>)
    | Sink(name: string, topic: string, parent: string, internal: bool)

  datatype LowerState = LowerState(topology: seq<Emitted>, handles: map<nat, string>)

  /** A sink and a repartition have one predecessor, and a repartition lowers as one. */
  predicate Wired(n: Node) {
    && (n.thunk.Some? && (n.thunk.value.Write? || n.thunk.value.Shuffle?) ==> |n.predecessors| == 1)
    && (n.kind.Repartition? ==> n.thunk.Some? && n.thunk.value.Shuffle?)
  }

  /** The nodes whose handles lowering a node looks up. */
  function Reads(n: Node): seq<nat> {
    if n.thunk.None? || n.thunk.value.Feed? then [] else n.predecessors
  }

  // ---- what lowering yields ----

  function HandleAt(nodes: seq<Node>, aliases: map<nat, nat>, i: nat): string {
    if i >= |nodes| then ""
    else if i in aliases && aliases[i] < i then HandleAt(nodes, aliases, aliases[i])
    else nodes[i].name
  }

  function Names(nodes: seq<Node>, aliases: map<nat, nat>, ids: seq<nat>): (r: seq<string>)
    ensures |r| == |ids|
    ensures forall k :: 0 <= k < |ids| ==> r[k] == HandleAt(nodes, aliases, ids[k])
  {
    if ids == [] then []
    else Names(nodes, aliases, ids[..|ids| - 1]) + [HandleAt(nodes, aliases, ids[|ids| - 1])]
  }

  function Emit(nodes: seq<Node>, aliases: map<nat, nat>, i: nat): seq<Emitted>
    requires i < |nodes| && Wired(nodes[i])
  {
    var n := nodes[i];
    if i in aliases || n.thunk.None? then []
    else
      match n.thunk.value
      case Feed(topics) => [Source(n.name, topics)]
      case Compute => [Processor(n.name, i, Names(nodes, aliases, n.predecessors))]
      case Write(topic) => [Sink(n.name, topic, HandleAt(nodes, aliases, n.predecessors[0]), false)]
      case Shuffle(sink, topic) =>
        [Sink(sink, topic, HandleAt(nodes, aliases, n.predecessors[0]), true), Source(n.name, [topic])]
  }

  function Join<T>(n: nat, f: nat -> seq<T>): seq<T> {
    if n == 0 then [] else Join(n - 1, f) + f(n - 1)
  }

  function Emits(nodes: seq<Node>, aliases: map<nat, nat>): nat -> seq<Emitted> {
    (i: nat) => if i < |nodes| && Wired(nodes[i]) then Emit(nodes, aliases, i) else []
  }

  /** What lowering the first `n` nodes adds. */
  function Emissions(nodes: seq<Node>, aliases: map<nat, nat>, n: nat): seq<Emitted> {
    Join(n, Emits(nodes, aliases))
  }

  predicate Recorded(nodes: seq<Node>, aliases: map<nat, nat>, i: nat) {
    i < |nodes| && (i in aliases || nodes[i].thunk.Some?)
  }

  /** Everything that lowering a node looks up was recorded before. */
  predicate Resolves(nodes: seq<Node>, aliases: map<nat, nat>, i: nat)
    requires i < |nodes|
  {
    if i in aliases then aliases[i] < i && Recorded(nodes, aliases, aliases[i])
    else forall k :: 0 <= k < |Reads(nodes[i])| ==>
      Reads(nodes[i])[k] < i && Recorded(nodes, aliases, Reads(nodes[i])[k])
  }

  /** The handles of the recorded nodes below `n`. */
  ghost predicate HandlesOf(nodes: seq<Node>, aliases: map<nat, nat>, handles: map<nat, string>, n: nat) {
    forall i: nat :: HandleOf(nodes, aliases, handles, n, i)
  }

  ghost predicate HandleOf(nodes: seq<Node>, aliases: map<nat, nat>, handles: map<nat, string>, n: nat, i: nat) {
    && (i in handles <==> i < n && Recorded(nodes, aliases, i))
    && (i in handles ==> handles[i] == HandleAt(nodes, aliases, i))
  }

  ghost predicate LoweredTo(nodes: seq<Node>, aliases: map<nat, nat>, state: LowerState, n: nat)
  {
    state.topology == Emissions(nodes, aliases, n) && HandlesOf(nodes, aliases, state.handles, n)
  }

  /** Lowers every node in order; a missing handle ends it. */
  method Lower(nodes: seq<Node>, aliases: map<nat, nat>) returns (r: Option<LowerState>)
    requires forall i :: 0 <= i < |nodes| ==> Wired(nodes[i])
    ensures r.Some? <==> forall i :: 0 <= i < |nodes| ==> Resolves(nodes, aliases, i)
    ensures r.Some? ==> LoweredTo(nodes, aliases, r.value, |nodes|)
  {
    var state := LowerState([], map[]);
    for i := 0 to |nodes|
      invariant LoweredTo(nodes, aliases, state, i)
      invariant forall j :: 0 <= j < i ==> Resolves(nodes, aliases, j)
    {
      var next := LowerNode(nodes, aliases, i, state);
      if next.None? {
        return None;
      }
      state := next.value;
    }
    r := Some(state);
  }

  method LowerNode(nodes: seq<Node>, aliases: map<nat, nat>, i: nat, state: LowerState) returns (r: Option<LowerState>)
    requires i < |nodes| && forall i :: 0 <= i < |nodes| ==> Wired(nodes[i])
    requires LoweredTo(nodes, aliases, state, i)
    ensures r.Some? <==> Resolves(nodes, aliases, i)
    ensures r.Some? ==> LoweredTo(nodes, aliases, r.value, i + 1)
  {
    if i in aliases {
      assert HandleOf(nodes, aliases, state.handles, i, aliases[i]);
      if aliases[i] !in state.handles {
        return None;
      }
      HandleAdded(nodes, aliases, state.handles, i);
      r := Some(state.(handles := state.handles[i := state.handles[aliases[i]]]));
    } else if nodes[i].thunk.None? {
      NoHandleAdded(nodes, aliases, state.handles, i);
      r := Some(state);
    } else {
      var parents := LookUp(nodes, aliases, state.handles, Reads(nodes[i]), i);
      if parents.None? {
        return None;
      }
      RunEmits(nodes, aliases, i, parents.value);
      HandleAdded(nodes, aliases, state.handles, i);
      r := Some(LowerState(state.topology + Run(nodes[i], i, parents.value), state.handles[i := nodes[i].name]));
    }
  }

  /** The handles of the nodes a thunk reads. */
  method LookUp(
    nodes: seq<Node>, aliases: map<nat, nat>, handles: map<nat, string>, ids: seq<nat>, ghost n: nat)
    returns (r: Option<seq<string>>)
    requires HandlesOf(nodes, aliases, handles, n)
    ensures r.Some? <==> forall k :: 0 <= k < |ids| ==> ids[k] < n && Recorded(nodes, aliases, ids[k])
    ensures r.Some? ==> r.value == Names(nodes, aliases, ids)
  {
    var names := [];
    for k := 0 to |ids|
      invariant forall j :: 0 <= j < k ==> ids[j] < n && Recorded(nodes, aliases, ids[j])
      invariant names == Names(nodes, aliases, ids[..k])
    {
      assert HandleOf(nodes, aliases, handles, n, ids[k]);
      if ids[k] !in handles {
        return None;
      }
      assert ids[..k + 1][..k] == ids[..k];
      names := names + [handles[ids[k]]];
    }
    assert ids[..|ids|] == ids;
    r := Some(names);
  }

  /** What a thunk adds, given its parents' names. */
  function Run(n: Node, i: nat, parents: seq<string>): seq<Emitted>
    requires n.thunk.Some? && |parents| == |Reads(n)| && Wired(n)
  {
    match n.thunk.value
    case Feed(topics) => [Source(n.name, topics)]
    case Compute => [Processor(n.name, i, parents)]
    case Write(topic) => [Sink(n.name, topic, parents[0], false)]
    case Shuffle(sink, topic) => [Sink(sink, topic, parents[0], true), Source(n.name, [topic])]
  }

  lemma HandleAdded(nodes: seq<Node>, aliases: map<nat, nat>, handles: map<nat, string>, i: nat)
    requires HandlesOf(nodes, aliases, handles, i) && Recorded(nodes, aliases, i)
    ensures HandlesOf(nodes, aliases, handles[i := HandleAt(nodes, aliases, i)], i + 1)
  {
    var handles', n := handles[i := HandleAt(nodes, aliases, i)], i + 1;
    forall j: nat
      ensures HandleOf(nodes, aliases, handles', n, j)
    {
      assert HandleOf(nodes, aliases, handles, i, j);
    }
  }

  lemma NoHandleAdded(nodes: seq<Node>, aliases: map<nat, nat>, handles: map<nat, string>, i: nat)
    requires HandlesOf(nodes, aliases, handles, i) && !Recorded(nodes, aliases, i)
    ensures HandlesOf(nodes, aliases, handles, i + 1)
  {
    var n := i + 1;
    forall j: nat
      ensures HandleOf(nodes, aliases, handles, n, j)
    {
      assert HandleOf(nodes, aliases, handles, i, j);
    }
  }

  /** A graph grown by adding nodes, each with something to lower, always lowers: as it is, and
      after its repartitions were merged. */
  lemma AlwaysLowers(nodes: seq<Node>, aliases: map<nat, nat>, i: nat)
    requires Built(nodes) && i < |nodes| && forall j :: 0 <= j < |nodes| ==> nodes[j].thunk.Some?
    requires aliases == map[] || Merged(nodes, aliases)
    ensures Resolves(nodes, aliases, i)
  {
    if i in aliases {
      MergedIsFlat(nodes, aliases, i);
    }
  }

  lemma RunEmits(nodes: seq<Node>, aliases: map<nat, nat>, i: nat, parents: seq<string>)
    requires i < |nodes| && Wired(nodes[i]) && i !in aliases && nodes[i].thunk.Some?
    requires parents == Names(nodes, aliases, Reads(nodes[i]))
    ensures Run(nodes[i], i, parents) == Emit(nodes, aliases, i)
  {
  }
}
