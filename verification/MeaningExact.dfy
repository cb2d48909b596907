/** That the meaning of a graph is itself a solution of the equations. */
module MeaningExact {
  import opened Common
  import opened LogicalGraph
  import opened Lowering
  import opened Meaning

  predicate Owns(n: Node, name: string) {
    n.name == name || (IsShuffle(n) && n.thunk.value.sink == name)
  }

  /** No two nodes give out the same name, and no repartition names its sink after itself. */
  ghost predicate OwnNames(nodes: seq<Node>) {
    && (forall i, j, name :: 0 <= i < j < |nodes| ==> !(Owns(nodes[i], name) && Owns(nodes[j], name)))
    && (forall i :: 0 <= i < |nodes| && IsShuffle(nodes[i]) ==> nodes[i].thunk.value.sink != nodes[i].name)
  }

  function Owner(nodes: seq<Node>, n: nat, name: string): nat
    requires n <= |nodes|
  {
    if n == 0 then |nodes| else if Owns(nodes[n - 1], name) then n - 1 else Owner(nodes, n - 1, name)
  }

  lemma {:induction false} OwnerIs(nodes: seq<Node>, n: nat, name: string, i: nat)
    requires i < n <= |nodes| && OwnNames(nodes) && Owns(nodes[i], name)
    ensures Owner(nodes, n, name) == i
    decreases n
  {
    if i < n - 1 {
      OwnerIs(nodes, n - 1, name, i);
    }
  }

  /** What runs under a name: a node's flow, or under the name of a repartition's sink what its
      predecessor sends. */
  ghost function FlowNamed<R>(nodes: seq<Node>, aliases: map<nat, nat>, g: Given<R>, name: string): seq<R>
    requires Regular(nodes, aliases)
  {
    var i := Owner(nodes, |nodes|, name);
    if i >= |nodes| then []
    else if name == nodes[i].name then Flow(nodes, aliases, g, i)
    else if nodes[i].predecessors == [] then []
    else Flow(nodes, aliases, g, nodes[i].predecessors[0])
  }

  ghost predicate ReadsByName<R>(nodes: seq<Node>, aliases: map<nat, nat>, g: Given<R>, env: string -> seq<R>)
    requires Regular(nodes, aliases)
  {
    forall name: string :: env(name) == FlowNamed(nodes, aliases, g, name)
  }

  lemma FlowOfHandle<R>(nodes: seq<Node>, aliases: map<nat, nat>, g: Given<R>, env: string -> seq<R>, i: nat)
    requires Regular(nodes, aliases) && OwnNames(nodes) && ReadsByName(nodes, aliases, g, env) && i < |nodes|
    ensures Agrees(nodes, aliases, g, env, i)
  {
    var j := if i in aliases then aliases[i] else i;
    assert HandleAt(nodes, aliases, i) == nodes[j].name;
    OwnerIs(nodes, |nodes|, nodes[j].name, j);
  }

  lemma {:induction false} JoinFrom(n: nat, f: nat -> seq<Emitted>, e: Emitted) returns (i: nat, k: nat)
    requires e in Join(n, f)
    ensures i < n && k < |f(i)| && f(i)[k] == e
    decreases n
  {
    if e in f(n - 1) {
      i := n - 1;
      k :| 0 <= k < |f(i)| && f(i)[k] == e;
    } else {
      i, k := JoinFrom(n - 1, f, e);
    }
  }

  lemma FlowOfSink<R>(nodes: seq<Node>, aliases: map<nat, nat>, g: Given<R>, env: string -> seq<R>, i: nat)
    requires Regular(nodes, aliases) && OwnNames(nodes) && ReadsByName(nodes, aliases, g, env)
    requires i < |nodes| && IsShuffle(nodes[i])
    ensures env(nodes[i].thunk.value.sink) == Flow(nodes, aliases, g, nodes[i].predecessors[0])
  {
    OwnerIs(nodes, |nodes|, nodes[i].thunk.value.sink, i);
  }

  lemma {:induction false} ShuffleSatisfies<R>(
    nodes: seq<Node>, aliases: map<nat, nat>, g: Given<R>, env: string -> seq<R>, i: nat, sink: string, topic: string)
    requires Regular(nodes, aliases) && i < |nodes| && i !in aliases && nodes[i].thunk == Some(Shuffle(sink, topic))
    requires forall p: nat :: p <= i ==> Agrees(nodes, aliases, g, env, p)
    requires env(sink) == Flow(nodes, aliases, g, nodes[i].predecessors[0])
    ensures env(sink) == env(HandleAt(nodes, aliases, nodes[i].predecessors[0]))
    ensures env(nodes[i].name) == Contents(Emissions(nodes, aliases, |nodes|), g, env, [topic])
  {
    assert Agrees(nodes, aliases, g, env, i) && Agrees(nodes, aliases, g, env, nodes[i].predecessors[0]);
    TopicCarriesFlow(nodes, aliases, g, env, i, topic);
  }

  lemma {:induction false} ComputeSatisfies<R>(nodes: seq<Node>, aliases: map<nat, nat>, g: Given<R>,
      env: string -> seq<R>, i: nat)
    requires Regular(nodes, aliases) && i < |nodes| && i !in aliases && nodes[i].thunk == Some(Compute)
    requires forall p: nat :: p <= i ==> Agrees(nodes, aliases, g, env, p)
    ensures env(nodes[i].name) == g.op(i, Streams(env, Names(nodes, aliases, nodes[i].predecessors)))
  {
    assert Agrees(nodes, aliases, g, env, i);
    StreamsAreFlows(nodes, aliases, g, env, i, nodes[i].predecessors);
  }

  lemma {:induction false} NodeSatisfies<R>(nodes: seq<Node>, aliases: map<nat, nat>, g: Given<R>,
      env: string -> seq<R>, i: nat)
    requires Regular(nodes, aliases) && i < |nodes| && i !in aliases
    requires forall p: nat :: p <= i ==> Agrees(nodes, aliases, g, env, p)
    requires IsShuffle(nodes[i]) ==> env(nodes[i].thunk.value.sink) == Flow(nodes, aliases, g, nodes[i].predecessors[0])
    ensures forall e :: e in Emit(nodes, aliases, i) ==> Satisfies(Emissions(nodes, aliases, |nodes|), g, env, e)
  {
    match nodes[i].thunk.value
    case Feed(topics) =>
      assert Agrees(nodes, aliases, g, env, i);
      FeedReadsInputs(nodes, aliases, g, env, i);
    case Compute =>
      ComputeSatisfies(nodes, aliases, g, env, i);
    case Write(topic) =>
      assert Agrees(nodes, aliases, g, env, i) && Agrees(nodes, aliases, g, env, nodes[i].predecessors[0]);
    case Shuffle(sink, topic) =>
      ShuffleSatisfies(nodes, aliases, g, env, i, sink, topic);
  }

  /** The flow, read by name, solves the equations of the lowering: the solutions that carry it
      exist. */
  lemma MeaningIsSolution<R>(nodes: seq<Node>, aliases: map<nat, nat>, g: Given<R>) returns (env: string -> seq<R>)
    requires Regular(nodes, aliases) && OwnNames(nodes)
    ensures Solves(Emissions(nodes, aliases, |nodes|), g, env)
    ensures forall i: nat :: i < |nodes| ==> Agrees(nodes, aliases, g, env, i)
  {
    env := (name: string) => FlowNamed(nodes, aliases, g, name);
    var t, f := Emissions(nodes, aliases, |nodes|), Emits(nodes, aliases);
    forall i: nat | i < |nodes|
      ensures Agrees(nodes, aliases, g, env, i)
    {
      FlowOfHandle(nodes, aliases, g, env, i);
    }
    forall m | 0 <= m < |t|
      ensures Satisfies(t, g, env, t[m])
    {
      var i, k := JoinFrom(|nodes|, f, t[m]);
      assert f(i) == Emit(nodes, aliases, i);
      if IsShuffle(nodes[i]) {
        FlowOfSink(nodes, aliases, g, env, i);
      }
      NodeSatisfies(nodes, aliases, g, env, i);
    }
  }
}
