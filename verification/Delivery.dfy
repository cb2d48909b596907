/** What a topology delivers to the topics outside it, and that merging repartitions does not change
    it. */
module Delivery {
  import opened Common
  import opened LogicalGraph
  import opened Lowering
  import opened Meaning
  import opened MeaningExact
  import opened Merging
  import opened MergingAnywhere

  // ---- the sinks of a topology ----

  predicate WritesOut(e: Emitted, topic: string) {
    e.Sink? && !e.internal && e.topic == topic
  }

  /** The parents of the sinks that write an outside topic, in order. */
  function Outlets(t: seq<Emitted>, topic: string): seq<string> {
    if t == [] then []
    else
      var e := t[|t| - 1];
      Outlets(t[..|t| - 1], topic) + if WritesOut(e, topic) then [e.parent] else []
  }

  /** What a topology delivers to a topic, sink by sink. */
  function Delivered<R>(t: seq<Emitted>, env: string -> seq<R>, topic: string): seq<seq<R>> {
    Streams(env, Outlets(t, topic))
  }

  // ---- the sinks of a logical graph ----

  predicate Sends(n: Node, topic: string) {
    n.thunk == Some(Write(topic))
  }

  /** The predecessor of node `i`, if `i` is lowered and writes the topic. */
  function Sender(nodes: seq<Node>, aliases: map<nat, nat>, topic: string, i: nat): seq<nat> {
    if i < |nodes| && i !in aliases && Sends(nodes[i], topic) then nodes[i].predecessors else []
  }

  function SenderBy(nodes: seq<Node>, aliases: map<nat, nat>, topic: string): nat -> seq<nat> {
    (i: nat) => Sender(nodes, aliases, topic, i)
  }

  /** The predecessors of the nodes that write a topic, in node order. */
  function Senders(nodes: seq<Node>, aliases: map<nat, nat>, topic: string): seq<nat> {
    Join(|nodes|, SenderBy(nodes, aliases, topic))
  }

  // ---- the sinks that a lowering adds ----

  lemma {:induction false} OutletsConcat(t: seq<Emitted>, es: seq<Emitted>, topic: string)
    ensures Outlets(t + es, topic) == Outlets(t, topic) + Outlets(es, topic)
    decreases |es|
  {
    if es == [] {
      assert t + es == t;
    } else {
      OutletsConcat(t, es[..|es| - 1], topic);
      assert (t + es)[..|t + es| - 1] == t + es[..|es| - 1];
    }
  }

  lemma OutletsOne(e: Emitted, topic: string)
    ensures Outlets([e], topic) == if WritesOut(e, topic) then [e.parent] else []
  {
    assert [e][..0] == [];
  }

  lemma OutletsOfPair(sink: Emitted, source: Emitted, topic: string)
    requires sink.Sink? && sink.internal && source.Source?
    ensures Outlets([sink, source], topic) == []
  {
    OutletsOne(sink, topic);
    OutletsOne(source, topic);
    OutletsConcat([sink], [source], topic);
    assert [sink, source] == [sink] + [source];
  }

  lemma {:induction false} WriteDelivers(nodes: seq<Node>, aliases: map<nat, nat>, i: nat, topic: string)
    requires i < |nodes| && Wired(nodes[i]) && i !in aliases && Sends(nodes[i], topic)
    ensures Outlets(Emit(nodes, aliases, i), topic) == Names(nodes, aliases, nodes[i].predecessors)
  {
    var p, es := nodes[i].predecessors[0], Emit(nodes, aliases, i);
    assert nodes[i].predecessors == [p] && es == [es[0]];
    NamesOne(nodes, aliases, p);
    OutletsOne(es[0], topic);
  }

  lemma {:induction false} OthersDeliverNothing(nodes: seq<Node>, aliases: map<nat, nat>, i: nat, topic: string)
    requires i < |nodes| && Wired(nodes[i]) && (i in aliases || !Sends(nodes[i], topic))
    ensures Outlets(Emit(nodes, aliases, i), topic) == []
  {
    var es := Emit(nodes, aliases, i);
    if |es| == 1 {
      assert es == [es[0]];
      OutletsOne(es[0], topic);
    } else if |es| == 2 {
      assert es == [es[0], es[1]];
      OutletsOfPair(es[0], es[1], topic);
    }
  }

  lemma {:induction false} EmitDelivers(nodes: seq<Node>, aliases: map<nat, nat>, i: nat, topic: string)
    requires i < |nodes| && Wired(nodes[i])
    ensures Outlets(Emit(nodes, aliases, i), topic) == Names(nodes, aliases, Sender(nodes, aliases, topic, i))
  {
    if i in aliases || !Sends(nodes[i], topic) {
      OthersDeliverNothing(nodes, aliases, i, topic);
    } else {
      WriteDelivers(nodes, aliases, i, topic);
    }
  }

  lemma {:induction false} JoinDelivers(n: nat, f: nat -> seq<Emitted>, g: nat -> seq<string>, topic: string)
    requires forall i: nat :: i < n ==> Outlets(f(i), topic) == g(i)
    ensures Outlets(Join(n, f), topic) == Join(n, g)
    decreases n
  {
    if n > 0 {
      JoinDelivers(n - 1, f, g, topic);
      OutletsConcat(Join(n - 1, f), f(n - 1), topic);
    }
  }

  /** The sinks that a lowering gives an outside topic are those of the nodes that write it, in node
      order, each off the handle of its node's predecessor. */
  lemma OutletsAre(nodes: seq<Node>, aliases: map<nat, nat>, state: LowerState, topic: string)
    requires forall i :: 0 <= i < |nodes| ==> Wired(nodes[i])
    requires LoweredTo(nodes, aliases, state, |nodes|)
    ensures Outlets(state.topology, topic) == Names(nodes, aliases, Senders(nodes, aliases, topic))
  {
    var f, h := Emits(nodes, aliases), SenderBy(nodes, aliases, topic);
    var g := (i: nat) => Names(nodes, aliases, h(i));
    forall i: nat | i < |nodes|
      ensures Outlets(f(i), topic) == g(i)
    {
      EmitDelivers(nodes, aliases, i, topic);
    }
    JoinDelivers(|nodes|, f, g, topic);
    var m := (ids: seq<nat>) => Names(nodes, aliases, ids);
    forall a: seq<nat>, b: seq<nat>
      ensures Distributes(m, a, b)
    {
      NamesConcat(nodes, aliases, a, b);
    }
    JoinMapped(|nodes|, h, g, m);
  }

  lemma {:induction false} StreamAt<R>(env: string -> seq<R>, names: seq<string>, k: nat)
    requires k < |names|
    ensures |Streams(env, names)| == |names| && Streams(env, names)[k] == env(names[k])
    decreases |names|
  {
    if |names| > 1 {
      StreamAt(env, names[..|names| - 1], if k < |names| - 1 then k else 0);
    }
  }

  /** A stream for each sender, in order: the one that its handle carries. */
  ghost predicate FromSenders<R>(nodes: seq<Node>, aliases: map<nat, nat>, env: string -> seq<R>, topic: string,
      streams: seq<seq<R>>)
  {
    var ids := Senders(nodes, aliases, topic);
    |streams| == |ids| && forall k :: 0 <= k < |ids| ==> streams[k] == env(HandleAt(nodes, aliases, ids[k]))
  }

  lemma DeliveredFromSenders<R>(nodes: seq<Node>, aliases: map<nat, nat>, state: LowerState, env: string -> seq<R>,
      topic: string)
    requires forall i :: 0 <= i < |nodes| ==> Wired(nodes[i])
    requires LoweredTo(nodes, aliases, state, |nodes|)
    ensures FromSenders(nodes, aliases, env, topic, Delivered(state.topology, env, topic))
  {
    var ids := Senders(nodes, aliases, topic);
    OutletsAre(nodes, aliases, state, topic);
    forall k | 0 <= k < |ids|
      ensures |Delivered(state.topology, env, topic)| == |ids|
      ensures Delivered(state.topology, env, topic)[k] == env(HandleAt(nodes, aliases, ids[k]))
    {
      StreamAt(env, Outlets(state.topology, topic), k);
    }
  }

  // ---- what is delivered is the flow ----

  lemma SendersBelow(nodes: seq<Node>, aliases: map<nat, nat>, topic: string)
    requires InRange(nodes)
    ensures Below(Senders(nodes, aliases, topic), |nodes|)
  {
    JoinBelow(|nodes|, SenderBy(nodes, aliases, topic), |nodes|);
  }

  /** Only repartitions are merged away. */
  lemma SendersStay(nodes: seq<Node>, aliases: map<nat, nat>, topic: string)
    requires AllWired(nodes) && Redirects(nodes, aliases)
    ensures Senders(nodes, aliases, topic) == Senders(nodes, map[], topic)
  {
    var f, g := SenderBy(nodes, aliases, topic), SenderBy(nodes, map[], topic);
    forall i: nat
      ensures f(i) == g(i)
    {
      assert i in aliases ==> Alike(nodes, i, aliases[i]);
    }
    JoinSame(|nodes|, f, g);
  }

  /** A stream for each node that writes the topic, in node order: the flow of its predecessor. */
  ghost predicate CarriesFlows<R>(nodes: seq<Node>, aliases: map<nat, nat>, g: Given<R>, topic: string,
      streams: seq<seq<R>>)
    requires Regular(nodes, aliases)
  {
    var ids := Senders(nodes, map[], topic);
    && |streams| == |ids|
    && forall k :: 0 <= k < |ids| ==> ids[k] < |nodes| && streams[k] == Flow(nodes, aliases, g, ids[k])
  }

  /** In every solution, plain or merged, an outside topic receives exactly the flows of the nodes that
      are sent to it. */
  lemma DeliversFlows<R>(nodes: seq<Node>, aliases: map<nat, nat>, g: Given<R>, state: LowerState,
      env: string -> seq<R>, topic: string)
    requires Regular(nodes, aliases) && LoweredTo(nodes, aliases, state, |nodes|) && Solves(state.topology, g, env)
    ensures CarriesFlows(nodes, aliases, g, topic, Delivered(state.topology, env, topic))
  {
    var ids := Senders(nodes, aliases, topic);
    SendersStay(nodes, aliases, topic);
    SendersBelow(nodes, aliases, topic);
    DeliveredFromSenders(nodes, aliases, state, env, topic);
    forall k | 0 <= k < |ids|
      ensures Agrees(nodes, aliases, g, env, ids[k])
    {
      SolutionIsMeaning(nodes, aliases, g, env, ids[k]);
    }
  }

  // ---- merging and delivery ----

  /** Where the origins stay, the plain and the optimized topology deliver the same to every topic. */
  lemma MergingKeepsDeliveries<R>(nodes: seq<Node>, aliases: map<nat, nat>, g: Given<R>, plain: LowerState,
      optimized: LowerState, env: string -> seq<R>, env': string -> seq<R>, topic: string)
    requires Regular(nodes, aliases) && SameOrigins(nodes, aliases)
    requires LoweredTo(nodes, map[], plain, |nodes|) && Solves(plain.topology, g, env)
    requires LoweredTo(nodes, aliases, optimized, |nodes|) && Solves(optimized.topology, g, env')
    ensures Delivered(plain.topology, env, topic) == Delivered(optimized.topology, env', topic)
  {
    var ids := Senders(nodes, map[], topic);
    DeliversFlows(nodes, map[], g, plain, env, topic);
    DeliversFlows(nodes, aliases, g, optimized, env', topic);
    forall k | 0 <= k < |ids|
      ensures FlowsAlike(nodes, aliases, g, ids[k])
    {
      SameFlow(nodes, aliases, g, ids[k]);
    }
  }

  /** Where merging changes the origins of a node that is sent to a topic, the topic receives something
      else on some input. */
  lemma MergingChangesDelivery(nodes: seq<Node>, aliases: map<nat, nat>, plain: LowerState, optimized: LowerState,
      topic: string, k: nat) returns (g: Given<Origin>, env: string -> seq<Origin>, env': string -> seq<Origin>)
    requires Regular(nodes, aliases) && OwnNames(nodes)
    requires LoweredTo(nodes, map[], plain, |nodes|) && LoweredTo(nodes, aliases, optimized, |nodes|)
    requires k < |Senders(nodes, map[], topic)| && Senders(nodes, map[], topic)[k] < |nodes|
    requires !OriginsAlike(nodes, aliases, Senders(nodes, map[], topic)[k])
    ensures Solves(plain.topology, g, env) && Solves(optimized.topology, g, env')
    ensures Delivered(plain.topology, env, topic) != Delivered(optimized.topology, env', topic)
  {
    g := Trace();
    env := MeaningIsSolution(nodes, map[], g);
    env' := MeaningIsSolution(nodes, aliases, g);
    DeliversFlows(nodes, map[], g, plain, env, topic);
    DeliversFlows(nodes, aliases, g, optimized, env', topic);
    FlowIsTraced(nodes, map[], Senders(nodes, map[], topic)[k]);
    FlowIsTraced(nodes, aliases, Senders(nodes, map[], topic)[k]);
  }

  /** On graphs of any shape, streams that agree handle by handle are delivered alike. */
  lemma UnfoldedDelivers<R>(nodes: seq<Node>, aliases: map<nat, nat>, plain: LowerState, optimized: LowerState,
      env: string -> seq<R>, env': string -> seq<R>, topic: string)
    requires AllWired(nodes) && InRange(nodes) && Redirects(nodes, aliases)
    requires LoweredTo(nodes, map[], plain, |nodes|) && LoweredTo(nodes, aliases, optimized, |nodes|)
    requires Unfolds(nodes, aliases, env', env)
    ensures Delivered(plain.topology, env, topic) == Delivered(optimized.topology, env', topic)
  {
    SendersStay(nodes, aliases, topic);
    SendersBelow(nodes, aliases, topic);
    DeliveredFromSenders(nodes, map[], plain, env, topic);
    DeliveredFromSenders(nodes, aliases, optimized, env', topic);
  }

  /** Where feeders are kept, whatever the plain topology can deliver the optimized one can, on every
      graph. */
  lemma AlignedDeliversAll<R>(nodes: seq<Node>, aliases: map<nat, nat>, g: Given<R>, plain: LowerState,
      optimized: LowerState, env: string -> seq<R>, topic: string)
    requires AllWired(nodes) && InRange(nodes) && Redirects(nodes, aliases)
    requires Aligned(nodes, aliases) && SourcesAligned(nodes, aliases)
    requires LoweredTo(nodes, map[], plain, |nodes|) && LoweredTo(nodes, aliases, optimized, |nodes|)
    requires Solves(plain.topology, g, env)
    ensures Solves(optimized.topology, g, env)
    ensures Delivered(plain.topology, env, topic) == Delivered(optimized.topology, env, topic)
  {
    AlignedCarriesOver(nodes, aliases, g, env);
    UnfoldedDelivers(nodes, aliases, plain, optimized, env, env, topic);
  }

  /** And nothing else. */
  lemma AlignedDeliversOnly<R>(nodes: seq<Node>, aliases: map<nat, nat>, g: Given<R>, plain: LowerState,
      optimized: LowerState, env: string -> seq<R>, topic: string) returns (env': string -> seq<R>)
    requires AllWired(nodes) && InRange(nodes) && OwnNames(nodes) && Redirects(nodes, aliases)
    requires Aligned(nodes, aliases) && SourcesAligned(nodes, aliases)
    requires LoweredTo(nodes, map[], plain, |nodes|) && LoweredTo(nodes, aliases, optimized, |nodes|)
    requires Solves(optimized.topology, g, env)
    ensures Solves(plain.topology, g, env')
    ensures Delivered(plain.topology, env', topic) == Delivered(optimized.topology, env, topic)
  {
    env' := AlignedCarriesBack(nodes, aliases, g, env);
    UnfoldedDelivers(nodes, aliases, plain, optimized, env', env, topic);
  }
}
