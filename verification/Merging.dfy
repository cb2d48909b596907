/** When merging repartitions preserves meaning: exactly when every repartition topic keeps its
    origins. */
module Merging {
  import opened Common
  import opened LogicalGraph
  import opened Lowering
  import opened Meaning
  import opened MeaningExact

  // ---- where the records of a stream come from ----

  /** An outside topic, or the output of a processor. */
  datatype Origin = FromTopic(topic: string) | FromNode(id: nat)

  function TopicOrigins(topics: seq<string>): seq<Origin> {
    if topics == [] then [] else TopicOrigins(topics[..|topics| - 1]) + [FromTopic(topics[|topics| - 1])]
  }

  /** The origins of a node's stream, in order, followed back through sinks and repartition topics
      only. */
  ghost function Origins(nodes: seq<Node>, aliases: map<nat, nat>, i: nat): seq<Origin>
    requires i < |nodes| && Regular(nodes, aliases)
    decreases i, 1, 0
  {
    if i in aliases then Origins(nodes, aliases, aliases[i])
    else
      match nodes[i].thunk.value
      case Feed(topics) => TopicOrigins(topics)
      case Compute => [FromNode(i)]
      case Write(_) => Origins(nodes, aliases, nodes[i].predecessors[0])
      case Shuffle(_, topic) =>
        FeedersBelow(nodes, aliases, i, topic);
        AllOrigins(nodes, aliases, i, Feeders(nodes, aliases, topic))
  }

  ghost function AllOrigins(nodes: seq<Node>, aliases: map<nat, nat>, bound: nat, ids: seq<nat>): seq<Origin>
    requires bound < |nodes| && Regular(nodes, aliases) && Below(ids, bound)
    decreases bound, 0, |ids|
  {
    if ids == [] then []
    else AllOrigins(nodes, aliases, bound, ids[..|ids| - 1]) + Origins(nodes, aliases, ids[|ids| - 1])
  }

  ghost predicate OriginsAlike(nodes: seq<Node>, aliases: map<nat, nat>, i: nat)
    requires i < |nodes| && Regular(nodes, aliases)
  {
    Origins(nodes, map[], i) == Origins(nodes, aliases, i)
  }

  /** Merging leaves every repartition with the origins it had. */
  ghost predicate SameOrigins(nodes: seq<Node>, aliases: map<nat, nat>)
    requires Regular(nodes, aliases)
  {
    forall i: nat :: i < |nodes| && IsShuffle(nodes[i]) ==> OriginsAlike(nodes, aliases, i)
  }

  // ---- a stream is the concatenation of its origins ----

  function Carry<R>(value: Origin -> seq<R>, os: seq<Origin>): seq<R> {
    if os == [] then [] else Carry(value, os[..|os| - 1]) + value(os[|os| - 1])
  }

  lemma {:induction false} CarryConcat<R>(value: Origin -> seq<R>, a: seq<Origin>, b: seq<Origin>)
    ensures Carry(value, a + b) == Carry(value, a) + Carry(value, b)
    decreases |b|
  {
    if b == [] {
      assert a + b == a;
    } else {
      CarryConcat(value, a, b[..|b| - 1]);
      assert (a + b)[..|a + b| - 1] == a + b[..|b| - 1];
      Regroup(Carry(value, a), Carry(value, b[..|b| - 1]), value(b[|b| - 1]));
    }
  }

  lemma CarryOne<R>(value: Origin -> seq<R>, o: Origin)
    ensures Carry(value, [o]) == value(o)
  {
    assert [o][..0] == [];
  }

  lemma {:induction false} CarrySame<R>(v: Origin -> seq<R>, w: Origin -> seq<R>, os: seq<Origin>)
    requires forall k :: 0 <= k < |os| ==> v(os[k]) == w(os[k])
    ensures Carry(v, os) == Carry(w, os)
    decreases |os|
  {
    if os != [] {
      CarrySame(v, w, os[..|os| - 1]);
    }
  }

  lemma {:induction false} CarryTopics<R>(g: Given<R>, value: Origin -> seq<R>, topics: seq<string>)
    requires forall t: string :: value(FromTopic(t)) == g.input(t)
    ensures Carry(value, TopicOrigins(topics)) == Inputs(g, topics)
    decreases |topics|
  {
    if topics != [] {
      CarryTopics(g, value, topics[..|topics| - 1]);
      CarryConcat(value, TopicOrigins(topics[..|topics| - 1]), [FromTopic(topics[|topics| - 1])]);
      CarryOne(value, FromTopic(topics[|topics| - 1]));
    }
  }

  /** What each origin sends. */
  ghost predicate Values<R>(nodes: seq<Node>, aliases: map<nat, nat>, g: Given<R>, value: Origin -> seq<R>)
    requires Regular(nodes, aliases)
  {
    && (forall t: string :: value(FromTopic(t)) == g.input(t))
    && (forall i: nat :: i < |nodes| ==> value(FromNode(i)) == Flow(nodes, aliases, g, i))
  }

  lemma {:induction false} FlowIsCarried<R>(nodes: seq<Node>, aliases: map<nat, nat>, g: Given<R>,
      value: Origin -> seq<R>, i: nat)
    requires i < |nodes| && Regular(nodes, aliases) && Values(nodes, aliases, g, value)
    ensures Flow(nodes, aliases, g, i) == Carry(value, Origins(nodes, aliases, i))
    decreases i, 1, 0
  {
    if i in aliases {
      FlowIsCarried(nodes, aliases, g, value, aliases[i]);
    } else {
      match nodes[i].thunk.value
      case Feed(topics) =>
        CarryTopics(g, value, topics);
      case Compute =>
        CarryOne(value, FromNode(i));
      case Write(_) =>
        FlowIsCarried(nodes, aliases, g, value, nodes[i].predecessors[0]);
      case Shuffle(_, topic) =>
        FeedersBelow(nodes, aliases, i, topic);
        FlowsAreCarried(nodes, aliases, g, value, i, Feeders(nodes, aliases, topic));
    }
  }

  lemma {:induction false} FlowsAreCarried<R>(
    nodes: seq<Node>, aliases: map<nat, nat>, g: Given<R>, value: Origin -> seq<R>, bound: nat, ids: seq<nat>)
    requires bound < |nodes| && Regular(nodes, aliases) && Values(nodes, aliases, g, value) && Below(ids, bound)
    ensures Flatten(Flows(nodes, aliases, g, bound, ids)) == Carry(value, AllOrigins(nodes, aliases, bound, ids))
    decreases bound, 0, |ids|
  {
    if ids != [] {
      var init, last := ids[..|ids| - 1], ids[|ids| - 1];
      FlowsAreCarried(nodes, aliases, g, value, bound, init);
      FlowIsCarried(nodes, aliases, g, value, last);
      FlattenConcat(Flows(nodes, aliases, g, bound, init), Flow(nodes, aliases, g, last));
      CarryConcat(value, AllOrigins(nodes, aliases, bound, init), Origins(nodes, aliases, last));
    }
  }

  lemma FlattenConcat<R>(streams: seq<seq<R>>, s: seq<R>)
    ensures Flatten(streams + [s]) == Flatten(streams) + s
  {
    assert (streams + [s])[..|streams|] == streams;
  }

  // ---- the same origins, the same meaning ----

  predicate Upto(os: seq<Origin>, bound: nat) {
    forall k :: 0 <= k < |os| && os[k].FromNode? ==> os[k].id < bound
  }

  lemma {:induction false} TopicsUpto(topics: seq<string>, bound: nat)
    ensures Upto(TopicOrigins(topics), bound)
    decreases |topics|
  {
    if topics != [] {
      TopicsUpto(topics[..|topics| - 1], bound);
    }
  }

  lemma {:induction false} OriginsUpto(nodes: seq<Node>, aliases: map<nat, nat>, i: nat)
    requires i < |nodes| && Regular(nodes, aliases)
    ensures Upto(Origins(nodes, aliases, i), i + 1) && (IsShuffle(nodes[i]) ==> Upto(Origins(nodes, aliases, i), i))
    decreases i, 1, 0
  {
    if i in aliases {
      OriginsUpto(nodes, aliases, aliases[i]);
    } else {
      match nodes[i].thunk.value
      case Feed(topics) =>
        TopicsUpto(topics, i);
      case Compute =>
      case Write(_) =>
        OriginsUpto(nodes, aliases, nodes[i].predecessors[0]);
      case Shuffle(_, topic) =>
        FeedersBelow(nodes, aliases, i, topic);
        AllOriginsUpto(nodes, aliases, i, Feeders(nodes, aliases, topic));
    }
  }

  lemma {:induction false} AllOriginsUpto(nodes: seq<Node>, aliases: map<nat, nat>, bound: nat, ids: seq<nat>)
    requires bound < |nodes| && Regular(nodes, aliases) && Below(ids, bound)
    ensures Upto(AllOrigins(nodes, aliases, bound, ids), bound)
    decreases bound, 0, |ids|
  {
    if ids != [] {
      AllOriginsUpto(nodes, aliases, bound, ids[..|ids| - 1]);
      OriginsUpto(nodes, aliases, ids[|ids| - 1]);
    }
  }

  ghost function ValueIn<R>(nodes: seq<Node>, aliases: map<nat, nat>, g: Given<R>): (value: Origin -> seq<R>)
    requires Regular(nodes, aliases)
    ensures Values(nodes, aliases, g, value)
  {
    (o: Origin) =>
      match o
      case FromTopic(t) => g.input(t)
      case FromNode(i) => if i < |nodes| then Flow(nodes, aliases, g, i) else []
  }

  ghost predicate FlowsAlike<R>(nodes: seq<Node>, aliases: map<nat, nat>, g: Given<R>, i: nat)
    requires i < |nodes| && Regular(nodes, aliases)
  {
    Flow(nodes, map[], g, i) == Flow(nodes, aliases, g, i)
  }

  lemma {:induction false} SameFlow<R>(nodes: seq<Node>, aliases: map<nat, nat>, g: Given<R>, i: nat)
    requires i < |nodes| && Regular(nodes, aliases) && SameOrigins(nodes, aliases)
    ensures FlowsAlike(nodes, aliases, g, i)
    decreases i
  {
    forall p: nat | p < i
      ensures FlowsAlike(nodes, aliases, g, p)
    {
      SameFlow(nodes, aliases, g, p);
    }
    if IsShuffle(nodes[i]) {
      SameShuffle(nodes, aliases, g, i);
    } else {
      assert i in aliases ==> Alike(nodes, i, aliases[i]);
      match nodes[i].thunk.value
      case Feed(_) =>
      case Compute =>
        SameFlows(nodes, aliases, g, i, nodes[i].predecessors);
      case Write(_) =>
        assert FlowsAlike(nodes, aliases, g, nodes[i].predecessors[0]);
    }
  }

  lemma {:induction false} SameFlows<R>(nodes: seq<Node>, aliases: map<nat, nat>, g: Given<R>, bound: nat,
      ids: seq<nat>)
    requires bound < |nodes| && Regular(nodes, aliases) && Below(ids, bound)
    requires forall p: nat :: p < bound ==> FlowsAlike(nodes, aliases, g, p)
    ensures Flows(nodes, map[], g, bound, ids) == Flows(nodes, aliases, g, bound, ids)
    decreases |ids|
  {
    if ids != [] {
      SameFlows(nodes, aliases, g, bound, ids[..|ids| - 1]);
      assert FlowsAlike(nodes, aliases, g, ids[|ids| - 1]);
    }
  }

  lemma SameShuffle<R>(nodes: seq<Node>, aliases: map<nat, nat>, g: Given<R>, i: nat)
    requires i < |nodes| && Regular(nodes, aliases) && SameOrigins(nodes, aliases) && IsShuffle(nodes[i])
    requires forall p: nat :: p < i ==> FlowsAlike(nodes, aliases, g, p)
    ensures FlowsAlike(nodes, aliases, g, i)
  {
    var v, w := ValueIn(nodes, map[], g), ValueIn(nodes, aliases, g);
    var os := Origins(nodes, aliases, i);
    FlowIsCarried(nodes, map[], g, v, i);
    FlowIsCarried(nodes, aliases, g, w, i);
    OriginsUpto(nodes, aliases, i);
    forall k | 0 <= k < |os|
      ensures v(os[k]) == w(os[k])
    {
      if os[k].FromNode? {
        assert FlowsAlike(nodes, aliases, g, os[k].id);
      }
    }
    CarrySame(v, w, os);
  }

  // ---- other origins, another meaning ----

  /** Every outside topic carries its own name, and every processor sends its own number. */
  function Trace(): Given<Origin> {
    Given((t: string) => [FromTopic(t)], (id: nat, _: seq<seq<Origin>>) => [FromNode(id)])
  }

  lemma {:induction false} InputsTraced(topics: seq<string>)
    ensures Inputs(Trace(), topics) == TopicOrigins(topics)
    decreases |topics|
  {
    if topics != [] {
      InputsTraced(topics[..|topics| - 1]);
    }
  }

  lemma {:induction false} FlowIsTraced(nodes: seq<Node>, aliases: map<nat, nat>, i: nat)
    requires i < |nodes| && Regular(nodes, aliases)
    ensures Flow(nodes, aliases, Trace(), i) == Origins(nodes, aliases, i)
    decreases i, 1, 0
  {
    if i in aliases {
      FlowIsTraced(nodes, aliases, aliases[i]);
    } else {
      match nodes[i].thunk.value
      case Feed(topics) =>
        InputsTraced(topics);
      case Compute =>
      case Write(_) =>
        FlowIsTraced(nodes, aliases, nodes[i].predecessors[0]);
      case Shuffle(_, topic) =>
        FeedersBelow(nodes, aliases, i, topic);
        FlowsAreTraced(nodes, aliases, i, Feeders(nodes, aliases, topic));
    }
  }

  lemma {:induction false} FlowsAreTraced(nodes: seq<Node>, aliases: map<nat, nat>, bound: nat, ids: seq<nat>)
    requires bound < |nodes| && Regular(nodes, aliases) && Below(ids, bound)
    ensures Flatten(Flows(nodes, aliases, Trace(), bound, ids)) == AllOrigins(nodes, aliases, bound, ids)
    decreases bound, 0, |ids|
  {
    if ids != [] {
      var init, last := ids[..|ids| - 1], ids[|ids| - 1];
      FlowsAreTraced(nodes, aliases, bound, init);
      FlowIsTraced(nodes, aliases, last);
      FlattenConcat(Flows(nodes, aliases, Trace(), bound, init), Flow(nodes, aliases, Trace(), last));
    }
  }

  // ---- streams with the same origins ----

  /** Two nodes with the same origins carry the same stream on every input. A repartition hands on
      what it is given when it has the origins of its predecessor. */
  lemma SameStream<R>(nodes: seq<Node>, aliases: map<nat, nat>, g: Given<R>, env: string -> seq<R>, i: nat, j: nat)
    requires Regular(nodes, aliases) && Solves(Emissions(nodes, aliases, |nodes|), g, env)
    requires i < |nodes| && j < |nodes| && Origins(nodes, aliases, i) == Origins(nodes, aliases, j)
    ensures env(HandleAt(nodes, aliases, i)) == env(HandleAt(nodes, aliases, j))
  {
    var value := ValueIn(nodes, aliases, g);
    FlowIsCarried(nodes, aliases, g, value, i);
    FlowIsCarried(nodes, aliases, g, value, j);
    SolutionIsMeaning(nodes, aliases, g, env, i);
    SolutionIsMeaning(nodes, aliases, g, env, j);
  }

  /** Two nodes with different origins do not, on some input. */
  lemma OtherStream(nodes: seq<Node>, aliases: map<nat, nat>, i: nat, j: nat)
    returns (g: Given<Origin>, env: string -> seq<Origin>)
    requires Regular(nodes, aliases) && OwnNames(nodes)
    requires i < |nodes| && j < |nodes| && Origins(nodes, aliases, i) != Origins(nodes, aliases, j)
    ensures Solves(Emissions(nodes, aliases, |nodes|), g, env)
    ensures env(HandleAt(nodes, aliases, i)) != env(HandleAt(nodes, aliases, j))
  {
    g := Trace();
    env := MeaningIsSolution(nodes, aliases, g);
    assert Agrees(nodes, aliases, g, env, i) && Agrees(nodes, aliases, g, env, j);
    FlowIsTraced(nodes, aliases, i);
    FlowIsTraced(nodes, aliases, j);
  }

  // ---- merging ----

  /** Merging preserves meaning if the origins stay: whatever flows through the plain and the
      optimized topology, every node's handle carries the same stream in both. */
  lemma MergingPreservesMeaning<R>(
    nodes: seq<Node>, aliases: map<nat, nat>, g: Given<R>, plain: string -> seq<R>, optimized: string -> seq<R>, i: nat)
    requires Regular(nodes, aliases) && SameOrigins(nodes, aliases) && i < |nodes|
    requires Solves(Emissions(nodes, map[], |nodes|), g, plain)
    requires Solves(Emissions(nodes, aliases, |nodes|), g, optimized)
    ensures plain(HandleAt(nodes, map[], i)) == optimized(HandleAt(nodes, aliases, i))
  {
    SolutionIsMeaning(nodes, map[], g, plain, i);
    SolutionIsMeaning(nodes, aliases, g, optimized, i);
    SameFlow(nodes, aliases, g, i);
  }

  /** Merging changes the meaning otherwise: on some input the plain and the optimized topology run
      apart at a repartition. */
  lemma MergingChangesMeaning(nodes: seq<Node>, aliases: map<nat, nat>)
    returns (g: Given<Origin>, plain: string -> seq<Origin>, optimized: string -> seq<Origin>, i: nat)
    requires Regular(nodes, aliases) && OwnNames(nodes) && !SameOrigins(nodes, aliases)
    ensures Solves(Emissions(nodes, map[], |nodes|), g, plain)
    ensures Solves(Emissions(nodes, aliases, |nodes|), g, optimized)
    ensures i < |nodes| && IsShuffle(nodes[i])
    ensures plain(HandleAt(nodes, map[], i)) != optimized(HandleAt(nodes, aliases, i))
  {
    i :| i < |nodes| && IsShuffle(nodes[i]) && !OriginsAlike(nodes, aliases, i);
    g := Trace();
    plain := MeaningIsSolution(nodes, map[], g);
    optimized := MeaningIsSolution(nodes, aliases, g);
    assert Agrees(nodes, map[], g, plain, i) && Agrees(nodes, aliases, g, optimized, i);
    FlowIsTraced(nodes, map[], i);
    FlowIsTraced(nodes, aliases, i);
  }

  // ---- which graphs keep their origins ----

  /** What the optimizer produces is a graph the results above speak of. */
  lemma MergedIsRegular(nodes: seq<Node>, aliases: map<nat, nat>)
    requires Built(nodes) && AllWired(nodes) && Internal(nodes) && WellFed(nodes) && Merged(nodes, aliases)
    ensures Regular(nodes, aliases)
  {
    forall i: nat | i in aliases
      ensures aliases[i] !in aliases
    {
      MergedIsFlat(nodes, aliases, i);
    }
  }

  function Kept(aliases: map<nat, nat>, i: nat): nat {
    if i in aliases then aliases[i] else i
  }

  function TopicAt(nodes: seq<Node>, i: nat): string {
    if i < |nodes| && IsShuffle(nodes[i]) then nodes[i].thunk.value.topic else ""
  }

  ghost predicate FedAlike(nodes: seq<Node>, aliases: map<nat, nat>, i: nat) {
    Feeders(nodes, map[], TopicAt(nodes, i)) == Feeders(nodes, aliases, TopicAt(nodes, Kept(aliases, i)))
  }

  /** Each repartition's topic had the feeders that the topic it ends up with has. */
  ghost predicate Aligned(nodes: seq<Node>, aliases: map<nat, nat>) {
    forall i: nat :: i < |nodes| && IsShuffle(nodes[i]) ==> FedAlike(nodes, aliases, i)
  }

  /** Merging is sound on aligned graphs, whether or not repartitions share topics. */
  lemma AlignedKeepsOrigins(nodes: seq<Node>, aliases: map<nat, nat>)
    requires Regular(nodes, aliases) && Aligned(nodes, aliases)
    ensures SameOrigins(nodes, aliases)
  {
    forall i: nat | i < |nodes|
      ensures OriginsAlike(nodes, aliases, i)
    {
      AlignedAt(nodes, aliases, i);
    }
  }

  lemma {:induction false} AlignedAt(nodes: seq<Node>, aliases: map<nat, nat>, i: nat)
    requires i < |nodes| && Regular(nodes, aliases) && Aligned(nodes, aliases)
    ensures OriginsAlike(nodes, aliases, i)
    decreases i
  {
    forall p: nat | p < i
      ensures OriginsAlike(nodes, aliases, p)
    {
      AlignedAt(nodes, aliases, p);
    }
    if IsShuffle(nodes[i]) {
      AlignedShuffle(nodes, aliases, i);
    } else {
      assert i in aliases ==> Alike(nodes, i, aliases[i]);
      if nodes[i].thunk.value.Write? {
        assert OriginsAlike(nodes, aliases, nodes[i].predecessors[0]);
      }
    }
  }

  lemma {:induction false} ShuffleOrigins(nodes: seq<Node>, aliases: map<nat, nat>, i: nat, ids: seq<nat>)
    requires i < |nodes| && Regular(nodes, aliases) && IsShuffle(nodes[i]) && i !in aliases
    requires ids == Feeders(nodes, aliases, TopicAt(nodes, i))
    ensures Below(ids, i) && Origins(nodes, aliases, i) == AllOrigins(nodes, aliases, i, ids)
  {
    FeedersBelow(nodes, aliases, i, TopicAt(nodes, i));
  }

  lemma {:induction false} AlignedShuffle(nodes: seq<Node>, aliases: map<nat, nat>, i: nat)
    requires i < |nodes| && Regular(nodes, aliases) && FedAlike(nodes, aliases, i) && IsShuffle(nodes[i])
    requires forall p: nat :: p < i ==> OriginsAlike(nodes, aliases, p)
    ensures OriginsAlike(nodes, aliases, i)
  {
    var j := Kept(aliases, i);
    assert j <= i && IsShuffle(nodes[j]) && j !in aliases;
    assert Origins(nodes, aliases, i) == Origins(nodes, aliases, j);
    var ids := Feeders(nodes, aliases, TopicAt(nodes, j));
    ShuffleOrigins(nodes, aliases, j, ids);
    ShuffleOrigins(nodes, map[], i, ids);
    AllAlike(nodes, aliases, i, j, ids);
  }

  lemma {:induction false} AllAlike(nodes: seq<Node>, aliases: map<nat, nat>, i: nat, j: nat, ids: seq<nat>)
    requires j <= i < |nodes| && Regular(nodes, aliases) && Below(ids, j)
    requires forall p: nat :: p < i ==> OriginsAlike(nodes, aliases, p)
    ensures AllOrigins(nodes, map[], i, ids) == AllOrigins(nodes, aliases, j, ids)
    decreases |ids|
  {
    if ids != [] {
      AllAlike(nodes, aliases, i, j, ids[..|ids| - 1]);
      assert OriginsAlike(nodes, aliases, ids[|ids| - 1]);
    }
  }

  ghost predicate OnlyShuffle(nodes: seq<Node>, i: nat) {
    forall k :: 0 <= k < |nodes| && k != i ==> !Shuffles(nodes[k], TopicAt(nodes, i))
  }

  /** No repartition that takes part in a merge shares its topic. */
  ghost predicate Isolated(nodes: seq<Node>, aliases: map<nat, nat>) {
    forall i: nat :: i in aliases ==> OnlyShuffle(nodes, i) && OnlyShuffle(nodes, aliases[i])
  }

  lemma {:induction false} JoinOnly(n: nat, f: nat -> seq<nat>, i: nat)
    requires i < n && forall k: nat :: k < n && k != i ==> f(k) == []
    ensures Join(n, f) == f(i)
    decreases n
  {
    if n - 1 > i {
      JoinOnly(n - 1, f, i);
    } else {
      JoinNothing(n - 1, f);
    }
  }

  lemma FeedsAlone(nodes: seq<Node>, aliases: map<nat, nat>, i: nat)
    requires i < |nodes| && AllWired(nodes) && IsShuffle(nodes[i]) && i !in aliases && OnlyShuffle(nodes, i)
    ensures Feeders(nodes, aliases, TopicAt(nodes, i)) == nodes[i].predecessors
  {
    var f := FeederBy(nodes, aliases, TopicAt(nodes, i));
    assert f(i) == nodes[i].predecessors;
    JoinOnly(|nodes|, f, i);
  }

  /** So merging is sound where the merged repartitions have their topics to themselves, whatever
      topics the others share. */
  lemma IsolatedIsAligned(nodes: seq<Node>, aliases: map<nat, nat>)
    requires Regular(nodes, aliases) && Isolated(nodes, aliases)
    ensures Aligned(nodes, aliases)
  {
    forall i: nat | i < |nodes| && IsShuffle(nodes[i])
      ensures FedAlike(nodes, aliases, i)
    {
      if i in aliases {
        FeedsAlone(nodes, map[], i);
        FeedsAlone(nodes, aliases, aliases[i]);
      } else {
        UnmergedKeepsFeeders(nodes, aliases, i);
      }
    }
  }

  lemma UnmergedKeepsFeeders(nodes: seq<Node>, aliases: map<nat, nat>, i: nat)
    requires i < |nodes| && IsShuffle(nodes[i]) && i !in aliases && Isolated(nodes, aliases)
    ensures Feeders(nodes, map[], TopicAt(nodes, i)) == Feeders(nodes, aliases, TopicAt(nodes, i))
  {
    var topic := TopicAt(nodes, i);
    var f, g := FeederBy(nodes, map[], topic), FeederBy(nodes, aliases, topic);
    forall k: nat
      ensures f(k) == g(k)
    {
      assert k in aliases && k < |nodes| && Shuffles(nodes[k], topic) ==> OnlyShuffle(nodes, k);
    }
    JoinSame(|nodes|, f, g);
  }
}
