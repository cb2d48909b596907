/** What a graph means: the lowered topology as equations between streams, the flow through the
    logical graph, and that every solution of the equations is the flow. */
module Meaning {
  import opened Common
  import opened LogicalGraph
  import opened Lowering

  /** What is given: the records of every outside topic, and what each processor makes of the
      streams it reads. */
  datatype Given<!R> = Given(input: string -> seq<R>, op: (nat, seq<seq<R>>) -> seq<R>)

  // ---- the lowered topology as equations ----

  /** The parents of the internal sinks that write a topic, in order. */
  function Writers(t: seq<Emitted>, topic: string): seq<string> {
    if t == [] then []
    else
      var e := t[|t| - 1];
      Writers(t[..|t| - 1], topic) + if e.Sink? && e.internal && e.topic == topic then [e.parent] else []
  }

  function Streams<R>(env: string -> seq<R>, names: seq<string>): seq<seq<R>> {
    if names == [] then [] else Streams(env, names[..|names| - 1]) + [env(names[|names| - 1])]
  }

  function Flatten<R>(streams: seq<seq<R>>): seq<R> {
    if streams == [] then [] else Flatten(streams[..|streams| - 1]) + streams[|streams| - 1]
  }

  /** A repartition topic holds what its sinks write; any other topic is given. */
  function Content<R>(t: seq<Emitted>, g: Given<R>, env: string -> seq<R>, topic: string): seq<R> {
    if Writers(t, topic) == [] then g.input(topic) else Flatten(Streams(env, Writers(t, topic)))
  }

  function Contents<R>(t: seq<Emitted>, g: Given<R>, env: string -> seq<R>, topics: seq<string>): seq<R> {
    if topics == [] then []
    else Contents(t, g, env, topics[..|topics| - 1]) + Content(t, g, env, topics[|topics| - 1])
  }

  /** One stream per name: a source yields its topics, a processor what it makes of its parents'
      streams, and a sink takes its parent's stream. */
  ghost predicate Satisfies<R>(t: seq<Emitted>, g: Given<R>, env: string -> seq<R>, e: Emitted) {
    match e
    case Source(name, topics) => env(name) == Contents(t, g, env, topics)
    case Processor(name, op, parents) => env(name) == g.op(op, Streams(env, parents))
    case Sink(name, _, parent, _) => env(name) == env(parent)
  }

  ghost predicate Solves<R>(t: seq<Emitted>, g: Given<R>, env: string -> seq<R>) {
    forall k :: 0 <= k < |t| ==> Satisfies(t, g, env, t[k])
  }

  // ---- who feeds a repartition topic ----

  predicate IsShuffle(n: Node) {
    n.thunk.Some? && n.thunk.value.Shuffle?
  }

  predicate Shuffles(n: Node, topic: string) {
    IsShuffle(n) && n.thunk.value.topic == topic
  }

  /** The predecessor of node `i`, if `i` is lowered and writes the topic. */
  function Feeder(nodes: seq<Node>, aliases: map<nat, nat>, topic: string, i: nat): seq<nat> {
    if i < |nodes| && Wired(nodes[i]) && i !in aliases && Shuffles(nodes[i], topic) then nodes[i].predecessors else []
  }

  function FeederBy(nodes: seq<Node>, aliases: map<nat, nat>, topic: string): nat -> seq<nat> {
    (i: nat) => Feeder(nodes, aliases, topic, i)
  }

  /** The nodes whose streams a repartition topic carries, in order. */
  function Feeders(nodes: seq<Node>, aliases: map<nat, nat>, topic: string): seq<nat> {
    Join(|nodes|, FeederBy(nodes, aliases, topic))
  }

  // ---- the logical graph ----

  function Inputs<R>(g: Given<R>, topics: seq<string>): seq<R> {
    if topics == [] then [] else Inputs(g, topics[..|topics| - 1]) + g.input(topics[|topics| - 1])
  }

  predicate Below(ids: seq<nat>, bound: nat) {
    forall k :: 0 <= k < |ids| ==> ids[k] < bound
  }

  ghost predicate Ordered(nodes: seq<Node>) {
    forall i :: 0 <= i < |nodes| ==> Below(nodes[i].predecessors, i)
  }

  ghost predicate AllWired(nodes: seq<Node>) {
    forall i :: 0 <= i < |nodes| ==> Wired(nodes[i]) && nodes[i].thunk.Some?
  }

  /** No source reads a repartition topic. */
  ghost predicate Internal(nodes: seq<Node>) {
    forall i, j, topic :: 0 <= i < |nodes| && 0 <= j < |nodes| && Shuffles(nodes[i], topic) ==>
      !(nodes[j].thunk.Some? && nodes[j].thunk.value.Feed? && topic in nodes[j].thunk.value.topics)
  }

  /** Repartitions may share a topic, but nothing that feeds it comes after a reader of it: no stream
      runs through a topic back into itself. */
  ghost predicate WellFed(nodes: seq<Node>) {
    forall i, j, topic ::
      0 <= i < |nodes| && 0 <= j < |nodes| && Shuffles(nodes[i], topic) && Shuffles(nodes[j], topic) ==>
      Below(nodes[j].predecessors, i)
  }

  /** Aliases lead to an earlier repartition off the same predecessor. */
  ghost predicate Redirects(nodes: seq<Node>, aliases: map<nat, nat>) {
    forall i: nat :: i in aliases ==>
      i < |nodes| && aliases[i] < i && aliases[i] !in aliases && Alike(nodes, i, aliases[i])
  }

  ghost predicate Regular(nodes: seq<Node>, aliases: map<nat, nat>) {
    Ordered(nodes) && AllWired(nodes) && Internal(nodes) && WellFed(nodes) && Redirects(nodes, aliases)
  }

  lemma {:induction false} JoinBelow(n: nat, f: nat -> seq<nat>, bound: nat)
    requires forall i: nat :: i < n ==> Below(f(i), bound)
    ensures Below(Join(n, f), bound)
    decreases n
  {
    if n > 0 {
      JoinBelow(n - 1, f, bound);
      assert Below(f(n - 1), bound);
    }
  }

  lemma FeedersBelow(nodes: seq<Node>, aliases: map<nat, nat>, i: nat, topic: string)
    requires WellFed(nodes) && i < |nodes| && Shuffles(nodes[i], topic)
    ensures Below(Feeders(nodes, aliases, topic), i)
  {
    var f := FeederBy(nodes, aliases, topic);
    forall j: nat
      ensures Below(f(j), i)
    {
    }
    JoinBelow(|nodes|, f, i);
  }

  /** What flows out of a node: a repartition passes on what all feeders of its topic send, and one
      that was merged into another passes on what the other does. */
  ghost function Flow<R>(nodes: seq<Node>, aliases: map<nat, nat>, g: Given<R>, i: nat): seq<R>
    requires i < |nodes| && Regular(nodes, aliases)
    decreases i, 1, 0
  {
    var n := nodes[i];
    if i in aliases then Flow(nodes, aliases, g, aliases[i])
    else
      match n.thunk.value
      case Feed(topics) => Inputs(g, topics)
      case Compute => g.op(i, Flows(nodes, aliases, g, i, n.predecessors))
      case Write(_) => Flow(nodes, aliases, g, n.predecessors[0])
      case Shuffle(_, topic) =>
        FeedersBelow(nodes, aliases, i, topic);
        Flatten(Flows(nodes, aliases, g, i, Feeders(nodes, aliases, topic)))
  }

  ghost function Flows<R>(nodes: seq<Node>, aliases: map<nat, nat>, g: Given<R>, bound: nat, ids: seq<nat>): seq<seq<R>>
    requires bound < |nodes| && Regular(nodes, aliases)
    requires Below(ids, bound)
    decreases bound, 0, |ids|
  {
    if ids == [] then []
    else Flows(nodes, aliases, g, bound, ids[..|ids| - 1]) + [Flow(nodes, aliases, g, ids[|ids| - 1])]
  }

  // ---- the writers of a topic ----

  lemma {:induction false} WritersConcat(t: seq<Emitted>, es: seq<Emitted>, topic: string)
    ensures Writers(t + es, topic) == Writers(t, topic) + Writers(es, topic)
    decreases |es|
  {
    if es == [] {
      assert t + es == t;
    } else {
      WritersConcat(t, es[..|es| - 1], topic);
      assert (t + es)[..|t + es| - 1] == t + es[..|es| - 1];
    }
  }

  lemma WritersOne(e: Emitted, topic: string)
    ensures Writers([e], topic) == if e.Sink? && e.internal && e.topic == topic then [e.parent] else []
  {
    assert [e][..0] == [];
  }

  lemma WritersOfShuffle(sink: Emitted, source: Emitted, topic: string)
    requires sink.Sink? && sink.internal && source.Source?
    ensures Writers([sink, source], topic) == if sink.topic == topic then [sink.parent] else []
  {
    WritersOne(sink, topic);
    WritersOne(source, topic);
    WritersConcat([sink], [source], topic);
    assert [sink, source] == [sink] + [source];
  }

  lemma {:induction false} NamesOne(nodes: seq<Node>, aliases: map<nat, nat>, p: nat)
    ensures Names(nodes, aliases, [p]) == [HandleAt(nodes, aliases, p)]
  {
  }

  lemma {:induction false} ShuffleWrites(nodes: seq<Node>, aliases: map<nat, nat>, i: nat, topic: string)
    requires i < |nodes| && Wired(nodes[i]) && i !in aliases && IsShuffle(nodes[i])
    ensures Writers(Emit(nodes, aliases, i), topic) ==
      if Shuffles(nodes[i], topic) then [HandleAt(nodes, aliases, nodes[i].predecessors[0])] else []
  {
    var n := nodes[i];
    var sink := Sink(n.thunk.value.sink, n.thunk.value.topic, HandleAt(nodes, aliases, n.predecessors[0]), true);
    var source := Source(n.name, [n.thunk.value.topic]);
    assert Emit(nodes, aliases, i) == [sink, source];
    WritersOfShuffle(sink, source, topic);
  }

  lemma {:induction false} OthersWriteNothing(nodes: seq<Node>, aliases: map<nat, nat>, i: nat, topic: string)
    requires i < |nodes| && Wired(nodes[i]) && (i in aliases || !IsShuffle(nodes[i]))
    ensures Writers(Emit(nodes, aliases, i), topic) == []
  {
    var es := Emit(nodes, aliases, i);
    if es != [] {
      assert es == [es[0]];
      WritersOne(es[0], topic);
    }
  }

  lemma {:induction false} EmitWrites(nodes: seq<Node>, aliases: map<nat, nat>, i: nat, topic: string)
    requires i < |nodes| && Wired(nodes[i])
    ensures Writers(Emit(nodes, aliases, i), topic) == Names(nodes, aliases, Feeder(nodes, aliases, topic, i))
  {
    if i in aliases || !IsShuffle(nodes[i]) {
      OthersWriteNothing(nodes, aliases, i, topic);
    } else {
      var p := nodes[i].predecessors[0];
      assert nodes[i].predecessors == [p];
      NamesOne(nodes, aliases, p);
      ShuffleWrites(nodes, aliases, i, topic);
    }
  }

  lemma {:induction false} JoinWrites(n: nat, f: nat -> seq<Emitted>, g: nat -> seq<string>, topic: string)
    requires forall i: nat :: i < n ==> Writers(f(i), topic) == g(i)
    ensures Writers(Join(n, f), topic) == Join(n, g)
    decreases n
  {
    if n > 0 {
      JoinWrites(n - 1, f, g, topic);
      WritersConcat(Join(n - 1, f), f(n - 1), topic);
    }
  }

  lemma {:induction false} NamesConcat(nodes: seq<Node>, aliases: map<nat, nat>, a: seq<nat>, b: seq<nat>)
    ensures Names(nodes, aliases, a + b) == Names(nodes, aliases, a) + Names(nodes, aliases, b)
  {
  }

  ghost predicate Distributes<A, B>(m: seq<A> -> seq<B>, a: seq<A>, b: seq<A>) {
    m(a + b) == m(a) + m(b)
  }

  lemma {:induction false} JoinMapped<A(!new), B>(n: nat, f: nat -> seq<A>, g: nat -> seq<B>, m: seq<A> -> seq<B>)
    requires m([]) == [] && forall a: seq<A>, b: seq<A> :: Distributes(m, a, b)
    requires forall i: nat :: i < n ==> g(i) == m(f(i))
    ensures Join(n, g) == m(Join(n, f))
    decreases n
  {
    if n > 0 {
      JoinMapped(n - 1, f, g, m);
      assert Distributes(m, Join(n - 1, f), f(n - 1));
    }
  }

  lemma {:induction false} JoinHas(n: nat, f: nat -> seq<Emitted>, i: nat)
    requires i < n
    ensures forall k :: 0 <= k < |f(i)| ==> f(i)[k] in Join(n, f)
    decreases n
  {
    if i < n - 1 {
      JoinHas(n - 1, f, i);
    }
  }

  /** The sinks that a lowering gives a topic are those of the topic's feeders. */
  lemma WritersAre(nodes: seq<Node>, aliases: map<nat, nat>, topic: string)
    requires AllWired(nodes)
    ensures Writers(Emissions(nodes, aliases, |nodes|), topic) == Names(nodes, aliases, Feeders(nodes, aliases, topic))
  {
    var f, h := Emits(nodes, aliases), FeederBy(nodes, aliases, topic);
    var g := (i: nat) => Names(nodes, aliases, h(i));
    forall i: nat | i < |nodes|
      ensures Writers(f(i), topic) == g(i)
    {
      EmitWrites(nodes, aliases, i, topic);
    }
    JoinWrites(|nodes|, f, g, topic);
    var m := (ids: seq<nat>) => Names(nodes, aliases, ids);
    forall a: seq<nat>, b: seq<nat>
      ensures Distributes(m, a, b)
    {
      NamesConcat(nodes, aliases, a, b);
    }
    JoinMapped(|nodes|, h, g, m);
  }

  lemma {:induction false} JoinNothing(n: nat, f: nat -> seq<nat>)
    requires forall j: nat :: j < n ==> f(j) == []
    ensures Join(n, f) == []
    decreases n
  {
    if n > 0 {
      JoinNothing(n - 1, f);
    }
  }

  lemma {:induction false} JoinSomething(n: nat, f: nat -> seq<nat>, i: nat)
    requires i < n && f(i) != []
    ensures Join(n, f) != []
    decreases n
  {
    if i < n - 1 {
      JoinSomething(n - 1, f, i);
    }
  }

  lemma FeedTopicHasNoWriter(nodes: seq<Node>, aliases: map<nat, nat>, i: nat, topic: string)
    requires AllWired(nodes) && Internal(nodes) && i < |nodes|
    requires nodes[i].thunk.value.Feed? && topic in nodes[i].thunk.value.topics
    ensures Writers(Emissions(nodes, aliases, |nodes|), topic) == []
  {
    var f := FeederBy(nodes, aliases, topic);
    forall j: nat
      ensures f(j) == []
    {
      assert j < |nodes| ==> !Shuffles(nodes[j], topic);
    }
    WritersAre(nodes, aliases, topic);
    JoinNothing(|nodes|, f);
  }

  lemma OwnTopicIsFed(nodes: seq<Node>, aliases: map<nat, nat>, i: nat, topic: string)
    requires AllWired(nodes) && i < |nodes| && i !in aliases && Shuffles(nodes[i], topic)
    ensures Feeders(nodes, aliases, topic) != []
  {
    var f := FeederBy(nodes, aliases, topic);
    assert f(i) == nodes[i].predecessors;
    JoinSomething(|nodes|, f, i);
  }

  // ---- every solution is the flow ----

  ghost predicate Agrees<R>(nodes: seq<Node>, aliases: map<nat, nat>, g: Given<R>, env: string -> seq<R>, i: nat)
    requires i < |nodes| && Regular(nodes, aliases)
  {
    env(HandleAt(nodes, aliases, i)) == Flow(nodes, aliases, g, i)
  }

  lemma {:induction false} StreamsAreFlows<R>(
    nodes: seq<Node>, aliases: map<nat, nat>, g: Given<R>, env: string -> seq<R>, bound: nat, ids: seq<nat>)
    requires bound < |nodes| && Regular(nodes, aliases)
    requires Below(ids, bound) && forall k :: 0 <= k < |ids| ==> Agrees(nodes, aliases, g, env, ids[k])
    ensures Streams(env, Names(nodes, aliases, ids)) == Flows(nodes, aliases, g, bound, ids)
    decreases |ids|
  {
    if ids != [] {
      StreamsAreFlows(nodes, aliases, g, env, bound, ids[..|ids| - 1]);
      var names := Names(nodes, aliases, ids);
      assert names[..|names| - 1] == Names(nodes, aliases, ids[..|ids| - 1]);
    }
  }

  lemma {:induction false} ContentsAreInputs<R>(t: seq<Emitted>, g: Given<R>, env: string -> seq<R>,
      topics: seq<string>)
    requires forall k :: 0 <= k < |topics| ==> Writers(t, topics[k]) == []
    ensures Contents(t, g, env, topics) == Inputs(g, topics)
    decreases |topics|
  {
    if topics != [] {
      ContentsAreInputs(t, g, env, topics[..|topics| - 1]);
    }
  }

  lemma ContentOfWriters<R>(t: seq<Emitted>, g: Given<R>, env: string -> seq<R>, topic: string)
    requires Writers(t, topic) != []
    ensures Contents(t, g, env, [topic]) == Flatten(Streams(env, Writers(t, topic)))
  {
    assert [topic][..0] == [];
    assert Contents(t, g, env, [topic]) == [] + Content(t, g, env, topic);
  }

  /** What a repartition's source reads, when its feeders carry their flows. */
  lemma TopicCarriesFlow<R>(nodes: seq<Node>, aliases: map<nat, nat>, g: Given<R>, env: string -> seq<R>, i: nat,
      topic: string)
    requires Regular(nodes, aliases) && i < |nodes| && i !in aliases && Shuffles(nodes[i], topic)
    requires forall p: nat :: p < i ==> Agrees(nodes, aliases, g, env, p)
    ensures Contents(Emissions(nodes, aliases, |nodes|), g, env, [topic]) == Flow(nodes, aliases, g, i)
  {
    var ids := Feeders(nodes, aliases, topic);
    FeedersBelow(nodes, aliases, i, topic);
    OwnTopicIsFed(nodes, aliases, i, topic);
    WritersAre(nodes, aliases, topic);
    ContentOfWriters(Emissions(nodes, aliases, |nodes|), g, env, topic);
    StreamsAreFlows(nodes, aliases, g, env, i, ids);
  }

  lemma SolvedAt<R>(nodes: seq<Node>, aliases: map<nat, nat>, g: Given<R>, env: string -> seq<R>, i: nat, k: nat)
    requires Solves(Emissions(nodes, aliases, |nodes|), g, env)
    requires i < |nodes| && Wired(nodes[i]) && k < |Emit(nodes, aliases, i)|
    ensures Satisfies(Emissions(nodes, aliases, |nodes|), g, env, Emit(nodes, aliases, i)[k])
  {
    var f := Emits(nodes, aliases);
    assert f(i) == Emit(nodes, aliases, i);
    JoinHas(|nodes|, f, i);
  }

  /** In every solution of a lowering's equations, plain or merged, each node's handle carries the
      node's flow. */
  lemma {:induction false} SolutionIsMeaning<R>(nodes: seq<Node>, aliases: map<nat, nat>, g: Given<R>,
      env: string -> seq<R>, i: nat)
    requires Regular(nodes, aliases) && Solves(Emissions(nodes, aliases, |nodes|), g, env) && i < |nodes|
    ensures Agrees(nodes, aliases, g, env, i)
    decreases i
  {
    forall p: nat | p < i
      ensures Agrees(nodes, aliases, g, env, p)
    {
      SolutionIsMeaning(nodes, aliases, g, env, p);
    }
    if i in aliases {
      assert Agrees(nodes, aliases, g, env, aliases[i]);
    } else {
      NodeIsMeaning(nodes, aliases, g, env, i);
    }
  }

  lemma NodeIsMeaning<R>(nodes: seq<Node>, aliases: map<nat, nat>, g: Given<R>, env: string -> seq<R>, i: nat)
    requires Regular(nodes, aliases) && Solves(Emissions(nodes, aliases, |nodes|), g, env) && i < |nodes|
    requires i !in aliases
    requires forall p: nat :: p < i ==> Agrees(nodes, aliases, g, env, p)
    ensures Agrees(nodes, aliases, g, env, i)
  {
    match nodes[i].thunk.value
    case Feed(topics) =>
      SolvedAt(nodes, aliases, g, env, i, 0);
      FeedReadsInputs(nodes, aliases, g, env, i);
    case Compute =>
      SolvedAt(nodes, aliases, g, env, i, 0);
      StreamsAreFlows(nodes, aliases, g, env, i, nodes[i].predecessors);
    case Write(topic) =>
      SolvedAt(nodes, aliases, g, env, i, 0);
      assert Agrees(nodes, aliases, g, env, nodes[i].predecessors[0]);
    case Shuffle(sink, topic) =>
      SolvedAt(nodes, aliases, g, env, i, 1);
      TopicCarriesFlow(nodes, aliases, g, env, i, topic);
  }

  lemma FeedReadsInputs<R>(nodes: seq<Node>, aliases: map<nat, nat>, g: Given<R>, env: string -> seq<R>, i: nat)
    requires AllWired(nodes) && Internal(nodes) && i < |nodes| && nodes[i].thunk.value.Feed?
    ensures var topics := nodes[i].thunk.value.topics;
      Contents(Emissions(nodes, aliases, |nodes|), g, env, topics) == Inputs(g, topics)
  {
    var t, topics := Emissions(nodes, aliases, |nodes|), nodes[i].thunk.value.topics;
    forall k | 0 <= k < |topics|
      ensures Writers(t, topics[k]) == []
    {
      FeedTopicHasNoWriter(nodes, aliases, i, topics[k]);
    }
    ContentsAreInputs(t, g, env, topics);
  }

  // ---- the two passes do not interfere ----

  ghost predicate FlagsOf(nodes: seq<Node>, flagged: seq<Node>) {
    |flagged| == |nodes| && forall i :: 0 <= i < |nodes| ==> flagged[i] == Flagged(nodes[i])
  }

  lemma {:induction false} FlaggedHandle(nodes: seq<Node>, flagged: seq<Node>, aliases: map<nat, nat>, i: nat)
    requires FlagsOf(nodes, flagged)
    ensures HandleAt(flagged, aliases, i) == HandleAt(nodes, aliases, i)
    decreases i
  {
    if i < |nodes| && i in aliases && aliases[i] < i {
      FlaggedHandle(nodes, flagged, aliases, aliases[i]);
    }
  }

  lemma FlaggedNames(nodes: seq<Node>, flagged: seq<Node>, aliases: map<nat, nat>, ids: seq<nat>)
    requires FlagsOf(nodes, flagged)
    ensures Names(flagged, aliases, ids) == Names(nodes, aliases, ids)
  {
    forall k | 0 <= k < |ids|
      ensures HandleAt(flagged, aliases, ids[k]) == HandleAt(nodes, aliases, ids[k])
    {
      FlaggedHandle(nodes, flagged, aliases, ids[k]);
    }
  }

  lemma FlaggedEmits(nodes: seq<Node>, flagged: seq<Node>, aliases: map<nat, nat>, i: nat)
    requires FlagsOf(nodes, flagged)
    ensures Emits(flagged, aliases)(i) == Emits(nodes, aliases)(i)
  {
    if i < |nodes| {
      var n, m := nodes[i], flagged[i];
      assert m.name == n.name && m.thunk == n.thunk && m.predecessors == n.predecessors && (Wired(m) <==> Wired(n));
      if n.thunk == Some(Compute) {
        FlaggedNames(nodes, flagged, aliases, n.predecessors);
      } else if |n.predecessors| == 1 {
        FlaggedHandle(nodes, flagged, aliases, n.predecessors[0]);
      }
    }
  }

  lemma {:induction false} JoinSame<T>(n: nat, f: nat -> seq<T>, g: nat -> seq<T>)
    requires forall i: nat :: f(i) == g(i)
    ensures Join(n, f) == Join(n, g)
    decreases n
  {
    if n > 0 {
      JoinSame(n - 1, f, g);
    }
  }

  /** Reusing table topics neither changes what may be merged nor what is emitted, so the passes
      can run in either order. */
  lemma PassesAreIndependent(nodes: seq<Node>, flagged: seq<Node>, aliases: map<nat, nat>, n: nat)
    requires FlagsOf(nodes, flagged)
    ensures Merged(flagged, aliases) <==> Merged(nodes, aliases)
    ensures Emissions(flagged, aliases, n) == Emissions(nodes, aliases, n)
  {
    forall i, j
      ensures Alike(flagged, i, j) <==> Alike(nodes, i, j)
    {
    }
    var f, g := Emits(flagged, aliases), Emits(nodes, aliases);
    forall i: nat
      ensures f(i) == g(i)
    {
      FlaggedEmits(nodes, flagged, aliases, i);
    }
    JoinSame(n, f, g);
  }
}
