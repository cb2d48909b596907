/** Merging in graphs of any shape, streams that run through a topic back into themselves and sources
    that read a repartition topic included: where feeders are kept, the plain and the optimized
    equations have the same solutions. */
module MergingAnywhere {
  import opened Common
  import opened LogicalGraph
  import opened Lowering
  import opened Meaning
  import opened MeaningExact
  import opened Merging

  /** The topics that sources read keep their feeders. */
  ghost predicate SourcesAligned(nodes: seq<Node>, aliases: map<nat, nat>) {
    forall i, topic :: 0 <= i < |nodes| && ReadsTopic(nodes[i], topic) ==> KeepsFeeders(nodes, aliases, topic)
  }

  predicate ReadsTopic(n: Node, topic: string) {
    n.thunk.Some? && n.thunk.value.Feed? && topic in n.thunk.value.topics
  }

  ghost predicate KeepsFeeders(nodes: seq<Node>, aliases: map<nat, nat>, topic: string) {
    Feeders(nodes, map[], topic) == Feeders(nodes, aliases, topic)
  }

  /** The two lowerings give every node the same handle, as far as `env` goes. */
  ghost predicate HandlesAgree<R>(nodes: seq<Node>, aliases: map<nat, nat>, env: string -> seq<R>) {
    forall i: nat :: env(HandleAt(nodes, aliases, i)) == env(HandleAt(nodes, map[], i))
  }

  lemma ShuffleCarries<R>(
    nodes: seq<Node>, aliases: map<nat, nat>, g: Given<R>, env: string -> seq<R>, i: nat, ids: seq<nat>)
    requires AllWired(nodes) && i < |nodes| && i !in aliases && IsShuffle(nodes[i])
    requires Solves(Emissions(nodes, aliases, |nodes|), g, env) && ids == Feeders(nodes, aliases, TopicAt(nodes, i))
    ensures env(nodes[i].name) == Flatten(Streams(env, Names(nodes, aliases, ids)))
  {
    var topic := TopicAt(nodes, i);
    assert Emit(nodes, aliases, i)[1] == Source(nodes[i].name, [topic]);
    SolvedAt(nodes, aliases, g, env, i, 1);
    OwnTopicIsFed(nodes, aliases, i, topic);
    WritersAre(nodes, aliases, topic);
    ContentOfWriters(Emissions(nodes, aliases, |nodes|), g, env, topic);
  }

  lemma AlignedHandles<R>(nodes: seq<Node>, aliases: map<nat, nat>, g: Given<R>, env: string -> seq<R>)
    requires AllWired(nodes) && Redirects(nodes, aliases) && Aligned(nodes, aliases)
    requires Solves(Emissions(nodes, map[], |nodes|), g, env)
    ensures HandlesAgree(nodes, aliases, env)
  {
    forall i: nat
      ensures env(HandleAt(nodes, aliases, i)) == env(HandleAt(nodes, map[], i))
    {
      if i < |nodes| && i in aliases {
        var j := aliases[i];
        assert IsShuffle(nodes[i]) && IsShuffle(nodes[j]) && HandleAt(nodes, aliases, i) == nodes[j].name;
        assert FedAlike(nodes, aliases, i) && FedAlike(nodes, aliases, j);
        ShuffleCarries(nodes, map[], g, env, i, Feeders(nodes, map[], TopicAt(nodes, i)));
        ShuffleCarries(nodes, map[], g, env, j, Feeders(nodes, map[], TopicAt(nodes, j)));
      }
    }
  }

  lemma {:induction false} StreamsAgree<R>(nodes: seq<Node>, aliases: map<nat, nat>, env: string -> seq<R>,
      ids: seq<nat>)
    requires HandlesAgree(nodes, aliases, env)
    ensures Streams(env, Names(nodes, aliases, ids)) == Streams(env, Names(nodes, map[], ids))
    decreases |ids|
  {
    if ids != [] {
      var init := ids[..|ids| - 1];
      StreamsAgree(nodes, aliases, env, init);
      var names, plain := Names(nodes, aliases, ids), Names(nodes, map[], ids);
      assert names[..|ids| - 1] == Names(nodes, aliases, init) && plain[..|ids| - 1] == Names(nodes, map[], init);
    }
  }

  lemma ContentAgrees<R>(nodes: seq<Node>, aliases: map<nat, nat>, g: Given<R>, env: string -> seq<R>, topic: string)
    requires AllWired(nodes) && HandlesAgree(nodes, aliases, env) && KeepsFeeders(nodes, aliases, topic)
    ensures Content(Emissions(nodes, aliases, |nodes|), g, env, topic)
      == Content(Emissions(nodes, map[], |nodes|), g, env, topic)
  {
    WritersAre(nodes, aliases, topic);
    WritersAre(nodes, map[], topic);
    StreamsAgree(nodes, aliases, env, Feeders(nodes, aliases, topic));
  }

  lemma {:induction false} ContentsAgree<R>(
    nodes: seq<Node>, aliases: map<nat, nat>, g: Given<R>, env: string -> seq<R>, topics: seq<string>)
    requires AllWired(nodes) && HandlesAgree(nodes, aliases, env)
    requires forall k :: 0 <= k < |topics| ==> KeepsFeeders(nodes, aliases, topics[k])
    ensures Contents(Emissions(nodes, aliases, |nodes|), g, env, topics)
      == Contents(Emissions(nodes, map[], |nodes|), g, env, topics)
    decreases |topics|
  {
    if topics != [] {
      ContentsAgree(nodes, aliases, g, env, topics[..|topics| - 1]);
      ContentAgrees(nodes, aliases, g, env, topics[|topics| - 1]);
    }
  }

  lemma {:induction false} NodeAgrees<R>(nodes: seq<Node>, aliases: map<nat, nat>, g: Given<R>, env: string -> seq<R>,
      i: nat)
    requires AllWired(nodes) && Aligned(nodes, aliases) && SourcesAligned(nodes, aliases)
    requires HandlesAgree(nodes, aliases, env)
    requires Solves(Emissions(nodes, map[], |nodes|), g, env) && i < |nodes| && i !in aliases
    ensures forall e :: e in Emit(nodes, aliases, i) ==> Satisfies(Emissions(nodes, aliases, |nodes|), g, env, e)
  {
    var n := nodes[i];
    SolvedAt(nodes, map[], g, env, i, 0);
    match n.thunk.value
    case Feed(topics) =>
      assert forall k :: 0 <= k < |topics| ==> ReadsTopic(n, topics[k]);
      ContentsAgree(nodes, aliases, g, env, topics);
    case Compute =>
      StreamsAgree(nodes, aliases, env, n.predecessors);
    case Write(_) =>
      assert env(HandleAt(nodes, aliases, n.predecessors[0])) == env(HandleAt(nodes, map[], n.predecessors[0]));
    case Shuffle(_, topic) =>
      SolvedAt(nodes, map[], g, env, i, 1);
      assert env(HandleAt(nodes, aliases, n.predecessors[0])) == env(HandleAt(nodes, map[], n.predecessors[0]));
      assert FedAlike(nodes, aliases, i) && KeepsFeeders(nodes, aliases, topic);
      ContentsAgree(nodes, aliases, g, env, [topic]);
  }

  /** Where feeders are kept, the optimized topology runs as the plain one does, on every graph: each
      solution of the plain equations solves the optimized ones, with the same stream at every
      handle. */
  lemma AlignedCarriesOver<R>(nodes: seq<Node>, aliases: map<nat, nat>, g: Given<R>, env: string -> seq<R>)
    requires AllWired(nodes) && Redirects(nodes, aliases) && Aligned(nodes, aliases) && SourcesAligned(nodes, aliases)
    requires Solves(Emissions(nodes, map[], |nodes|), g, env)
    ensures Solves(Emissions(nodes, aliases, |nodes|), g, env) && HandlesAgree(nodes, aliases, env)
  {
    AlignedHandles(nodes, aliases, g, env);
    var t, f := Emissions(nodes, aliases, |nodes|), Emits(nodes, aliases);
    forall m | 0 <= m < |t|
      ensures Satisfies(t, g, env, t[m])
    {
      var i, k := JoinFrom(|nodes|, f, t[m]);
      assert f(i) == Emit(nodes, aliases, i);
      NodeAgrees(nodes, aliases, g, env, i);
    }
  }

  /** Predecessors are nodes of the graph. */
  ghost predicate InRange(nodes: seq<Node>) {
    forall i :: 0 <= i < |nodes| ==> Below(nodes[i].predecessors, |nodes|)
  }

  /** The optimized streams under the plain names: an alias carries what its keeper does, and the sink
      of a repartition what its predecessor does. */
  function Unmerged<R>(nodes: seq<Node>, aliases: map<nat, nat>, env: string -> seq<R>): string -> seq<R> {
    (name: string) =>
      var i := Owner(nodes, |nodes|, name);
      if i >= |nodes| then []
      else if name == nodes[i].name then env(HandleAt(nodes, aliases, i))
      else if nodes[i].predecessors == [] then []
      else env(HandleAt(nodes, aliases, nodes[i].predecessors[0]))
  }

  lemma UnmergedName<R>(nodes: seq<Node>, aliases: map<nat, nat>, env: string -> seq<R>, i: nat)
    requires OwnNames(nodes) && i < |nodes|
    ensures Unmerged(nodes, aliases, env)(nodes[i].name) == env(HandleAt(nodes, aliases, i))
    ensures IsShuffle(nodes[i]) && |nodes[i].predecessors| == 1 ==>
      Unmerged(nodes, aliases, env)(nodes[i].thunk.value.sink)
        == env(HandleAt(nodes, aliases, nodes[i].predecessors[0]))
  {
    OwnerIs(nodes, |nodes|, nodes[i].name, i);
    if IsShuffle(nodes[i]) {
      OwnerIs(nodes, |nodes|, nodes[i].thunk.value.sink, i);
    }
  }

  /** `plain` carries under the plain handles what `env` does under the merged ones. */
  ghost predicate Unfolds<R>(nodes: seq<Node>, aliases: map<nat, nat>, env: string -> seq<R>, plain: string -> seq<R>) {
    forall i: nat :: i < |nodes| ==> plain(HandleAt(nodes, map[], i)) == env(HandleAt(nodes, aliases, i))
  }

  lemma {:induction false} StreamsUnfold<R>(
    nodes: seq<Node>, aliases: map<nat, nat>, env: string -> seq<R>, plain: string -> seq<R>, ids: seq<nat>)
    requires Unfolds(nodes, aliases, env, plain) && Below(ids, |nodes|)
    ensures Streams(plain, Names(nodes, map[], ids)) == Streams(env, Names(nodes, aliases, ids))
    decreases |ids|
  {
    if ids != [] {
      var init := ids[..|ids| - 1];
      StreamsUnfold(nodes, aliases, env, plain, init);
      var merged, names := Names(nodes, aliases, ids), Names(nodes, map[], ids);
      assert merged[..|ids| - 1] == Names(nodes, aliases, init) && names[..|ids| - 1] == Names(nodes, map[], init);
    }
  }

  lemma FeedersInRange(nodes: seq<Node>, aliases: map<nat, nat>, topic: string)
    requires InRange(nodes)
    ensures Below(Feeders(nodes, aliases, topic), |nodes|)
  {
    JoinBelow(|nodes|, FeederBy(nodes, aliases, topic), |nodes|);
  }

  lemma ContentUnfolds<R>(nodes: seq<Node>, aliases: map<nat, nat>, g: Given<R>, env: string -> seq<R>,
      plain: string -> seq<R>, topic: string)
    requires AllWired(nodes) && InRange(nodes) && Unfolds(nodes, aliases, env, plain)
    requires KeepsFeeders(nodes, aliases, topic)
    ensures Content(Emissions(nodes, map[], |nodes|), g, plain, topic)
      == Content(Emissions(nodes, aliases, |nodes|), g, env, topic)
  {
    WritersAre(nodes, aliases, topic);
    WritersAre(nodes, map[], topic);
    FeedersInRange(nodes, aliases, topic);
    StreamsUnfold(nodes, aliases, env, plain, Feeders(nodes, aliases, topic));
  }

  lemma {:induction false} ContentsUnfold<R>(nodes: seq<Node>, aliases: map<nat, nat>, g: Given<R>,
      env: string -> seq<R>, plain: string -> seq<R>, topics: seq<string>)
    requires AllWired(nodes) && InRange(nodes) && Unfolds(nodes, aliases, env, plain)
    requires forall k :: 0 <= k < |topics| ==> KeepsFeeders(nodes, aliases, topics[k])
    ensures Contents(Emissions(nodes, map[], |nodes|), g, plain, topics)
      == Contents(Emissions(nodes, aliases, |nodes|), g, env, topics)
    decreases |topics|
  {
    if topics != [] {
      ContentsUnfold(nodes, aliases, g, env, plain, topics[..|topics| - 1]);
      ContentUnfolds(nodes, aliases, g, env, plain, topics[|topics| - 1]);
    }
  }

  lemma ShuffleUnfolds<R>(nodes: seq<Node>, aliases: map<nat, nat>, g: Given<R>, env: string -> seq<R>,
      plain: string -> seq<R>, i: nat, topic: string)
    requires AllWired(nodes) && InRange(nodes) && Redirects(nodes, aliases) && FedAlike(nodes, aliases, i)
    requires Unfolds(nodes, aliases, env, plain) && Solves(Emissions(nodes, aliases, |nodes|), g, env)
    requires i < |nodes| && Shuffles(nodes[i], topic)
    ensures plain(nodes[i].name) == Contents(Emissions(nodes, map[], |nodes|), g, plain, [topic])
  {
    var j := Kept(aliases, i);
    var ids := Feeders(nodes, aliases, TopicAt(nodes, j));
    assert IsShuffle(nodes[j]) && j !in aliases && HandleAt(nodes, aliases, i) == nodes[j].name;
    assert plain(HandleAt(nodes, map[], i)) == env(nodes[j].name);
    ShuffleCarries(nodes, aliases, g, env, j, ids);
    FeedersInRange(nodes, map[], topic);
    StreamsUnfold(nodes, aliases, env, plain, ids);
    WritersAre(nodes, map[], topic);
    OwnTopicIsFed(nodes, map[], i, topic);
    ContentOfWriters(Emissions(nodes, map[], |nodes|), g, plain, topic);
  }

  lemma {:induction false} FeedUnfolds<R>(nodes: seq<Node>, aliases: map<nat, nat>, g: Given<R>, env: string -> seq<R>,
      plain: string -> seq<R>, i: nat, topics: seq<string>)
    requires AllWired(nodes) && InRange(nodes) && SourcesAligned(nodes, aliases) && Unfolds(nodes, aliases, env, plain)
    requires Solves(Emissions(nodes, aliases, |nodes|), g, env) && i < |nodes| && i !in aliases
    requires nodes[i].thunk == Some(Feed(topics))
    ensures plain(nodes[i].name) == Contents(Emissions(nodes, map[], |nodes|), g, plain, topics)
  {
    assert plain(HandleAt(nodes, map[], i)) == env(HandleAt(nodes, aliases, i));
    assert Emit(nodes, aliases, i)[0] == Source(nodes[i].name, topics);
    SolvedAt(nodes, aliases, g, env, i, 0);
    assert forall k :: 0 <= k < |topics| ==> ReadsTopic(nodes[i], topics[k]);
    ContentsUnfold(nodes, aliases, g, env, plain, topics);
  }

  lemma {:induction false} ComputeUnfolds<R>(nodes: seq<Node>, aliases: map<nat, nat>, g: Given<R>,
      env: string -> seq<R>, plain: string -> seq<R>, i: nat)
    requires AllWired(nodes) && InRange(nodes) && Unfolds(nodes, aliases, env, plain)
    requires Solves(Emissions(nodes, aliases, |nodes|), g, env) && i < |nodes| && i !in aliases
    requires nodes[i].thunk == Some(Compute)
    ensures plain(nodes[i].name) == g.op(i, Streams(plain, Names(nodes, map[], nodes[i].predecessors)))
  {
    var p := nodes[i].predecessors;
    assert plain(HandleAt(nodes, map[], i)) == env(HandleAt(nodes, aliases, i));
    assert Emit(nodes, aliases, i)[0] == Processor(nodes[i].name, i, Names(nodes, aliases, p));
    SolvedAt(nodes, aliases, g, env, i, 0);
    StreamsUnfold(nodes, aliases, env, plain, p);
  }

  lemma {:induction false} WriteUnfolds<R>(nodes: seq<Node>, aliases: map<nat, nat>, g: Given<R>, env: string -> seq<R>,
      plain: string -> seq<R>, i: nat, topic: string)
    requires AllWired(nodes) && InRange(nodes) && Unfolds(nodes, aliases, env, plain)
    requires Solves(Emissions(nodes, aliases, |nodes|), g, env) && i < |nodes| && i !in aliases
    requires nodes[i].thunk == Some(Write(topic))
    ensures plain(nodes[i].name) == plain(HandleAt(nodes, map[], nodes[i].predecessors[0]))
  {
    var p := nodes[i].predecessors[0];
    assert plain(HandleAt(nodes, map[], i)) == env(HandleAt(nodes, aliases, i));
    assert Emit(nodes, aliases, i)[0] == Sink(nodes[i].name, topic, HandleAt(nodes, aliases, p), false);
    SolvedAt(nodes, aliases, g, env, i, 0);
    assert p < |nodes| && plain(HandleAt(nodes, map[], p)) == env(HandleAt(nodes, aliases, p));
  }

  lemma {:induction false} OtherUnfolds<R>(nodes: seq<Node>, aliases: map<nat, nat>, g: Given<R>, env: string -> seq<R>,
      plain: string -> seq<R>, i: nat)
    requires AllWired(nodes) && InRange(nodes) && SourcesAligned(nodes, aliases) && Unfolds(nodes, aliases, env, plain)
    requires Solves(Emissions(nodes, aliases, |nodes|), g, env) && i < |nodes| && i !in aliases && !IsShuffle(nodes[i])
    ensures forall e :: e in Emit(nodes, map[], i) ==> Satisfies(Emissions(nodes, map[], |nodes|), g, plain, e)
  {
    match nodes[i].thunk.value
    case Feed(topics) =>
      FeedUnfolds(nodes, aliases, g, env, plain, i, topics);
    case Compute =>
      ComputeUnfolds(nodes, aliases, g, env, plain, i);
    case Write(topic) =>
      WriteUnfolds(nodes, aliases, g, env, plain, i, topic);
  }

  lemma {:induction false} NodeUnfolds<R>(
    nodes: seq<Node>, aliases: map<nat, nat>, g: Given<R>, env: string -> seq<R>, plain: string -> seq<R>, i: nat)
    requires AllWired(nodes) && InRange(nodes) && Redirects(nodes, aliases) && Aligned(nodes, aliases)
    requires SourcesAligned(nodes, aliases) && Unfolds(nodes, aliases, env, plain)
    requires Solves(Emissions(nodes, aliases, |nodes|), g, env) && i < |nodes|
    requires IsShuffle(nodes[i]) ==>
      plain(nodes[i].thunk.value.sink) == env(HandleAt(nodes, aliases, nodes[i].predecessors[0]))
    ensures forall e :: e in Emit(nodes, map[], i) ==> Satisfies(Emissions(nodes, map[], |nodes|), g, plain, e)
  {
    var n := nodes[i];
    if IsShuffle(n) {
      assert FedAlike(nodes, aliases, i);
      ShuffleUnfolds(nodes, aliases, g, env, plain, i, n.thunk.value.topic);
      assert plain(HandleAt(nodes, map[], n.predecessors[0])) == env(HandleAt(nodes, aliases, n.predecessors[0]));
    } else {
      assert i !in aliases;
      OtherUnfolds(nodes, aliases, g, env, plain, i);
    }
  }

  /** And the optimized topology runs in no way that the plain one does not: each of its solutions is
      one of the plain equations under the plain names. */
  lemma AlignedCarriesBack<R>(nodes: seq<Node>, aliases: map<nat, nat>, g: Given<R>, env: string -> seq<R>)
    returns (plain: string -> seq<R>)
    requires AllWired(nodes) && InRange(nodes) && OwnNames(nodes) && Redirects(nodes, aliases)
    requires Aligned(nodes, aliases) && SourcesAligned(nodes, aliases)
    requires Solves(Emissions(nodes, aliases, |nodes|), g, env)
    ensures Solves(Emissions(nodes, map[], |nodes|), g, plain) && Unfolds(nodes, aliases, env, plain)
  {
    plain := Unmerged(nodes, aliases, env);
    forall i: nat | i < |nodes|
      ensures plain(HandleAt(nodes, map[], i)) == env(HandleAt(nodes, aliases, i))
    {
      UnmergedName(nodes, aliases, env, i);
    }
    var t, f := Emissions(nodes, map[], |nodes|), Emits(nodes, map[]);
    forall m | 0 <= m < |t|
      ensures Satisfies(t, g, plain, t[m])
    {
      var i, k := JoinFrom(|nodes|, f, t[m]);
      assert f(i) == Emit(nodes, map[], i);
      UnmergedName(nodes, aliases, env, i);
      NodeUnfolds(nodes, aliases, g, env, plain, i);
    }
  }
}
