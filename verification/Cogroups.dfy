/** Cogroups, whose repartitions share the topic of their one store: what merging does to them. */
module Cogroups {
  import opened Common
  import opened LogicalGraph
  import opened Lowering
  import opened Meaning
  import opened Merging
  import opened MergingAnywhere

  // ---- merging two repartitions of one topic ----

  function Weigh(w: nat -> nat, ids: seq<nat>): nat {
    if ids == [] then 0 else Weigh(w, ids[..|ids| - 1]) + w(ids[|ids| - 1])
  }

  lemma {:induction false} WeighConcat(w: nat -> nat, a: seq<nat>, b: seq<nat>)
    ensures Weigh(w, a + b) == Weigh(w, a) + Weigh(w, b)
    decreases |b|
  {
    if b == [] {
      assert a + b == a;
    } else {
      WeighConcat(w, a, b[..|b| - 1]);
      assert (a + b)[..|a + b| - 1] == a + b[..|b| - 1];
    }
  }

  lemma {:induction false} JoinWeighs(n: nat, f: nat -> seq<nat>, g: nat -> seq<nat>, w: nat -> nat, i: nat)
    requires g(i) == [] && forall k: nat :: g(k) == f(k) || g(k) == []
    ensures Weigh(w, Join(n, g)) + (if i < n then Weigh(w, f(i)) else 0) <= Weigh(w, Join(n, f))
    decreases n
  {
    if n > 0 {
      JoinWeighs(n - 1, f, g, w, i);
      WeighConcat(w, Join(n - 1, f), f(n - 1));
      WeighConcat(w, Join(n - 1, g), g(n - 1));
    }
  }

  ghost predicate Weighs(nodes: seq<Node>, aliases: map<nat, nat>, w: nat -> nat, bound: nat)
    requires Regular(nodes, aliases)
  {
    forall p: nat :: p < bound && p < |nodes| ==> w(p) == |Origins(nodes, aliases, p)|
  }

  lemma {:induction false} AllOriginsWeigh(nodes: seq<Node>, aliases: map<nat, nat>, w: nat -> nat, bound: nat,
      ids: seq<nat>)
    requires bound < |nodes| && Regular(nodes, aliases) && Below(ids, bound) && Weighs(nodes, aliases, w, bound)
    ensures |AllOrigins(nodes, aliases, bound, ids)| == Weigh(w, ids)
    decreases |ids|
  {
    if ids != [] {
      AllOriginsWeigh(nodes, aliases, w, bound, ids[..|ids| - 1]);
    }
  }

  lemma {:induction false} SameEverywhere(nodes: seq<Node>, aliases: map<nat, nat>, i: nat)
    requires i < |nodes| && Regular(nodes, aliases) && SameOrigins(nodes, aliases)
    ensures OriginsAlike(nodes, aliases, i)
    decreases i
  {
    if !IsShuffle(nodes[i]) {
      assert i in aliases ==> Alike(nodes, i, aliases[i]);
      if nodes[i].thunk.value.Write? {
        SameEverywhere(nodes, aliases, nodes[i].predecessors[0]);
      }
    }
  }

  ghost function Sizes(nodes: seq<Node>, aliases: map<nat, nat>): (w: nat -> nat)
    requires Regular(nodes, aliases)
    ensures Weighs(nodes, aliases, w, |nodes|)
  {
    (p: nat) => if p < |nodes| then |Origins(nodes, aliases, p)| else 0
  }

  lemma {:induction false} FeedersWeigh(nodes: seq<Node>, aliases: map<nat, nat>, i: nat, w: nat -> nat)
    requires AllWired(nodes) && i < |nodes| && i in aliases && Alike(nodes, i, aliases[i])
    ensures var topic := TopicAt(nodes, i);
      Weigh(w, Feeders(nodes, aliases, topic)) + w(nodes[i].predecessors[0]) <= Weigh(w, Feeders(nodes, map[], topic))
  {
    var topic, p := TopicAt(nodes, i), nodes[i].predecessors;
    var f, g := FeederBy(nodes, map[], topic), FeederBy(nodes, aliases, topic);
    assert g(i) == [] && f(i) == p && p == [p[0]] && p[..0] == [];
    JoinWeighs(|nodes|, f, g, w, i);
  }

  /** The plain topology delivers the records of the merged repartition's predecessor once more. */
  lemma {:induction false} KeeperIsFedLess(nodes: seq<Node>, aliases: map<nat, nat>, i: nat, w: nat -> nat)
    requires Regular(nodes, aliases) && i in aliases && TopicAt(nodes, i) == TopicAt(nodes, aliases[i])
    requires Weighs(nodes, map[], w, |nodes|) && Weighs(nodes, aliases, w, |nodes|)
    ensures |Origins(nodes, aliases, aliases[i])| + w(nodes[i].predecessors[0]) <= |Origins(nodes, map[], aliases[i])|
  {
    var j, topic := aliases[i], TopicAt(nodes, i);
    assert Alike(nodes, i, j) && j !in aliases;
    var plain, merged := Feeders(nodes, map[], topic), Feeders(nodes, aliases, topic);
    FeedersWeigh(nodes, aliases, i, w);
    ShuffleOrigins(nodes, map[], j, plain);
    ShuffleOrigins(nodes, aliases, j, merged);
    AllOriginsWeigh(nodes, map[], w, j, plain);
    AllOriginsWeigh(nodes, aliases, w, j, merged);
  }

  /** Merging two repartitions of one topic always changes the meaning, unless nothing ever reaches
      them. */
  lemma SharedMergeChanges(nodes: seq<Node>, aliases: map<nat, nat>, i: nat)
    requires Regular(nodes, aliases) && i in aliases && TopicAt(nodes, i) == TopicAt(nodes, aliases[i])
    requires Origins(nodes, aliases, nodes[i].predecessors[0]) != []
    ensures !SameOrigins(nodes, aliases)
  {
    if SameOrigins(nodes, aliases) {
      var w := Sizes(nodes, aliases);
      forall p: nat | p < |nodes|
        ensures w(p) == |Origins(nodes, map[], p)|
      {
        SameEverywhere(nodes, aliases, p);
      }
      SameEverywhere(nodes, aliases, aliases[i]);
      KeeperIsFedLess(nodes, aliases, i, w);
      assert false;
    }
  }

  // ---- the repartitions of small graphs ----

  /** Node `i` is a repartition of node `p` through the topic. */
  predicate Routes(nodes: seq<Node>, i: nat, p: nat, topic: string) {
    i < |nodes| && Mergeable(nodes[i]) && nodes[i].predecessors == [p] && Shuffles(nodes[i], topic)
  }

  /** There are no repartitions but these. */
  predicate OnlyAt(nodes: seq<Node>, ids: set<nat>) {
    forall k: nat :: k < |nodes| && (IsShuffle(nodes[k]) || nodes[k].kind.Repartition?) ==> k in ids
  }

  lemma {:induction false} JoinPair(n: nat, f: nat -> seq<nat>, i: nat, j: nat)
    requires i < j < n && forall k: nat :: k != i && k != j ==> f(k) == []
    ensures Join(n, f) == f(i) + f(j)
    decreases n
  {
    if n - 1 > j {
      JoinPair(n - 1, f, i, j);
    } else {
      JoinOnly(n - 1, f, i);
    }
  }

  lemma FedByTwo(nodes: seq<Node>, aliases: map<nat, nat>, topic: string, i: nat, j: nat, p: nat, q: nat)
    requires AllWired(nodes) && i < j && Routes(nodes, i, p, topic) && Routes(nodes, j, q, topic)
    requires i !in aliases && j !in aliases
    requires forall k: nat :: k < |nodes| && k !in aliases && Shuffles(nodes[k], topic) ==> k == i || k == j
    ensures Feeders(nodes, aliases, topic) == [p, q]
  {
    var f := FeederBy(nodes, aliases, topic);
    assert f(i) == [p] && f(j) == [q];
    JoinPair(|nodes|, f, i, j);
  }

  lemma FedByOne(nodes: seq<Node>, aliases: map<nat, nat>, topic: string, i: nat, p: nat)
    requires AllWired(nodes) && Routes(nodes, i, p, topic) && i !in aliases
    requires forall k: nat :: k < |nodes| && k !in aliases && Shuffles(nodes[k], topic) ==> k == i
    ensures Feeders(nodes, aliases, topic) == [p]
  {
    var f := FeederBy(nodes, aliases, topic);
    assert f(i) == [p];
    JoinOnly(|nodes|, f, i);
  }

  lemma StreamsOfOne<R>(env: string -> seq<R>, a: string)
    ensures Flatten(Streams(env, [a])) == env(a)
  {
    assert [a][..0] == [];
    assert Streams(env, [a]) == [env(a)] && [env(a)][..0] == [];
  }

  lemma StreamsOfTwo<R>(env: string -> seq<R>, a: string)
    ensures Flatten(Streams(env, [a, a])) == env(a) + env(a)
  {
    assert [a, a][..1] == [a];
    StreamsOfOne(env, a);
    assert Streams(env, [a, a]) == Streams(env, [a]) + [env(a)];
    FlattenConcat(Streams(env, [a]), env(a));
  }

  /** What the first input of a node carries. */
  function InputOf<R>(nodes: seq<Node>, aliases: map<nat, nat>, env: string -> seq<R>, i: nat): seq<R>
    requires i < |nodes| && nodes[i].predecessors != []
  {
    env(HandleAt(nodes, aliases, nodes[i].predecessors[0]))
  }

  // ---- a cogroup of one stream with itself ----

  /** A cogroup with two inputs off one key-changing processor: a repartition and an aggregate for
      each, and the merge node. */
  function SelfCogroup(name: nat -> string, events: string, store: string, topic: string): seq<Node> {
    [ Node(name(0), StreamSource([events]), [], [1], Some(Feed([events]))),
      Node(name(1), StatelessProcessor, [0], [2, 4], Some(Compute)),
      Node(name(2), Repartition(topic), [1], [3], Some(Shuffle(name(7), topic))),
      Node(name(3), Aggregate(store), [2], [6], Some(Compute)),
      Node(name(4), Repartition(topic), [1], [5], Some(Shuffle(name(8), topic))),
      Node(name(5), Aggregate(store), [4], [6], Some(Compute)),
      Node(name(6), Aggregate(store), [3, 5], [], Some(Compute)) ]
  }

  lemma SelfCogroupShape(name: nat -> string, events: string, store: string, topic: string)
    ensures var nodes := SelfCogroup(name, events, store, topic);
      AllWired(nodes) && OnlyAt(nodes, {2, 4}) && Routes(nodes, 2, 1, topic) && Routes(nodes, 4, 1, topic)
  {
  }

  lemma SelfCogroupBuilt(name: nat -> string, events: string, store: string, topic: string)
    requires topic != events
    ensures var nodes := SelfCogroup(name, events, store, topic); Ordered(nodes) && Internal(nodes)
  {
  }

  lemma PairMerges(nodes: seq<Node>, i: nat, j: nat, p: nat, topic: string)
    requires i < j && Ordered(nodes) && AllWired(nodes) && Internal(nodes) && OnlyAt(nodes, {i, j})
    requires Routes(nodes, i, p, topic) && Routes(nodes, j, p, topic)
    ensures Merged(nodes, map[j := i]) && Regular(nodes, map[j := i])
  {
    assert nodes[i].predecessors[0] < i;
    assert forall k: nat :: k < |nodes| && IsShuffle(nodes[k]) ==> nodes[k].predecessors == [p] && i <= k;
  }

  /** The optimizer aliases the second repartition to the first, which changes the meaning. */
  lemma SelfCogroupChanges(name: nat -> string, events: string, store: string, topic: string)
    requires topic != events
    ensures var nodes := SelfCogroup(name, events, store, topic);
      Merged(nodes, map[4 := 2]) && Regular(nodes, map[4 := 2]) && !SameOrigins(nodes, map[4 := 2])
  {
    var nodes := SelfCogroup(name, events, store, topic);
    SelfCogroupShape(name, events, store, topic);
    SelfCogroupBuilt(name, events, store, topic);
    PairMerges(nodes, 2, 4, 1, topic);
    assert nodes[1].thunk == Some(Compute);
    SharedMergeChanges(nodes, map[4 := 2], 4);
  }

  lemma {:induction false} FedTwice<R>(nodes: seq<Node>, g: Given<R>, env: string -> seq<R>, i: nat, j: nat, p: nat,
      topic: string, k: nat)
    requires AllWired(nodes) && i < j && OnlyAt(nodes, {i, j})
    requires Routes(nodes, i, p, topic) && Routes(nodes, j, p, topic)
    requires p < |nodes| && k in {i, j} && Solves(Emissions(nodes, map[], |nodes|), g, env)
    ensures env(nodes[k].name) == env(nodes[p].name) + env(nodes[p].name)
  {
    FedByTwo(nodes, map[], topic, i, j, p, p);
    ShuffleCarries(nodes, map[], g, env, k, [p, p]);
    assert Names(nodes, map[], [p, p]) == [nodes[p].name, nodes[p].name];
    StreamsOfTwo(env, nodes[p].name);
  }

  lemma {:induction false} FedOnce<R>(nodes: seq<Node>, g: Given<R>, env: string -> seq<R>, i: nat, j: nat, p: nat,
      topic: string)
    requires AllWired(nodes) && i < j && OnlyAt(nodes, {i, j})
    requires Routes(nodes, i, p, topic) && Routes(nodes, j, p, topic)
    requires p < |nodes| && p != j && Solves(Emissions(nodes, map[j := i], |nodes|), g, env)
    ensures env(nodes[i].name) == env(nodes[p].name)
  {
    var aliases := map[j := i];
    FedByOne(nodes, aliases, topic, i, p);
    ShuffleCarries(nodes, aliases, g, env, i, [p]);
    NamesOne(nodes, aliases, p);
    assert HandleAt(nodes, aliases, p) == nodes[p].name;
    StreamsOfOne(env, nodes[p].name);
  }

  /** Unmerged, both aggregates read every record of the key-changing processor twice. */
  lemma PlainDoubles<R>(
    name: nat -> string, events: string, store: string, topic: string, g: Given<R>, env: string -> seq<R>)
    requires Solves(Emissions(SelfCogroup(name, events, store, topic), map[], 7), g, env)
    ensures var nodes := SelfCogroup(name, events, store, topic);
      InputOf(nodes, map[], env, 3) == InputOf(nodes, map[], env, 5) == env(name(1)) + env(name(1))
  {
    var nodes := SelfCogroup(name, events, store, topic);
    SelfCogroupShape(name, events, store, topic);
    FedTwice(nodes, g, env, 2, 4, 1, topic, 2);
    FedTwice(nodes, g, env, 2, 4, 1, topic, 4);
  }

  /** Merged, once. */
  lemma OptimizedDoesNot<R>(
    name: nat -> string, events: string, store: string, topic: string, g: Given<R>, env: string -> seq<R>)
    requires Solves(Emissions(SelfCogroup(name, events, store, topic), map[4 := 2], 7), g, env)
    ensures var nodes := SelfCogroup(name, events, store, topic);
      InputOf(nodes, map[4 := 2], env, 3) == InputOf(nodes, map[4 := 2], env, 5) == env(name(1))
  {
    var nodes := SelfCogroup(name, events, store, topic);
    SelfCogroupShape(name, events, store, topic);
    FedOnce(nodes, g, env, 2, 4, 1, topic);
  }

  // ---- two cogroups of the same two streams ----

  /** Two cogroups, each with a store and a topic of its own, over the same two key-changing
      processors. */
  function TwinCogroups(name: nat -> string, events: string, one: string, two: string): seq<Node> {
    [ Node(name(0), StreamSource([events]), [], [1, 2], Some(Feed([events]))),
      Node(name(1), StatelessProcessor, [0], [3, 8], Some(Compute)),
      Node(name(2), StatelessProcessor, [0], [5, 10], Some(Compute)),
      Node(name(3), Repartition(one), [1], [4], Some(Shuffle(name(13), one))),
      Node(name(4), Aggregate(one), [3], [7], Some(Compute)),
      Node(name(5), Repartition(one), [2], [6], Some(Shuffle(name(14), one))),
      Node(name(6), Aggregate(one), [5], [7], Some(Compute)),
      Node(name(7), Aggregate(one), [4, 6], [], Some(Compute)),
      Node(name(8), Repartition(two), [1], [9], Some(Shuffle(name(15), two))),
      Node(name(9), Aggregate(two), [8], [12], Some(Compute)),
      Node(name(10), Repartition(two), [2], [11], Some(Shuffle(name(16), two))),
      Node(name(11), Aggregate(two), [10], [12], Some(Compute)),
      Node(name(12), Aggregate(two), [9, 11], [], Some(Compute)) ]
  }

  /** Two topics, each fed by the same two nodes. */
  predicate Twins(nodes: seq<Node>, one: string, two: string) {
    && OnlyAt(nodes, {3, 5, 8, 10})
    && Routes(nodes, 3, 1, one) && Routes(nodes, 5, 2, one) && Routes(nodes, 8, 1, two) && Routes(nodes, 10, 2, two)
  }

  lemma TwinsShape(name: nat -> string, events: string, one: string, two: string)
    ensures var nodes := TwinCogroups(name, events, one, two); AllWired(nodes) && Twins(nodes, one, two)
  {
  }

  lemma TwinsBuilt(name: nat -> string, events: string, one: string, two: string)
    requires one != events && two != events
    ensures var nodes := TwinCogroups(name, events, one, two); Ordered(nodes) && Internal(nodes)
  {
  }

  lemma TwinsMerge(nodes: seq<Node>, one: string, two: string)
    requires Ordered(nodes) && AllWired(nodes) && Internal(nodes) && Twins(nodes, one, two)
    ensures Merged(nodes, map[8 := 3, 10 := 5]) && Regular(nodes, map[8 := 3, 10 := 5])
  {
    assert forall k: nat :: k < |nodes| && IsShuffle(nodes[k]) ==> 3 <= k && nodes[k].predecessors in [[1], [2]];
  }

  lemma TwinsAligned(nodes: seq<Node>, one: string, two: string)
    requires AllWired(nodes) && Twins(nodes, one, two) && one != two
    ensures Aligned(nodes, map[8 := 3, 10 := 5]) && !Isolated(nodes, map[8 := 3, 10 := 5])
  {
    var aliases := map[8 := 3, 10 := 5];
    FedByTwo(nodes, map[], one, 3, 5, 1, 2);
    FedByTwo(nodes, map[], two, 8, 10, 1, 2);
    FedByTwo(nodes, aliases, one, 3, 5, 1, 2);
    forall i: nat | i < |nodes| && IsShuffle(nodes[i])
      ensures FedAlike(nodes, aliases, i)
    {
      assert i in {3, 5, 8, 10};
    }
    assert Shuffles(nodes[10], TopicAt(nodes, 8)) && !OnlyShuffle(nodes, 8);
  }

  /** Sharing a topic is not what breaks merging: here both merged repartitions share theirs, and
      the meaning stays. */
  lemma TwinsKeepMeaning(name: nat -> string, events: string, one: string, two: string)
    requires one != two && one != events && two != events
    ensures var nodes, aliases := TwinCogroups(name, events, one, two), map[8 := 3, 10 := 5];
      Merged(nodes, aliases) && Regular(nodes, aliases) && !Isolated(nodes, aliases) && SameOrigins(nodes, aliases)
  {
    var nodes := TwinCogroups(name, events, one, two);
    TwinsShape(name, events, one, two);
    TwinsBuilt(name, events, one, two);
    TwinsMerge(nodes, one, two);
    TwinsAligned(nodes, one, two);
    AlignedKeepsOrigins(nodes, map[8 := 3, 10 := 5]);
  }
}
