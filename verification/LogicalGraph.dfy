/** The logical graph that the stream builder records, and the optimizer passes over it. */
module LogicalGraph {
  import opened Common

  datatype Kind =
    | StreamSource(topics: seq<string>)
    | StatelessProcessor
    | StreamSink(topic: string)
    | Repartition(topic: string)
    | Aggregate(store: string)
    | TableSource(topic: string, store: string, reuse: bool)
    | TableProcessor

  /** What lowering a node adds to the topology, as data: a source, a processor that reads the
      node's predecessors, a sink, or a repartition, which writes and reads back a topic of its
      own. Each is named by the node, but for the repartition's sink. */
  datatype Thunk =
    | Feed(topics: seq<string>)
    | Compute
    | Write(topic: string)
    | Shuffle(sink: string, topic: string)

  datatype Node = Node(
    name: string, kind: Kind, predecessors: seq<nat>, children: seq<nat>, thunk: Option<Thunk>)

  /** Parents come before their children, and the two lists of edges agree. */
  ghost predicate Built(nodes: seq<Node>) {
    && (forall i, k :: 0 <= i < |nodes| && 0 <= k < |nodes[i].predecessors| ==> nodes[i].predecessors[k] < i)
    && (forall i, c :: 0 <= i < |nodes| ==> (c in nodes[i].children <==> ChildOf(nodes, i, c)))
  }

  predicate ChildOf(nodes: seq<Node>, i: int, c: int) {
    0 <= c < |nodes| && i in nodes[c].predecessors
  }

  // ---- repartitions that share a predecessor ----

  predicate Mergeable(n: Node) {
    n.kind.Repartition? && |n.predecessors| == 1
  }

  predicate Alike(nodes: seq<Node>, i: int, j: int) {
    && 0 <= i < |nodes| && 0 <= j < |nodes|
    && Mergeable(nodes[i]) && Mergeable(nodes[j]) && nodes[i].predecessors == nodes[j].predecessors
  }

  /** `j` is the first repartition off the predecessor of `i`. */
  predicate FirstAlike(nodes: seq<Node>, i: int, j: int) {
    Alike(nodes, i, j) && forall k :: 0 <= k < j ==> !Alike(nodes, i, k)
  }

  /** Each repartition that is not the first off its predecessor is an alias of the first, and
      nothing else is an alias. */
  ghost predicate Merged(nodes: seq<Node>, aliases: map<nat, nat>) {
    && (forall i :: i in aliases ==> aliases[i] < i && FirstAlike(nodes, i, aliases[i]))
    && (forall i: nat, j: nat :: j < i && Alike(nodes, i, j) ==> i in aliases)
  }

  /** Aliases are flat: a keeper is no alias, and it precedes its aliases. */
  lemma MergedIsFlat(nodes: seq<Node>, aliases: map<nat, nat>, i: nat)
    requires Merged(nodes, aliases) && i in aliases
    ensures aliases[i] < i && aliases[i] !in aliases
  {
    var j := aliases[i];
    if j in aliases {
      assert FirstAlike(nodes, j, aliases[j]);
      assert Alike(nodes, i, aliases[j]);
      assert false;
    }
  }

  function Copies(c: nat, n: nat): seq<nat> {
    if n == 0 then [] else Copies(c, n - 1) + [c]
  }

  function Flagged(n: Node): Node {
    if n.kind.TableSource? then n.(kind := n.kind.(reuse := true)) else n
  }

  class Graph {
    var nodes: seq<Node>
    var aliases: map<nat, nat>

    constructor ()
      ensures nodes == [] && aliases == map[] && Built(nodes)
    {
      nodes, aliases := [], map[];
    }

    /** Appends a node, which becomes a child of each of its predecessors, once for each time it is
        listed there. */
    method Add(name: string, kind: Kind, predecessors: seq<nat>) returns (id: nat)
      requires Built(nodes) && forall k :: 0 <= k < |predecessors| ==> predecessors[k] < |nodes|
      modifies this`nodes
      ensures Built(nodes) && id == |old(nodes)| && |nodes| == id + 1
      ensures nodes[id] == Node(name, kind, predecessors, [], None)
      ensures Linked(old(nodes), nodes[..id], predecessors)
    {
      id := |nodes|;
      LinkTo(id, predecessors);
      var node := Node(name, kind, predecessors, [], None);
      AddedIsBuilt(old(nodes), nodes, node);
      assert (nodes + [node])[..id] == nodes;
      nodes := nodes + [node];
    }

    method LinkTo(id: nat, predecessors: seq<nat>)
      requires id == |nodes| && forall k :: 0 <= k < |predecessors| ==> predecessors[k] < |nodes|
      modifies this`nodes
      ensures Linked(old(nodes), nodes, predecessors)
    {
      for k := 0 to |predecessors|
        invariant Linked(old(nodes), nodes, predecessors[..k])
      {
        var p := predecessors[k];
        LinkOneMore(old(nodes), nodes, predecessors[..k], p);
        assert predecessors[..k + 1] == predecessors[..k] + [p];
        nodes := nodes[p := nodes[p].(children := nodes[p].children + [id])];
      }
      assert predecessors[..|predecessors|] == predecessors;
    }

    /** Records what lowering a node adds. */
    method Attach(id: nat, thunk: Thunk)
      requires Built(nodes) && id < |nodes|
      modifies this`nodes
      ensures nodes == old(nodes)[id := old(nodes)[id].(thunk := Some(thunk))] && Built(nodes)
    {
      nodes := nodes[id := nodes[id].(thunk := Some(thunk))];
    }

    /** Collapses the repartitions off one predecessor onto the first of them. */
    method MergeRepartitionTopics()
      requires aliases == map[]
      modifies this`aliases
      ensures Merged(nodes, aliases)
    {
      var byPred: map<nat, seq<nat>> := map[];
      for i := 0 to |nodes|
        invariant Grouped(nodes, byPred, i) && aliases == map[]
      {
        GroupOneMore(nodes, byPred, i);
        if nodes[i].kind.Repartition? && |nodes[i].predecessors| == 1 {
          var pred := nodes[i].predecessors[0];
          byPred := byPred[pred := (if pred in byPred then byPred[pred] else []) + [i]];
        }
      }
      var left := byPred.Keys;
      NothingAliased(nodes, byPred);
      while left != {}
        invariant left <= byPred.Keys && Partly(nodes, aliases, left)
        decreases |left|
      {
        var pred :| pred in left;
        assert Group(nodes, pred, byPred[pred], |nodes|);
        AliasGroup(pred, byPred[pred], left);
        left := left - {pred};
      }
    }

    method AliasGroup(pred: nat, ids: seq<nat>, ghost left: set<nat>)
      requires Group(nodes, pred, ids, |nodes|) && Partly(nodes, aliases, left)
      modifies this`aliases
      ensures Partly(nodes, aliases, left - {pred})
    {
      if |ids| >= 2 {
        var keeper := ids[0];
        for k := 1 to |ids|
          invariant aliases == Redirected(old(aliases), ids[1..k], keeper)
        {
          LessOne(ids, k);
          aliases := aliases[ids[k] := keeper];
        }
        assert ids[1..|ids|] == ids[1..];
        RedirectedGives(old(aliases), ids[1..], keeper);
      }
      GroupAliased(nodes, pred, ids, left, old(aliases), aliases);
    }

    /** Marks every table that is read from a topic to use that topic as its changelog. */
    method ReuseTableSourceTopics()
      modifies this`nodes
      ensures |nodes| == |old(nodes)|
      ensures forall i :: 0 <= i < |nodes| ==> nodes[i] == Flagged(old(nodes)[i])
    {
      for i := 0 to |nodes|
        invariant |nodes| == |old(nodes)|
        invariant forall j :: 0 <= j < i ==> nodes[j] == Flagged(old(nodes)[j])
        invariant forall j :: i <= j < |nodes| ==> nodes[j] == old(nodes)[j]
      {
        if nodes[i].kind.TableSource? {
          nodes := nodes[i := nodes[i].(kind := nodes[i].kind.(reuse := true))];
        }
      }
    }
  }

  /** The nodes with one more child, once for each time it lists them. */
  ghost predicate Linked(was: seq<Node>, nodes: seq<Node>, predecessors: seq<nat>) {
    && |nodes| == |was|
    && forall i: nat :: i < |was| ==>
         nodes[i] == was[i].(children := was[i].children + Copies(|was|, multiset(predecessors)[i]))
  }

  lemma LinkOneMore(was: seq<Node>, nodes: seq<Node>, predecessors: seq<nat>, p: nat)
    requires Linked(was, nodes, predecessors) && p < |was|
    ensures Linked(was, nodes[p := nodes[p].(children := nodes[p].children + [|was|])], predecessors + [p])
  {
    Regroup(was[p].children, Copies(|was|, multiset(predecessors)[p]), [|was|]);
    assert multiset(predecessors + [p]) == multiset(predecessors) + multiset{p};
  }

  lemma {:induction false} CopiesHold(c: nat, n: nat)
    ensures forall x: nat :: x in Copies(c, n) <==> x == c && n > 0
    decreases n
  {
    if n > 0 {
      CopiesHold(c, n - 1);
    }
  }

  lemma LinkedChild(was: seq<Node>, nodes: seq<Node>, predecessors: seq<nat>, i: nat, c: nat)
    requires Linked(was, nodes, predecessors) && i < |was|
    ensures c in nodes[i].children <==> c in was[i].children || (c == |was| && i in predecessors)
  {
    CopiesHold(|was|, multiset(predecessors)[i]);
    assert i in predecessors <==> multiset(predecessors)[i] > 0;
  }

  lemma AddedIsBuilt(was: seq<Node>, nodes: seq<Node>, n: Node)
    requires Built(was) && Linked(was, nodes, n.predecessors)
    requires n.children == [] && forall k :: 0 <= k < |n.predecessors| ==> n.predecessors[k] < |was|
    ensures Built(nodes + [n])
  {
    var r, id := nodes + [n], |was|;
    forall i, c | 0 <= i < |r|
      ensures c in r[i].children <==> ChildOf(r, i, c)
    {
      if 0 <= c < id {
        assert r[c].predecessors == was[c].predecessors;
      }
      if i < id {
        assert c in was[i].children <==> ChildOf(was, i, c);
        if c >= 0 {
          LinkedChild(was, nodes, n.predecessors, i, c);
        }
      }
    }
  }

  // ---- grouping ----

  /** The mergeable nodes below `n` with one predecessor, in order. */
  ghost predicate Group(nodes: seq<Node>, pred: nat, ids: seq<nat>, n: nat)
    requires n <= |nodes|
  {
    && (forall j :: 0 <= j < |ids| ==> ids[j] < n && Mergeable(nodes[ids[j]]) && nodes[ids[j]].predecessors == [pred])
    && (forall i :: 0 <= i < n && Mergeable(nodes[i]) && nodes[i].predecessors == [pred] ==> i in ids)
    && (forall j, k :: 0 <= j < k < |ids| ==> ids[j] < ids[k])
  }

  ghost predicate Grouped(nodes: seq<Node>, byPred: map<nat, seq<nat>>, n: nat)
    requires n <= |nodes|
  {
    && (forall pred :: pred in byPred ==> Group(nodes, pred, byPred[pred], n))
    && (forall i :: 0 <= i < n && Mergeable(nodes[i]) ==> nodes[i].predecessors[0] in byPred)
  }

  /** The aliases of every predecessor but those left are in place. */
  ghost predicate Partly(nodes: seq<Node>, aliases: map<nat, nat>, left: set<nat>) {
    && (forall i :: i in aliases ==>
      aliases[i] < i && FirstAlike(nodes, i, aliases[i]) && nodes[i].predecessors[0] !in left)
    && (forall i: nat, j: nat :: j < i && Alike(nodes, i, j) && nodes[i].predecessors[0] !in left ==> i in aliases)
  }

  lemma GroupOneMore(nodes: seq<Node>, byPred: map<nat, seq<nat>>, n: nat)
    requires n < |nodes| && Grouped(nodes, byPred, n)
    ensures !Mergeable(nodes[n]) ==> Grouped(nodes, byPred, n + 1)
    ensures Mergeable(nodes[n]) ==>
      var pred := nodes[n].predecessors[0];
      Grouped(nodes, byPred[pred := (if pred in byPred then byPred[pred] else []) + [n]], n + 1)
  {
    forall q | q in byPred && !(Mergeable(nodes[n]) && nodes[n].predecessors == [q])
      ensures Group(nodes, q, byPred[q], n + 1)
    {
      GroupSkips(nodes, q, byPred[q], n);
    }
    if Mergeable(nodes[n]) {
      var pred := nodes[n].predecessors[0];
      assert nodes[n].predecessors == [pred];
      if pred in byPred {
        GroupAppended(nodes, pred, byPred[pred], n);
      } else {
        NoGroup(nodes, byPred, pred, n);
        GroupAppended(nodes, pred, [], n);
      }
    }
  }

  lemma NoGroup(nodes: seq<Node>, byPred: map<nat, seq<nat>>, pred: nat, n: nat)
    requires n <= |nodes| && Grouped(nodes, byPred, n) && pred !in byPred
    ensures Group(nodes, pred, [], n)
  {
    forall i | 0 <= i < n && Mergeable(nodes[i])
      ensures nodes[i].predecessors != [pred]
    {
      assert nodes[i].predecessors[0] in byPred;
    }
  }

  lemma GroupSkips(nodes: seq<Node>, pred: nat, ids: seq<nat>, n: nat)
    requires n < |nodes| && Group(nodes, pred, ids, n) && !(Mergeable(nodes[n]) && nodes[n].predecessors == [pred])
    ensures Group(nodes, pred, ids, n + 1)
  {
  }

  lemma GroupAppended(nodes: seq<Node>, pred: nat, ids: seq<nat>, n: nat)
    requires n < |nodes| && Group(nodes, pred, ids, n) && Mergeable(nodes[n]) && nodes[n].predecessors == [pred]
    ensures Group(nodes, pred, ids + [n], n + 1)
  {
    forall i | 0 <= i < n + 1 && Mergeable(nodes[i]) && nodes[i].predecessors == [pred]
      ensures i in ids + [n]
    {
    }
  }

  lemma NothingAliased(nodes: seq<Node>, byPred: map<nat, seq<nat>>)
    requires Grouped(nodes, byPred, |nodes|)
    ensures Partly(nodes, map[], byPred.Keys)
  {
  }

  lemma LessOne(ids: seq<nat>, k: nat)
    requires 1 <= k < |ids|
    ensures var more := ids[1..k + 1]; |more| == k && more[..k - 1] == ids[1..k] && more[k - 1] == ids[k]
  {
    var more := ids[1..k + 1];
    assert forall j :: 0 <= j < k ==> more[j] == ids[j + 1];
  }

  function Redirected(aliases: map<nat, nat>, ids: seq<nat>, keeper: nat): map<nat, nat> {
    if ids == [] then aliases else Redirected(aliases, ids[..|ids| - 1], keeper)[ids[|ids| - 1] := keeper]
  }

  lemma {:induction false} RedirectedGives(aliases: map<nat, nat>, ids: seq<nat>, keeper: nat)
    ensures var r := Redirected(aliases, ids, keeper);
      forall i: nat :: (i in r <==> i in aliases || i in ids) && (i in r ==>
        r[i] == if i in ids then keeper else aliases[i])
    decreases |ids|
  {
    if ids != [] {
      RedirectedGives(aliases, ids[..|ids| - 1], keeper);
      assert ids == ids[..|ids| - 1] + [ids[|ids| - 1]];
    }
  }

  lemma GroupAliased(
    nodes: seq<Node>, pred: nat, ids: seq<nat>, left: set<nat>, was: map<nat, nat>, aliases: map<nat, nat>)
    requires Group(nodes, pred, ids, |nodes|) && Partly(nodes, was, left)
    requires if |ids| < 2 then aliases == was
      else forall i: nat ::
        && (i in aliases <==> i in was || i in ids[1..])
        && (i in aliases ==> aliases[i] == if i in ids[1..] then ids[0] else was[i])
    ensures Partly(nodes, aliases, left - {pred})
  {
    forall i | i in aliases
      ensures aliases[i] < i && FirstAlike(nodes, i, aliases[i]) && nodes[i].predecessors[0] !in left - {pred}
    {
      if |ids| >= 2 && i in ids[1..] {
        FirstOfGroup(nodes, pred, ids, i);
      }
    }
    forall i: nat, j: nat | j < i && Alike(nodes, i, j) && nodes[i].predecessors[0] !in left - {pred}
      ensures i in aliases
    {
      if nodes[i].predecessors[0] == pred {
        assert nodes[i].predecessors == [pred] && nodes[j].predecessors == [pred];
        LaterOfGroup(nodes, pred, ids, i, j);
      }
    }
  }

  lemma FirstOfGroup(nodes: seq<Node>, pred: nat, ids: seq<nat>, i: nat)
    requires Group(nodes, pred, ids, |nodes|) && |ids| >= 2 && i in ids[1..]
    ensures ids[0] < i && FirstAlike(nodes, i, ids[0]) && nodes[i].predecessors == [pred]
  {
    var k :| 0 <= k < |ids[1..]| && ids[1..][k] == i;
    assert i == ids[k + 1];
    forall m | 0 <= m < |nodes| && Alike(nodes, i, m)
      ensures ids[0] <= m
    {
      var l :| 0 <= l < |ids| && ids[l] == m;
      assert l > 0 ==> ids[0] < ids[l];
    }
  }

  lemma LaterOfGroup(nodes: seq<Node>, pred: nat, ids: seq<nat>, i: nat, j: nat)
    requires Group(nodes, pred, ids, |nodes|) && j < i < |nodes|
    requires Mergeable(nodes[i]) && nodes[i].predecessors == [pred] && Mergeable(nodes[j])
    requires nodes[j].predecessors == [pred]
    ensures |ids| >= 2 && i in ids[1..]
  {
    var k :| 0 <= k < |ids| && ids[k] == i;
    var l :| 0 <= l < |ids| && ids[l] == j;
    assert l > 0 ==> ids[0] < ids[l];
    assert ids[1..][k - 1] == i;
  }
}
