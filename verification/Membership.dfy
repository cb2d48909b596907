/** Value types of a streams-group membership and the resolution of assigned tasks. */
module Membership {
  import opened Common

  /** One assigned task.  The request and the response carry the same two fields. */
  datatype TaskIds = TaskIds(subtopology: string, partitions: seq<int>)

  datatype TaskLists = TaskLists(active: seq<TaskIds>, standby: seq<TaskIds>, warmup: seq<TaskIds>)

  const NO_TASKS := TaskLists([], [], [])

  datatype TopicPartition = TopicPartition(topic: string, partition: int)

  datatype TaskAssignment =
    TaskAssignment(subtopology: string, partitions: seq<int>, sources: seq<TopicPartition>)

  datatype Assignment =
    Assignment(active: seq<TaskAssignment>, standby: seq<TaskAssignment>, warmup: seq<TaskAssignment>)

  const UNASSIGNED := Assignment([], [], [])

  /** The built topology, as far as membership reads it: the source topics per subtopology. */
  datatype Topology = Topology(sourceTopics: map<string, seq<string>>)

  function SourceTopicsFor(topology: Topology, subtopology: string): seq<string> {
    if subtopology in topology.sourceTopics then topology.sourceTopics[subtopology] else []
  }

  /** The source partitions of a task, partition by partition. */
  function Sources(topics: seq<string>, partitions: seq<int>): (r: seq<TopicPartition>)
    ensures |r| == |partitions| * |topics|
  {
    if partitions == [] then []
    else
      var init, p := partitions[..|partitions| - 1], partitions[|partitions| - 1];
      assert |partitions| * |topics| == |init| * |topics| + |topics|;
      Sources(topics, init) + seq(|topics|, j requires 0 <= j < |topics| => TopicPartition(topics[j], p))
  }

  /** Partition `i` of the task reads topic `j` at place `i * |topics| + j`, and nothing else is
      read. */
  lemma {:induction false} SourcesAt(topics: seq<string>, partitions: seq<int>, i: nat, j: nat)
    requires i < |partitions| && j < |topics|
    ensures i * |topics| + j < |partitions| * |topics|
    ensures Sources(topics, partitions)[i * |topics| + j] == TopicPartition(topics[j], partitions[i])
    decreases |partitions|
  {
    var init := partitions[..|partitions| - 1];
    assert |partitions| * |topics| == |init| * |topics| + |topics|;
    if i < |init| {
      SourcesAt(topics, init, i, j);
    } else {
      assert i * |topics| == |init| * |topics|;
    }
  }

  function ResolveTask(topology: Topology, task: TaskIds): TaskAssignment {
    TaskAssignment(task.subtopology, task.partitions,
      Sources(SourceTopicsFor(topology, task.subtopology), task.partitions))
  }

  /** A task keeps its name and partitions, and reads each source topic of its own subtopology at each
      of its partitions; a subtopology without sources reads nothing. */
  lemma ResolvedReads(topology: Topology, task: TaskIds)
    ensures var r := ResolveTask(topology, task);
      && r.subtopology == task.subtopology && r.partitions == task.partitions
      && (task.subtopology !in topology.sourceTopics ==> r.sources == [])
    ensures task.subtopology in topology.sourceTopics ==>
      var topics, r := topology.sourceTopics[task.subtopology], ResolveTask(topology, task).sources;
      ReadsAll(r, topics, task.partitions)
  {
    if task.subtopology in topology.sourceTopics {
      SourcesReadAll(topology.sourceTopics[task.subtopology], task.partitions);
    } else {
      NoSources(task.partitions);
    }
  }

  /** Each topic at each partition, partition by partition, and nothing else. */
  ghost predicate ReadsAll(sources: seq<TopicPartition>, topics: seq<string>, partitions: seq<int>) {
    && |sources| == |partitions| * |topics|
    && forall i: nat, j: nat :: i < |partitions| && j < |topics| ==>
         Reads(sources, i * |topics| + j, topics[j], partitions[i])
  }

  lemma NoSources(partitions: seq<int>)
    ensures Sources([], partitions) == []
  {
    var topics: seq<string> := [];
    assert |partitions| * |topics| == 0;
  }

  lemma SourcesReadAll(topics: seq<string>, partitions: seq<int>)
    ensures ReadsAll(Sources(topics, partitions), topics, partitions)
  {
    forall i: nat, j: nat | i < |partitions| && j < |topics|
      ensures Reads(Sources(topics, partitions), i * |topics| + j, topics[j], partitions[i])
    {
      SourcesAt(topics, partitions, i, j);
    }
  }

  predicate Reads(sources: seq<TopicPartition>, at: int, topic: string, partition: int) {
    0 <= at < |sources| && sources[at].topic == topic && sources[at].partition == partition
  }

  function ResolveAll(topology: Topology, tasks: seq<TaskIds>): (r: seq<TaskAssignment>)
    ensures |r| == |tasks| && forall k :: 0 <= k < |r| ==> r[k] == ResolveTask(topology, tasks[k])
  {
    seq(|tasks|, k requires 0 <= k < |tasks| => ResolveTask(topology, tasks[k]))
  }

  /** `resolve`; an absent role resolves to no task. */
  method Resolve(tasks: Option<seq<TaskIds>>, topology: Topology) returns (r: seq<TaskAssignment>)
    ensures r == ResolveAll(topology, if tasks.Some? then tasks.value else [])
  {
    r := [];
    if tasks.None? {
      return;
    }
    var n := 0;
    while n < |tasks.value|
      invariant 0 <= n <= |tasks.value| && r == ResolveAll(topology, tasks.value[..n])
    {
      var t := tasks.value[n];
      var topics := SourceTopicsFor(topology, t.subtopology);
      var sources := [];
      var i := 0;
      while i < |t.partitions|
        invariant 0 <= i <= |t.partitions| && sources == Sources(topics, t.partitions[..i])
      {
        ghost var before := sources;
        var j := 0;
        while j < |topics|
          invariant 0 <= j <= |topics|
          invariant sources == before + seq(j, k requires 0 <= k < j => TopicPartition(topics[k], t.partitions[i]))
        {
          sources := sources + [TopicPartition(topics[j], t.partitions[i])];
          j := j + 1;
        }
        assert t.partitions[..i + 1][..i] == t.partitions[..i];
        i := i + 1;
      }
      assert t.partitions[..i] == t.partitions;
      r := r + [TaskAssignment(t.subtopology, t.partitions, sources)];
      n := n + 1;
    }
    assert tasks.value[..n] == tasks.value;
  }

  /** The assignment that three owned lists stand for. */
  function Resolved(topology: Topology, owned: TaskLists): Assignment {
    Assignment(ResolveAll(topology, owned.active), ResolveAll(topology, owned.standby),
      ResolveAll(topology, owned.warmup))
  }
}
