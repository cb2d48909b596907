/** What every run of the heartbeat protocol keeps. */
module HeartbeatProofs {
  import opened Common
  import opened Membership
  import opened Heartbeat

  // ---- delta-encoded task lists ----

  /** A broker that knows the member knows it with the lists `l`. */
  predicate KnowsOnly(b: Broker, l: TaskLists) {
    b.member.None? || b.member == Some(l)
  }

  /** Lists recorded as sent are the lists the broker holds. */
  predicate InSync(s: System) {
    s.client.lastSent.Some? ==> KnowsOnly(s.broker, s.client.lastSent.value)
  }

  /** Leaving the lists out or repeating them makes no difference to a broker that has them. */
  lemma AttemptIgnoresRepeat(m: Member, epoch: int, l: TaskLists, b: Broker, fate: Fate)
    requires epoch != 0 && KnowsOnly(b, l)
    ensures Attempt(b, SteadyHeartbeat(m, epoch, None), fate) == Attempt(b, SteadyHeartbeat(m, epoch, Some(l)), fate)
    ensures KnowsOnly(Attempt(b, SteadyHeartbeat(m, epoch, Some(l)), fate).0, l)
  {
  }

  lemma SendIgnoresRepeat(m: Member, epoch: int, l: TaskLists, b: Broker, d: Delivery)
    requires epoch != 0 && KnowsOnly(b, l)
    ensures Send(b, SteadyHeartbeat(m, epoch, None), d) == Send(b, SteadyHeartbeat(m, epoch, Some(l)), d)
    ensures KnowsOnly(Send(b, SteadyHeartbeat(m, epoch, Some(l)), d).0, l)
  {
    var b0 := Expire(b, d.expires);
    AttemptIgnoresRepeat(m, epoch, l, b0, d.first);
    var b1 := Attempt(b0, SteadyHeartbeat(m, epoch, Some(l)), d.first).0;
    AttemptIgnoresRepeat(m, epoch, l, Expire(b1, d.expiresBetween), d.second);
  }

  /** An accepted steady heartbeat that carried `l` leaves exactly `l` at the broker. */
  lemma AcceptedStores(m: Member, epoch: int, l: TaskLists, b: Broker, d: Delivery)
    requires epoch > 0 && OutcomeOf(Send(b, SteadyHeartbeat(m, epoch, Some(l)), d).1) == Adopted
    ensures Send(b, SteadyHeartbeat(m, epoch, Some(l)), d).0.member == Some(l)
  {
    var b0 := Expire(b, d.expires);
    var req := SteadyHeartbeat(m, epoch, Some(l));
    var (b1, r1) := Attempt(b0, req, d.first);
    assert OutcomeOf(r1) == Adopted ==> b1.member == Some(l);
    var (b2, r2) := Attempt(Expire(b1, d.expiresBetween), req, d.second);
    assert OutcomeOf(r2) == Adopted ==> b2.member == Some(l);
  }

  /** Sending lists, first attempt or second, applied or not, cannot leave other lists behind
      when the answer is an acceptance. */
  lemma AcceptedKnowsOnly(m: Member, epoch: int, l: TaskLists, b: Broker, d: Delivery)
    requires epoch != 0 && OutcomeOf(Send(b, SteadyHeartbeat(m, epoch, Some(l)), d).1) == Adopted
    ensures KnowsOnly(Send(b, SteadyHeartbeat(m, epoch, Some(l)), d).0, l)
  {
    var b0 := Expire(b, d.expires);
    var req := SteadyHeartbeat(m, epoch, Some(l));
    var (b1, r1) := Attempt(b0, req, d.first);
    assert OutcomeOf(r1) == Adopted ==> KnowsOnly(b1, l);
    var (b2, r2) := Attempt(Expire(b1, d.expiresBetween), req, d.second);
    assert OutcomeOf(r2) == Adopted ==> KnowsOnly(b2, l);
  }

  /** One heartbeat keeps the records in sync, and delta encoding changes nothing that the
      client or the broker can tell. */
  lemma BeatInSync(m: Member, s: System, d: Delivery)
    requires InSync(s)
    ensures InSync(Beat(m, s, d, true))
    ensures Beat(m, s, d, true) == Beat(m, s, d, false).(requests := Beat(m, s, d, true).requests)
  {
    var c := s.client;
    if c.epoch != 0 {
      var full := SteadyHeartbeat(m, c.epoch, Some(c.owned));
      if c.lastSent == Some(c.owned) {
        SendIgnoresRepeat(m, c.epoch, c.owned, s.broker, d);
      }
      assert Send(s.broker, NextRequest(m, c, true), d) == Send(s.broker, full, d);
      if OutcomeOf(Send(s.broker, full, d).1) == Adopted {
        AcceptedKnowsOnly(m, c.epoch, c.owned, s.broker, d);
      }
    }
  }

  lemma {:induction false} RunInSync(m: Member, s: System, ds: seq<Delivery>)
    requires InSync(s)
    ensures InSync(Run(m, s, ds, true))
  {
    if ds != [] {
      RunInSync(m, s, ds[..|ds| - 1]);
      BeatInSync(m, Run(m, s, ds[..|ds| - 1], true), ds[|ds| - 1]);
    }
  }

  /** Beats do not look at the request log. */
  lemma BeatSameButRequests(m: Member, s: System, s': System, d: Delivery, delta: bool)
    requires s == s'.(requests := s.requests)
    ensures Beat(m, s, d, delta) == Beat(m, s', d, delta).(requests := Beat(m, s, d, delta).requests)
  {
  }

  /** Over every run, with lost answers, errors, fences, expiries and resends: the member that
      sends its lists only when they changed and the member that sends them every time agree
      with the broker, on the broker's view, on their own state and on every event. */
  lemma {:induction false} DeltaRefinesAlwaysSend(m: Member, s: System, ds: seq<Delivery>)
    requires InSync(s)
    ensures Run(m, s, ds, true) == Run(m, s, ds, false).(requests := Run(m, s, ds, true).requests)
  {
    if ds != [] {
      var init, d := ds[..|ds| - 1], ds[|ds| - 1];
      DeltaRefinesAlwaysSend(m, s, init);
      RunInSync(m, s, init);
      var s1, s2 := Run(m, s, init, true), Run(m, s, init, false);
      BeatInSync(m, s1, d);
      BeatSameButRequests(m, s1, s2, d, false);
    }
  }

  /** After every accepted steady heartbeat of a run the broker holds exactly the lists owned
      when it was sent, also when the request carried none. */
  lemma AcceptedHeartbeatReports(m: Member, s: System, ds: seq<Delivery>, d: Delivery)
    requires InSync(s) && Run(m, s, ds, true).client.epoch > 0
    ensures var before := Run(m, s, ds, true);
            var after := Run(m, s, ds + [d], true);
            OutcomeOf(Send(before.broker, NextRequest(m, before.client, true), d).1) == Adopted ==>
              after.broker.member == Some(before.client.owned)
  {
    RunInSync(m, s, ds);
    var before := Run(m, s, ds, true);
    var c := before.client;
    assert (ds + [d])[..|ds|] == ds;
    if c.lastSent == Some(c.owned) {
      SendIgnoresRepeat(m, c.epoch, c.owned, before.broker, d);
    }
    if OutcomeOf(Send(before.broker, NextRequest(m, c, true), d).1) == Adopted {
      AcceptedStores(m, c.epoch, c.owned, before.broker, d);
    }
  }

  // ---- every request is valid ----

  predicate NamedProperly(m: Member) {
    !Blank(m.memberId) && !Blank(m.groupId) && (m.instanceId.Some? ==> !Blank(m.instanceId.value))
  }

  /** The epochs a member may echo without being refused. */
  predicate EpochFits(m: Member, epoch: int) {
    epoch >= -1 || (epoch == -2 && m.instanceId.Some?)
  }

  /** Exactly when Kafka's validation lets the next heartbeat pass. */
  lemma NextRequestValid(m: Member, c: Client, delta: bool)
    ensures KafkaRefusal(NextRequest(m, c, delta)).None? <==>
            NamedProperly(m) && EpochFits(m, c.epoch) && (c.epoch == 0 ==> m.rebalanceTimeoutMs != -1)
    ensures KafkaRefusal(NextRequest(m, c, delta)).None? ==>
            var r := NextRequest(m, c, delta);
            && (r.topology.Some? <==> r.epoch == 0)
            && (r.epoch == 0 ==> r.active == r.standby == r.warmup == Some([]))
            && (r.active.Some? == r.standby.Some? == r.warmup.Some?)
  {
  }

  lemma LeaveValid(m: Member)
    ensures KafkaRefusal(LeaveHeartbeat(m)).None? <==> NamedProperly(m)
  {
  }

  /** The epochs a delivery may make the client adopt all fit. */
  ghost predicate EpochsFit(m: Member, d: Delivery) {
    && (d.first.Answered? && d.first.choice.Accept? ==> EpochFits(m, d.first.choice.epoch))
    && (d.second.Answered? && d.second.choice.Accept? ==> EpochFits(m, d.second.choice.epoch))
  }

  lemma BeatEpochFits(m: Member, s: System, d: Delivery, delta: bool)
    requires EpochFits(m, s.client.epoch) && EpochsFit(m, d)
    ensures EpochFits(m, Beat(m, s, d, delta).client.epoch)
  {
  }

  ghost predicate AllValid(requests: seq<Request>) {
    forall k :: 0 <= k < |requests| ==> KafkaRefusal(requests[k]).None?
  }

  lemma {:induction false} RequestsStayValid(m: Member, s: System, ds: seq<Delivery>, delta: bool)
    requires NamedProperly(m) && m.rebalanceTimeoutMs > 0
    requires EpochFits(m, s.client.epoch) && AllValid(s.requests)
    requires forall k :: 0 <= k < |ds| ==> EpochsFit(m, ds[k])
    ensures EpochFits(m, Run(m, s, ds, delta).client.epoch)
    ensures AllValid(Run(m, s, ds, delta).requests)
  {
    if ds != [] {
      var init, d := ds[..|ds| - 1], ds[|ds| - 1];
      RequestsStayValid(m, s, init, delta);
      var before := Run(m, s, init, delta);
      NextRequestValid(m, before.client, delta);
      BeatEpochFits(m, before, d, delta);
    }
  }

  /** Every request of every run, from the first join to the leave, passes Kafka's validation. */
  lemma EveryRequestValid(m: Member, b: Broker, join: Response, ds: seq<Delivery>, delta: bool, last: Delivery)
    requires NamedProperly(m) && m.rebalanceTimeoutMs > 0
    requires EpochFits(m, join.epoch) && forall k :: 0 <= k < |ds| ==> EpochsFit(m, ds[k])
    ensures AllValid(Leave(m, Run(m, Started(m, b, join), ds, delta), last).requests)
  {
    RequestsStayValid(m, Started(m, b, join), ds, delta);
    LeaveValid(m);
  }

  // ---- the event stream ----

  /** A consumer: an assignment replaces the one held, a fence clears it. */
  function Consume(events: seq<Event>): Assignment {
    if events == [] then UNASSIGNED
    else
      match events[|events| - 1]
      case Assigned(a) => a
      case Fenced => UNASSIGNED
      case NotReady(_) => Consume(events[..|events| - 1])
  }

  /** Every `Assigned` event tells the consumer something new. */
  predicate News(events: seq<Event>) {
    forall j :: 0 <= j < |events| && events[j].Assigned? ==> events[j].assignment != Consume(events[..j])
  }

  /** The consumer holds the last assignment, which is what the owned lists resolve to. */
  predicate Informed(m: Member, s: System) {
    && Consume(s.events) == s.client.lastAssignment == Resolved(m.topology, s.client.owned)
    && News(s.events)
  }

  lemma ConsumeOne(events: seq<Event>, e: Event)
    ensures Consume(events + [e])
      == match e case Assigned(a) => a case Fenced => UNASSIGNED case NotReady(_) => Consume(events)
    ensures News(events) && (e.Assigned? ==> e.assignment != Consume(events)) ==> News(events + [e])
  {
    assert (events + [e])[..|events|] == events;
    if News(events) && (e.Assigned? ==> e.assignment != Consume(events)) {
      forall j | 0 <= j < |events + [e]| && (events + [e])[j].Assigned?
        ensures (events + [e])[j].assignment != Consume((events + [e])[..j])
      {
        assert (events + [e])[..j] == events[..j];
      }
    }
  }

  /** Announcing statuses and then a change keeps the consumer informed. */
  lemma Announce(events: seq<Event>, r: Response, last: Assignment, next: Assignment)
    requires News(events) && Consume(events) == last
    ensures News(events + StatusEvents(r) + AssignmentEvents(last, next))
    ensures Consume(events + StatusEvents(r) + AssignmentEvents(last, next)) == next
  {
    var told := events + StatusEvents(r);
    if StatusEvents(r) == [] {
      assert told == events;
    } else {
      ConsumeOne(events, NotReady(r.status.value));
    }
    if next == last {
      assert told + [] == told;
    } else {
      ConsumeOne(told, Assigned(next));
    }
  }

  lemma BeatInforms(m: Member, s: System, d: Delivery, delta: bool)
    requires Informed(m, s)
    ensures Informed(m, Beat(m, s, d, delta))
  {
    var c := s.client;
    var result := Send(s.broker, NextRequest(m, c, delta), d).1;
    match OutcomeOf(result)
    case Adopted =>
      var r := result.response;
      Announce(s.events, r, c.lastAssignment, AdoptAssignment(m, c.lastAssignment, r));
    case Rejoin =>
      ConsumeOne(s.events, Fenced);
      assert Resolved(m.topology, NO_TASKS) == UNASSIGNED;
    case Transient =>
  }

  lemma StartInforms(m: Member, b: Broker, join: Response)
    ensures Informed(m, Started(m, b, join)) && InSync(Started(m, b, join))
  {
    Announce([], join, UNASSIGNED, Resolved(m.topology, AdoptTasks(NO_TASKS, join)));
    assert [] + StatusEvents(join) == StatusEvents(join);
  }

  /** From the start on, a consumer of the event stream always holds `last_assignment`, which is
      always what the three owned lists resolve to. */
  lemma {:induction false} ConsumerStaysInformed(m: Member, b: Broker, join: Response, ds: seq<Delivery>, delta: bool)
    ensures Informed(m, Run(m, Started(m, b, join), ds, delta))
  {
    if ds == [] {
      StartInforms(m, b, join);
    } else {
      ConsumerStaysInformed(m, b, join, ds[..|ds| - 1], delta);
      BeatInforms(m, Run(m, Started(m, b, join), ds[..|ds| - 1], delta), ds[|ds| - 1], delta);
    }
  }

  /** Two assignments with neither a fence nor another assignment between them differ. */
  lemma {:induction false} NeighboursDiffer(events: seq<Event>, i: nat, j: nat)
    requires News(events) && i < j < |events| && events[i].Assigned? && events[j].Assigned?
    requires forall k :: i < k < j ==> events[k].NotReady?
    ensures events[i].assignment != events[j].assignment
  {
    HoldsThroughStatuses(events, i, j);
  }

  lemma {:induction false} HoldsThroughStatuses(events: seq<Event>, i: nat, j: nat)
    requires i < j <= |events| && events[i].Assigned?
    requires forall k :: i < k < j ==> events[k].NotReady?
    ensures Consume(events[..j]) == events[i].assignment
    decreases j
  {
    if i + 1 < j {
      HoldsThroughStatuses(events, i, j - 1);
      assert events[..j][..j - 1] == events[..j - 1];
    }
  }

  // ---- what one heartbeat asks and what its answer does, in wire terms ----

  /** A join carries the topology and three empty lists; a steady heartbeat echoes the adopted epoch
      and carries the owned lists, unless these were the last ones sent. */
  lemma RequestSays(m: Member, c: Client)
    ensures var r := NextRequest(m, c, true);
      && r.groupId == m.groupId && r.memberId == m.memberId && r.instanceId == m.instanceId
      && r.processId == Some(m.processId) && r.rebalanceTimeoutMs == m.rebalanceTimeoutMs
      && r.epoch == c.epoch && r.taskOffsets == None && r.taskEndOffsets == None
      && (c.epoch == 0 ==> r.topology == Some(m.topology) && r.active == r.standby == r.warmup == Some([]))
      && (c.epoch != 0 ==> r.topology == None)
      && (c.epoch != 0 && c.lastSent == Some(c.owned) ==> r.active == r.standby == r.warmup == None)
      && (c.epoch != 0 && c.lastSent != Some(c.owned) ==>
            r.active == Some(c.owned.active) && r.standby == Some(c.owned.standby) && r.warmup == Some(c.owned.warmup))
  {
  }

  /** A first answer that asks for another coordinator: codes 15 and 16, and a send that may be retried. */
  predicate AsksToRediscover(r: Result) {
    r == Broken(true) || (r.Reply? && (r.response.errorCode == 15 || r.response.errorCode == 16))
  }

  /** A request goes out again exactly after such an answer, once, and only to a coordinator that was
      found. */
  lemma ResendsExactly(b: Broker, req: Request, d: Delivery)
    ensures var (b1, r1) := Attempt(Expire(b, d.expires), req, d.first);
      && (!AsksToRediscover(r1) ==> Send(b, req, d) == (b1, r1))
      && (AsksToRediscover(r1) && !d.rediscovered ==> Send(b, req, d) == (b1, Broken(false)))
      && (AsksToRediscover(r1) && d.rediscovered ==>
            Send(b, req, d) == Attempt(Expire(b1, d.expiresBetween), req, d.second))
  {
  }

  /** Exactly those replies raise a fence. It clears the epoch, the lists and the assignment, and the
      next request joins. */
  lemma FencedExactly(m: Member, s: System, d: Delivery)
    ensures var r, s' := Send(s.broker, NextRequest(m, s.client, true), d).1, Beat(m, s, d, true);
      && (SaysFenced(r) <==> s'.events == s.events + [Fenced])
      && (SaysFenced(r) ==>
            s'.client == Client(0, TaskLists([], [], []), None, Assignment([], [], [])) &&
            var next := NextRequest(m, s'.client, true);
            next.epoch == 0 && next.topology == Some(m.topology)
            && next.active == next.standby == next.warmup == Some([]))
  {
    var r, s' := Send(s.broker, NextRequest(m, s.client, true), d).1, Beat(m, s, d, true);
    if r.Reply? && r.response.errorCode == 0 {
      var added := StatusEvents(r.response) + AssignmentEvents(s.client.lastAssignment, s'.client.lastAssignment);
      Regroup(s.events, StatusEvents(r.response), AssignmentEvents(s.client.lastAssignment, s'.client.lastAssignment));
      assert Fenced !in added && s'.events == s.events + added;
      assert s'.events[|s.events|..] == added && (s.events + [Fenced])[|s.events|..] == [Fenced];
    }
  }

  /** Any other error, and a send that breaks, leaves the member as it was; the next steady heartbeat
      sends its lists again. */
  lemma ErrorKeeps(m: Member, s: System, d: Delivery)
    ensures var r, s' := Send(s.broker, NextRequest(m, s.client, true), d).1, Beat(m, s, d, true);
      !SaysFenced(r) && (r.Broken? || r.response.errorCode != 0) ==>
        && s'.client.epoch == s.client.epoch && s'.client.owned == s.client.owned
        && s'.client.lastAssignment == s.client.lastAssignment && s'.events == s.events
        && s'.client.lastSent == None
  {
  }

  /** The list a role has after a response: the one it names, or the one it had. */
  predicate Replaces<T(==)>(named: Option<seq<T>>, before: seq<T>, after: seq<T>) {
    if named.Some? then after == named.value else after == before
  }

  predicate ReplacesResolved(topology: Topology, named: Option<seq<TaskIds>>, before: seq<TaskAssignment>,
      after: seq<TaskAssignment>)
  {
    if named.Some? then
      && |after| == |named.value|
      && forall k :: 0 <= k < |after| ==> after[k] == ResolveTask(topology, named.value[k])
    else after == before
  }

  /** An accepted heartbeat is adopted role by role: the epoch, the lists that the response names, and
      what these resolve to. The lists that were owned when a steady heartbeat was sent count as
      sent. The statuses come before a changed assignment. */
  lemma AcceptedAdopts(m: Member, s: System, d: Delivery, r: Response)
    requires Send(s.broker, NextRequest(m, s.client, true), d).1 == Reply(r) && r.errorCode == 0
    ensures var c, c' := s.client, Beat(m, s, d, true).client;
      && c'.epoch == r.epoch && c'.lastSent == (if c.epoch == 0 then None else Some(c.owned))
      && Replaces(r.active, c.owned.active, c'.owned.active)
      && Replaces(r.standby, c.owned.standby, c'.owned.standby)
      && Replaces(r.warmup, c.owned.warmup, c'.owned.warmup)
      && ReplacesResolved(m.topology, r.active, c.lastAssignment.active, c'.lastAssignment.active)
      && ReplacesResolved(m.topology, r.standby, c.lastAssignment.standby, c'.lastAssignment.standby)
      && ReplacesResolved(m.topology, r.warmup, c.lastAssignment.warmup, c'.lastAssignment.warmup)
    ensures var before, after := s.client.lastAssignment, Beat(m, s, d, true).client.lastAssignment;
      Beat(m, s, d, true).events
      == s.events + (if r.status.Some? && |r.status.value| > 0 then [NotReady(r.status.value)] else [])
                  + (if after != before then [Assigned(after)] else [])
  {
  }

  /** A member that starts has adopted its join in the same way, from nothing. */
  lemma StartAdopts(m: Member, b: Broker, join: Response)
    ensures var c := Started(m, b, join).client;
      && c.epoch == join.epoch && c.lastSent == None
      && Replaces(join.active, [], c.owned.active)
      && Replaces(join.standby, [], c.owned.standby)
      && Replaces(join.warmup, [], c.owned.warmup)
      && ReplacesResolved(m.topology, join.active, [], c.lastAssignment.active)
      && ReplacesResolved(m.topology, join.standby, [], c.lastAssignment.standby)
      && ReplacesResolved(m.topology, join.warmup, [], c.lastAssignment.warmup)
  {
  }

  predicate AsksToLeave(m: Member, r: Request) {
    && r.epoch == -1 && r.groupId == m.groupId && r.memberId == m.memberId && r.instanceId == m.instanceId
    && r.topology == None && r.active == r.standby == r.warmup == None
  }

  /** An accepted leave takes the member out of the group, and a run always ends by asking for it. */
  lemma LeaveLeaves(m: Member, s: System, d: Delivery)
    ensures var s', r := Leave(m, s, d), Send(s.broker, LeaveHeartbeat(m), d).1;
      && (r.Reply? && r.response.errorCode == 0 ==> s'.broker.member == None)
      && s'.client == s.client && s'.events == s.events
      && |s'.requests| == |s.requests| + 1 && AsksToLeave(m, s'.requests[|s.requests|])
  {
    var req := LeaveHeartbeat(m);
    var (b1, r1) := Attempt(Expire(s.broker, d.expires), req, d.first);
    assert r1.Reply? && r1.response.errorCode == 0 ==> b1.member == None;
    var (b2, r2) := Attempt(Expire(b1, d.expiresBetween), req, d.second);
    assert r2.Reply? && r2.response.errorCode == 0 ==> b2.member == None;
  }
}
