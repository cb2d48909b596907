/** The background heartbeat loop as the object that owns its state.

    Each method is proved to compute its part of `Heartbeat.Beat`; what runs of beats keep is
    proved in HeartbeatProofs. */
module Coordinator {
  import opened Common
  import opened Membership
  import opened Heartbeat

  class CoordinatorState {
    const member: Member
    var memberEpoch: int
    var ownedActive: seq<TaskIds>
    var ownedStandby: seq<TaskIds>
    var ownedWarmup: seq<TaskIds>
    var lastSentTasks: Option<TaskLists>
    var lastAssignment: Assignment
    var events: seq<Event>
    /** The far side of the transport. */
    var broker: Broker
    ghost var requests: seq<Request>

    ghost function View(): System
      reads this
    {
      System(Client(memberEpoch, TaskLists(ownedActive, ownedStandby, ownedWarmup), lastSentTasks, lastAssignment),
             broker, events, requests)
    }

    /** The state that `start` hands to the loop once its join was accepted. */
    constructor (member: Member, join: Response, broker: Broker)
      requires join.errorCode == 0
      ensures this.member == member && View() == Started(member, broker, join)
    {
      var initial := Resolved(member.topology, AdoptTasks(NO_TASKS, join));
      this.member := member;
      memberEpoch := join.epoch;
      ownedActive := OrElse(join.active, []);
      ownedStandby := OrElse(join.standby, []);
      ownedWarmup := OrElse(join.warmup, []);
      lastSentTasks := None;
      lastAssignment := initial;
      events := StatusEvents(join) + if initial != UNASSIGNED then [Assigned(initial)] else [];
      this.broker := broker;
      requests := [JoinHeartbeat(member)];
    }

    /** The owned tasks when they differ from the lists last sent; records them as sent. */
    method ChangedTaskLists() returns (lists: Option<TaskLists>)
      modifies this`lastSentTasks
      ensures lists == ListsToSend(old(View()).client, true)
      ensures lastSentTasks == Some(old(View()).client.owned)
    {
      var owned := TaskLists(ownedActive, ownedStandby, ownedWarmup);
      if lastSentTasks == Some(owned) {
        lists := None;
      } else {
        lastSentTasks := Some(owned);
        lists := Some(owned);
      }
    }

    /** The event of a response whose tasks changed the assignment; updates the assignment. */
    method AssignmentEvent(r: Response) returns (event: Option<Event>)
      modifies this`lastAssignment
      ensures lastAssignment == AdoptAssignment(member, old(lastAssignment), r)
      ensures (if event.Some? then [event.value] else []) == AssignmentEvents(old(lastAssignment), lastAssignment)
    {
      var assignment := lastAssignment;
      if r.active.Some? {
        var active := Resolve(r.active, member.topology);
        assignment := assignment.(active := active);
      }
      if r.standby.Some? {
        var standby := Resolve(r.standby, member.topology);
        assignment := assignment.(standby := standby);
      }
      if r.warmup.Some? {
        var warmup := Resolve(r.warmup, member.topology);
        assignment := assignment.(warmup := warmup);
      }
      if assignment == lastAssignment {
        event := None;
      } else {
        lastAssignment := assignment;
        event := Some(Assigned(assignment));
      }
    }

    method EmitResponse(r: Response)
      modifies this`events, this`ownedActive, this`ownedStandby, this`ownedWarmup, this`lastAssignment
      ensures View().client.owned == AdoptTasks(old(View()).client.owned, r)
      ensures lastAssignment == AdoptAssignment(member, old(lastAssignment), r)
      ensures events == old(events) + StatusEvents(r) + AssignmentEvents(old(lastAssignment), lastAssignment)
    {
      if r.status.Some? && r.status.value != [] {
        events := events + [NotReady(r.status.value)];
      }
      if r.active.Some? {
        ownedActive := r.active.value;
      }
      if r.standby.Some? {
        ownedStandby := r.standby.value;
      }
      if r.warmup.Some? {
        ownedWarmup := r.warmup.value;
      }
      var event := AssignmentEvent(r);
      if event.Some? {
        events := events + [event.value];
      }
    }

    /** Send one heartbeat and adopt the epoch and the assignment of a successful answer. */
    method SendAndAdopt(req: Request, d: Delivery) returns (outcome: Outcome)
      modifies this`broker, this`requests, this`memberEpoch, this`events,
               this`ownedActive, this`ownedStandby, this`ownedWarmup, this`lastAssignment
      ensures outcome == OutcomeOf(Send(old(broker), req, d).1)
      ensures outcome == Rejoin <==> SaysFenced(Send(old(broker), req, d).1)
      ensures outcome == Adopted <==> SaysAccepted(Send(old(broker), req, d).1)
      ensures broker == Send(old(broker), req, d).0 && requests == old(requests) + [req]
      ensures outcome == Adopted ==>
        var r := Send(old(broker), req, d).1.response;
        && memberEpoch == r.epoch
        && View().client.owned == AdoptTasks(old(View()).client.owned, r)
        && lastAssignment == AdoptAssignment(member, old(lastAssignment), r)
        && events == old(events) + StatusEvents(r) + AssignmentEvents(old(lastAssignment), lastAssignment)
      ensures outcome != Adopted ==>
        && memberEpoch == old(memberEpoch) && events == old(events) && lastAssignment == old(lastAssignment)
        && View().client.owned == old(View()).client.owned
    {
      var (b, result) := Send(broker, req, d);
      broker, requests := b, requests + [req];
      match result
      case Broken(_) => outcome := Transient;
      case Reply(r) =>
        if r.errorCode == 0 {
          memberEpoch := r.epoch;
          EmitResponse(r);
          outcome := Adopted;
        } else if r.errorCode in {FENCED_MEMBER_EPOCH, UNKNOWN_MEMBER_ID, STALE_MEMBER_EPOCH} {
          outcome := Rejoin;
        } else {
          outcome := Transient;
        }
    }

    method HeartbeatOnce(d: Delivery) returns (outcome: Outcome)
      modifies this
      ensures var r := Send(old(broker), NextRequest(member, old(View()).client, true), d).1;
        outcome == OutcomeOf(r) && (outcome == Rejoin <==> SaysFenced(r)) && (outcome == Adopted <==> SaysAccepted(r))
      ensures outcome != Rejoin ==> View() == Beat(member, old(View()), d, true)
      ensures outcome == Rejoin ==>
        && broker == Beat(member, old(View()), d, true).broker
          && requests == Beat(member, old(View()), d, true).requests
        && events == old(events)
        && View().client == old(View()).client.(lastSent := None)
    {
      var req;
      if memberEpoch == 0 {
        lastSentTasks := None;
        req := JoinHeartbeat(member);
      } else {
        var epoch := memberEpoch;
        var lists := ChangedTaskLists();
        req := SteadyHeartbeat(member, epoch, lists);
      }
      outcome := SendAndAdopt(req, d);
      if outcome != Adopted {
        lastSentTasks := None;
      }
    }

    /** Drop the epoch and the owned tasks, so that the next heartbeat joins again. */
    method ResetForRejoin()
      modifies this`memberEpoch, this`ownedActive, this`ownedStandby, this`ownedWarmup, this`lastAssignment
      ensures View() == old(View()).(client := Client(0, NO_TASKS, lastSentTasks, UNASSIGNED))
    {
      memberEpoch := 0;
      ownedActive, ownedStandby, ownedWarmup := [], [], [];
      lastAssignment := UNASSIGNED;
    }

    /** `run`: heartbeat until shutdown, then leave. */
    method RunLoop(ds: seq<Delivery>, last: Delivery)
      modifies this
      ensures View() == Leave(member, Run(member, old(View()), ds, true), last)
    {
      ghost var s0 := View();
      var k := 0;
      while k < |ds|
        invariant 0 <= k <= |ds| && View() == Run(member, s0, ds[..k], true)
      {
        ghost var before := View();
        var outcome := HeartbeatOnce(ds[k]);
        if outcome == Rejoin {
          ResetForRejoin();
          events := events + [Fenced];
        }
        assert View() == Beat(member, before, ds[k], true);
        assert ds[..k + 1][..k] == ds[..k];
        k := k + 1;
      }
      assert ds[..k] == ds;
      var (b, _) := Send(broker, LeaveHeartbeat(member), last);
      broker, requests := b, requests + [LeaveHeartbeat(member)];
    }
  }
}
