/** The streams-group heartbeat protocol: requests, the broker's side, the network, and one
    heartbeat of the client as a function of all of them. */
module Heartbeat {
  import opened Common
  import opened Membership

  // ---- wire values ----

  datatype Request = Request(
    groupId: string,
    memberId: string,
    epoch: int,
    processId: Option<string>,
    instanceId: Option<string>,
    rebalanceTimeoutMs: int,
    topology: Option<Topology>,
    active: Option<seq<TaskIds>>,
    standby: Option<seq<TaskIds>>,
    warmup: Option<seq<TaskIds>>,
    taskOffsets: Option<map<(string, int), int>>,
    taskEndOffsets: Option<map<(string, int), int>>)

  datatype Status = Status(code: int, detail: string)

  datatype Response = Response(
    errorCode: int,
    epoch: int,
    active: Option<seq<TaskIds>>,
    standby: Option<seq<TaskIds>>,
    warmup: Option<seq<TaskIds>>,
    status: Option<seq<Status>>)

  const FENCED_MEMBER_EPOCH := 110
  const UNKNOWN_MEMBER_ID := 25
  const STALE_MEMBER_EPOCH := 113
  const COORDINATOR_NOT_AVAILABLE := 15
  const NOT_COORDINATOR := 16
  const INVALID_REQUEST := 42
  const LEAVE_GROUP_MEMBER_EPOCH := -1

  /** What a member is started with. */
  datatype Member = Member(
    groupId: string,
    memberId: string,
    processId: string,
    instanceId: Option<string>,
    rebalanceTimeoutMs: int,
    topology: Topology)

  function JoinHeartbeat(m: Member): Request {
    Request(m.groupId, m.memberId, 0, Some(m.processId), m.instanceId, m.rebalanceTimeoutMs, Some(m.topology),
            Some([]), Some([]), Some([]), None, None)
  }

  function LeaveHeartbeat(m: Member): Request {
    Request(m.groupId, m.memberId, LEAVE_GROUP_MEMBER_EPOCH, None, m.instanceId, -1, None, None, None, None, None, None)
  }

  /** The three lists travel together or not at all. */
  function SteadyHeartbeat(m: Member, epoch: int, lists: Option<TaskLists>): Request {
    var base := Request(m.groupId, m.memberId, epoch, Some(m.processId), m.instanceId, m.rebalanceTimeoutMs, None,
                        None, None, None, None, None);
    match lists
    case None => base
    case Some(l) => base.(active := Some(l.active), standby := Some(l.standby), warmup := Some(l.warmup))
  }

  // ---- Kafka's request validation ----

  datatype Refusal =
    | TaskOffsetsUnsupported
    | TaskEndOffsetsUnsupported
    | MemberIdEmpty
    | GroupIdEmpty
    | InstanceIdEmpty
    | RebalanceTimeoutMissing
    | ActiveNotEmpty
    | StandbyNotEmpty
    | WarmupNotEmpty
    | TopologyMissing
    | InstanceIdMissing
    | EpochTooLow
    | SomeListsMissing
    | TopologyUnexpected

  /** Unicode white space. */
  predicate IsSpace(c: char) {
    var u := c as int;
    || 0x09 <= u <= 0x0D || u == 0x20 || u == 0x85 || u == 0xA0 || u == 0x1680
    || 0x2000 <= u <= 0x200A || u == 0x2028 || u == 0x2029 || u == 0x202F || u == 0x205F || u == 0x3000
  }

  predicate Blank(s: string) {
    forall k :: 0 <= k < |s| ==> IsSpace(s[k])
  }

  predicate NotEmpty(tasks: Option<seq<TaskIds>>) {
    tasks.None? || tasks.value != []
  }

  function KafkaRefusal(r: Request): Option<Refusal> {
    if r.taskOffsets.Some? then Some(TaskOffsetsUnsupported)
    else if r.taskEndOffsets.Some? then Some(TaskEndOffsetsUnsupported)
    else if Blank(r.memberId) then Some(MemberIdEmpty)
    else if Blank(r.groupId) then Some(GroupIdEmpty)
    else if r.instanceId.Some? && Blank(r.instanceId.value) then Some(InstanceIdEmpty)
    else if r.epoch == 0 && r.rebalanceTimeoutMs == -1 then Some(RebalanceTimeoutMissing)
    else if r.epoch == 0 && NotEmpty(r.active) then Some(ActiveNotEmpty)
    else if r.epoch == 0 && NotEmpty(r.standby) then Some(StandbyNotEmpty)
    else if r.epoch == 0 && NotEmpty(r.warmup) then Some(WarmupNotEmpty)
    else if r.epoch == 0 && r.topology.None? then Some(TopologyMissing)
    else if r.epoch == -2 && r.instanceId.None? then Some(InstanceIdMissing)
    else if r.epoch < -2 then Some(EpochTooLow)
    else if (r.active.Some? || r.standby.Some? || r.warmup.Some?)
      && (r.active.None? || r.standby.None? || r.warmup.None?)
    then Some(SomeListsMissing)
    else if r.epoch != 0 && r.topology.Some? then Some(TopologyUnexpected)
    else None
  }

  // ---- the broker and the network ----

  /** The broker's view of this member: the task lists it last reported, or not a member. */
  datatype Broker = Broker(member: Option<TaskLists>)

  type ErrorCode = c: int | c != 0 witness 42

  /** What the broker decides on a valid request; it may forget the member when it refuses. */
  datatype Choice =
    | Accept(epoch: int, active: Option<seq<TaskIds>>, standby: Option<seq<TaskIds>>, warmup: Option<seq<TaskIds>>,
             status: Option<seq<Status>>)
    | Refuse(code: ErrorCode, forget: bool)

  function ErrorReply(code: int): Response {
    Response(code, 0, None, None, None, None)
  }

  /** The broker answers one request: an invalid one and one of a stranger are refused, a join or
      a steady heartbeat it accepts stores the lists it carries, absent lists keep the stored
      ones, and a negative epoch leaves the group. */
  function Handle(b: Broker, req: Request, choice: Choice): (Broker, Response) {
    if KafkaRefusal(req).Some? then (b, ErrorReply(INVALID_REQUEST))
    else
      match choice
      case Refuse(code, forget) => (if forget then Broker(None) else b, ErrorReply(code))
      case Accept(epoch, active, standby, warmup, status) =>
        var reply := Response(0, epoch, active, standby, warmup, status);
        if req.epoch < 0 then (Broker(None), reply)
        else if req.epoch != 0 && b.member.None? then (b, ErrorReply(UNKNOWN_MEMBER_ID))
        else if req.active.Some? && req.standby.Some? && req.warmup.Some?
        then (Broker(Some(TaskLists(req.active.value, req.standby.value, req.warmup.value))), reply)
        else (b, reply)
  }

  /** One attempt to deliver: answered, handled with the answer lost, or never delivered. */
  datatype Fate =
    | Answered(choice: Choice)
    | AnswerLost(choice: Choice, retriable: bool)
    | Undelivered(retriable: bool)

  datatype Result = Reply(response: Response) | Broken(retriable: bool)

  function Attempt(b: Broker, req: Request, fate: Fate): (Broker, Result) {
    match fate
    case Answered(choice) => var (b', r) := Handle(b, req, choice); (b', Reply(r))
    case AnswerLost(choice, retriable) => (Handle(b, req, choice).0, Broken(retriable))
    case Undelivered(retriable) => (b, Broken(retriable))
  }

  predicate ShouldRediscover(r: Result) {
    match r
    case Reply(response) => response.errorCode == COORDINATOR_NOT_AVAILABLE || response.errorCode == NOT_COORDINATOR
    case Broken(retriable) => retriable
  }

  /** How the world treats one heartbeat: the member may expire before it, the first attempt has
      its fate, and when the transport resends, rediscovery may fail, the member may expire in
      between, and the second attempt has its own fate. */
  datatype Delivery = Delivery(expires: bool, first: Fate, rediscovered: bool, expiresBetween: bool, second: Fate)

  function Expire(b: Broker, expires: bool): Broker {
    if expires then Broker(None) else b
  }

  /** The routing transport: at most one resend of the same request, to a rediscovered coordinator. */
  function Send(b: Broker, req: Request, d: Delivery): (Broker, Result) {
    var (b1, r1) := Attempt(Expire(b, d.expires), req, d.first);
    if !ShouldRediscover(r1) then (b1, r1)
    else if !d.rediscovered then (b1, Broken(false))
    else Attempt(Expire(b1, d.expiresBetween), req, d.second)
  }

  // ---- the client ----

  datatype Event = Assigned(assignment: Assignment) | NotReady(statuses: seq<Status>) | Fenced

  datatype Outcome = Adopted | Rejoin | Transient

  datatype Client = Client(epoch: int, owned: TaskLists, lastSent: Option<TaskLists>, lastAssignment: Assignment)

  /** The whole system between two heartbeats. */
  datatype System = System(client: Client, broker: Broker, events: seq<Event>, requests: seq<Request>)

  /** The lists a steady heartbeat carries: under delta encoding only when they differ from the
      last lists sent. */
  function ListsToSend(c: Client, delta: bool): Option<TaskLists> {
    if delta && c.lastSent == Some(c.owned) then None else Some(c.owned)
  }

  function NextRequest(m: Member, c: Client, delta: bool): Request {
    if c.epoch == 0 then JoinHeartbeat(m) else SteadyHeartbeat(m, c.epoch, ListsToSend(c, delta))
  }

  function OutcomeOf(r: Result): Outcome {
    match r
    case Reply(response) =>
      if response.errorCode == 0 then Adopted
      else if response.errorCode in {FENCED_MEMBER_EPOCH, UNKNOWN_MEMBER_ID, STALE_MEMBER_EPOCH} then Rejoin
      else Transient
    case Broken(_) => Transient
  }

  /** A reply that says the member is fenced, unknown or stale. */
  predicate SaysFenced(r: Result) {
    r.Reply? && (r.response.errorCode == 110 || r.response.errorCode == 25 || r.response.errorCode == 113)
  }

  predicate SaysAccepted(r: Result) {
    r.Reply? && r.response.errorCode == 0
  }

  function OrElse<T>(o: Option<T>, default: T): T {
    if o.Some? then o.value else default
  }

  function AdoptTasks(owned: TaskLists, r: Response): TaskLists {
    TaskLists(OrElse(r.active, owned.active), OrElse(r.standby, owned.standby), OrElse(r.warmup, owned.warmup))
  }

  /** The assignment after a response: an omitted role keeps its previous tasks. */
  function AdoptAssignment(m: Member, last: Assignment, r: Response): Assignment {
    Assignment(if r.active.Some? then ResolveAll(m.topology, r.active.value) else last.active,
               if r.standby.Some? then ResolveAll(m.topology, r.standby.value) else last.standby,
               if r.warmup.Some? then ResolveAll(m.topology, r.warmup.value) else last.warmup)
  }

  function StatusEvents(r: Response): seq<Event> {
    if r.status.Some? && r.status.value != [] then [NotReady(r.status.value)] else []
  }

  function AssignmentEvents(last: Assignment, next: Assignment): seq<Event> {
    if next == last then [] else [Assigned(next)]
  }

  /** One heartbeat, with the reset that follows a fence. */
  function Beat(m: Member, s: System, d: Delivery, delta: bool): System {
    var c := s.client;
    var req := NextRequest(m, c, delta);
    var sent := if c.epoch == 0 then None else Some(c.owned);
    var (b, result) := Send(s.broker, req, d);
    var requests := s.requests + [req];
    match OutcomeOf(result)
    case Adopted =>
      var r := result.response;
      var next := AdoptAssignment(m, c.lastAssignment, r);
      System(Client(r.epoch, AdoptTasks(c.owned, r), sent, next), b,
             s.events + StatusEvents(r) + AssignmentEvents(c.lastAssignment, next), requests)
    case Rejoin => System(Client(0, NO_TASKS, None, UNASSIGNED), b, s.events + [Fenced], requests)
    case Transient => System(c.(lastSent := None), b, s.events, requests)
  }

  /** The member right after `start` adopted the answer to its first join. */
  function Started(m: Member, b: Broker, join: Response): System {
    var owned := AdoptTasks(NO_TASKS, join);
    var initial := Resolved(m.topology, owned);
    System(Client(join.epoch, owned, None, initial), b,
           StatusEvents(join) + AssignmentEvents(UNASSIGNED, initial), [JoinHeartbeat(m)])
  }

  /** A run of heartbeats. */
  function Run(m: Member, s: System, ds: seq<Delivery>, delta: bool): System {
    if ds == [] then s
    else Beat(m, Run(m, s, ds[..|ds| - 1], delta), ds[|ds| - 1], delta)
  }

  /** Shutdown: one leave heartbeat, whatever becomes of it. */
  function Leave(m: Member, s: System, d: Delivery): System {
    var req := LeaveHeartbeat(m);
    s.(broker := Send(s.broker, req, d).0, requests := s.requests + [req])
  }
}
