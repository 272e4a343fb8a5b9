/** Routing and RPC correlation on top of the registration tables, as a step
    system: one step is one critical section, or one blocking operation, of one
    connection goroutine. */
module Hub {
  import opened Common
  import opened HubIds
  import opened Registry

  /** A routed frame. `from` records the connection it was read from; no step
      consults it. */
  datatype Message = Message(source: Id, destination: Id, command: string, body: nat, from: ConnId)

  /** What a peer put on the wire. `claimed` is the sender's own Source field. */
  datatype Frame = Frame(claimed: Id, destination: Id, command: string, body: nat)

  datatype Waiter = Waiter(requester: Id, dest: Id, command: string, box: Option<Message>)

  /** What a serving goroutine is in the middle of. */
  datatype Task =
    | Idle
    | Discarding                                              // tool.list swallows the next frame
    | Loaded(msg: Message, w: nat, onward: Option<ConnId>)    // inside deliverPendingRPC
    | Routing(msg: Message)
    | Calling(msg: Message, callee: ConnId)                   // inside forwardHubRPC
    | Armed(msg: Message, callee: ConnId, w: nat)
    | Awaiting(msg: Message, w: nat)
    | Finishing(msg: Message, w: nat, reply: Option<Message>)

  /** A frame the hub forwarded. */
  datatype Sent = Sent(to: ConnId, msg: Message)

  /** `tasks` has exactly the goroutines that are serving; waiters are numbered in
      the order they are made and `pending` is the table that finds them. `fetching` has
      the waiters of the hub's own fetches that have not received yet. */
  datatype State = State(
    tables: Tables,
    tasks: map<ConnId, Task>,
    waiters: seq<Waiter>,
    pending: map<Id, nat>,
    fetching: set<nat>,
    sent: seq<Sent>)

  const START := State(EMPTY, map[], [], map[], {}, [])

  datatype Step =
    | Move(m: Registry.Move)
    | Read(c: ConnId, frame: Frame, admitted: bool)
    | Offer(c: ConnId)
    | Route(c: ConnId)
    | Arm(c: ConnId)
    | Transmit(c: ConnId, ok: bool)
    | Receive(c: ConnId)
    | Timeout(c: ConnId)
    | Disarm(c: ConnId)
    | FetchArm(stamp: nat)
    | FetchReceive(w: nat)
    | FetchDisarm(stamp: nat)

  predicate Busy(s: State, c: ConnId) {
    c in s.tasks && c in s.tables.peers
  }

  /** Ids the hub lets a connection register under. */
  predicate Registrable(source: Id) {
    !Reserved(source) && source != "git-remote-hub"
  }

  /** The goroutine named by the step stands where the step begins, and no lock it
      needs is held by another. Refused frames are `Read` steps with `admitted`
      false: signature, ACL and permission verdicts are inputs. */
  predicate Enabled(s: State, step: Step) {
    match step
    case Move(m) =>
      && Ready(s.tables, m)
      && (m.Register? ==> Registrable(m.source))
      && (m.HangUp? ==> m.c in s.tasks && (s.tasks[m.c].Idle? || s.tasks[m.c].Discarding?))
    case Read(c, _, _) =>
      && Busy(s, c) && (s.tasks[c].Idle? || s.tasks[c].Discarding?)
      && (s.tables.lock == None || IsEphemeralClient(s.tables.peers[c].id))
    case Offer(c) => Busy(s, c) && s.tasks[c].Loaded? && s.tasks[c].w < |s.waiters|
    case Route(c) => Busy(s, c) && s.tasks[c].Routing? && s.tables.lock == None
    case Arm(c) => Busy(s, c) && s.tasks[c].Calling?
    case Transmit(c, _) => Busy(s, c) && s.tasks[c].Armed?
    case Receive(c) =>
      Busy(s, c) && s.tasks[c].Awaiting? && s.tasks[c].w < |s.waiters| && s.waiters[s.tasks[c].w].box.Some?
    case Timeout(c) => Busy(s, c) && s.tasks[c].Awaiting?
    case Disarm(c) => Busy(s, c) && s.tasks[c].Finishing?
    case FetchArm(_) => "store" in s.tables.registered && s.tables.lock == None
    case FetchReceive(w) =>
      w in s.fetching && w < |s.waiters| && s.waiters[w].box.Some?
    case FetchDisarm(_) => true
  }

  function Apply(s: State, step: Step): State
    requires Enabled(s, step)
  {
    match step
    case Move(m) => AfterMove(s, m)
    case Read(c, frame, admitted) => AfterRead(s, c, frame, admitted)
    case Offer(c) => AfterOffer(s, c)
    case Route(c) => AfterRoute(s, c)
    case Arm(c) =>
      var t := s.tasks[c];
      ArmWaiter(WithTask(s, c, Armed(t.msg, t.callee, |s.waiters|)),
                Waiter(s.tables.peers[c].id, t.msg.destination, t.msg.command, None))
    case Transmit(c, ok) =>
      var t := s.tasks[c];
      if ok then WithTask(Forward(s, t.callee, t.msg), c, Awaiting(t.msg, t.w))
      else WithTask(s, c, Finishing(t.msg, t.w, None))
    case Receive(c) =>
      var t := s.tasks[c];
      WithTask(WithBox(s, t.w, None), c, Finishing(t.msg, t.w, s.waiters[t.w].box))
    case Timeout(c) =>
      var t := s.tasks[c];
      WithTask(s, c, Finishing(t.msg, t.w, None))
    case Disarm(c) => AfterDisarm(s, c)
    case FetchArm(stamp) => AfterFetchArm(s, stamp)
    case FetchReceive(w) => WithBox(s, w, None).(fetching := s.fetching - {w})
    case FetchDisarm(stamp) => s.(pending := s.pending - {FetchId(stamp)})
  }

  function WithTask(s: State, c: ConnId, task: Task): State {
    s.(tasks := s.tasks[c := task])
  }

  function Forward(s: State, to: ConnId, msg: Message): State {
    s.(sent := s.sent + [Sent(to, msg)])
  }

  /** A waiter's channel has one slot: a delivery fills it, the receive empties it. */
  function WithBox(s: State, w: nat, box: Option<Message>): State
    requires w < |s.waiters|
  {
    s.(waiters := s.waiters[w := s.waiters[w].(box := box)])
  }

  /** registerPendingRPC: a later waiter for the same requester replaces the key. */
  function ArmWaiter(s: State, w: Waiter): State {
    s.(waiters := s.waiters + [w], pending := s.pending[w.requester := |s.waiters|])
  }

  /** hubStoreRPC waits under an id of its own. */
  function AfterFetchArm(s: State, stamp: nat): State {
    ArmWaiter(s, Waiter(FetchId(stamp), "store", "permission.snapshot", None))
    .(fetching := s.fetching + {|s.waiters|})
  }

  /** A goroutine serves from the end of its registration until it hangs up. */
  function AfterMove(s: State, m: Registry.Move): State
    requires Ready(s.tables, m)
  {
    s.(tables := After(s.tables, m),
       tasks := if m.CloseReplaced? then s.tasks[m.c := Idle]
                else if m.HangUp? then s.tasks - {m.c} else s.tasks)
  }

  /** One frame of a read loop. The claimed source is overwritten with the
      connection's own id before anything is routed. */
  function AfterRead(s: State, c: ConnId, frame: Frame, admitted: bool): State
    requires Busy(s, c)
  {
    var id := s.tables.peers[c].id;
    var msg := Message(id, frame.destination, frame.command, frame.body, c);
    if s.tasks[c].Discarding? || !admitted ||
       (frame.destination == "hub" && (frame.command == "cid.lease" || frame.command == "cid.unlease")) then
      WithTask(s, c, Idle)
    else if IsEphemeralClient(id) then
      WithTask(s, c, Routing(msg))
    else if frame.destination == "hub" then
      if frame.command == "tool.list" && "store" in s.tables.registered then
        WithTask(Forward(s, s.tables.registered["store"], msg.(destination := "store")), c, Discarding)
      else WithTask(s, c, Idle)
    else BeginDelivery(s, c, msg, None)
  }

  /** First half of deliverPendingRPC: look the waiter up under the lock. */
  function BeginDelivery(s: State, c: ConnId, msg: Message, onward: Option<ConnId>): State {
    if msg.destination in s.pending then WithTask(s, c, Loaded(msg, s.pending[msg.destination], onward))
    else AfterRefusal(s, c, msg, onward)
  }

  /** The frame was not a reply to a waiter. */
  function AfterRefusal(s: State, c: ConnId, msg: Message, onward: Option<ConnId>): State {
    if onward.Some? then WithTask(Forward(s, onward.value, msg), c, Idle)
    else WithTask(s, c, Routing(msg))
  }

  predicate Accepts(w: Waiter, msg: Message) {
    && (w.dest == "" || msg.source == w.dest || msg.source == "hub")
    && (IsUnsolicited(msg.command) ==> msg.command == w.command)
    && w.box.None?
  }

  /** Second half of deliverPendingRPC: check the waiter found earlier and send
      without blocking. The table may have changed in between. */
  function AfterOffer(s: State, c: ConnId): State
    requires Busy(s, c) && s.tasks[c].Loaded? && s.tasks[c].w < |s.waiters|
  {
    var t := s.tasks[c];
    if Accepts(s.waiters[t.w], t.msg) then
      WithTask(WithBox(s, t.w, Some(t.msg)), c, Idle)
    else AfterRefusal(s, c, t.msg, t.onward)
  }

  /** Routing of a frame that no waiter took. */
  function AfterRoute(s: State, c: ConnId): State
    requires Busy(s, c) && s.tasks[c].Routing?
  {
    var msg, id, registered := s.tasks[c].msg, s.tables.peers[c].id, s.tables.registered;
    var ephemeral := IsEphemeralClient(id);
    if msg.destination !in registered then WithTask(s, c, Idle)
    else if !ephemeral && IsOneWayReply(msg.command) then
      BeginDelivery(s, c, msg, Some(registered[msg.destination]))
    else if !ephemeral && id == "store" && msg.command !in {"channel.relay_activity", "channel.updated"} then
      WithTask(s, c, Idle)
    else if IsOneWayPush(msg.command) || (!ephemeral && id == "store") then
      WithTask(Forward(s, registered[msg.destination], msg), c, Idle)
    else WithTask(s, c, Calling(msg, registered[msg.destination]))
  }

  /** clearPendingRPC deletes by requester id, then the reply goes out. */
  function AfterDisarm(s: State, c: ConnId): State
    requires Busy(s, c) && s.tasks[c].Finishing?
  {
    var reply := s.tasks[c].reply;
    var s' := WithTask(s.(pending := s.pending - {s.tables.peers[c].id}), c, Idle);
    if reply.Some? then Forward(s', c, reply.value) else s'
  }

  /** The state after `steps` from `s`, if every step is enabled in turn. */
  function Exec(s: State, steps: seq<Step>): Option<State>
    decreases |steps|
  {
    if steps == [] then Some(s) else Then(Exec(s, steps[..|steps| - 1]), steps[|steps| - 1])
  }

  function Then(s: Option<State>, step: Step): Option<State> {
    if s.Some? && Enabled(s.value, step) then Some(Apply(s.value, step)) else None
  }

  /** Some run takes `s` to `t`. */
  ghost predicate Leads(s: State, t: State) {
    exists steps :: Exec(s, steps) == Some(t)
  }

  ghost predicate Reachable(s: State) {
    Leads(START, s)
  }

  lemma LeadsNowhere(s: State)
    ensures Leads(s, s)
  {
    assert Exec(s, []) == Some(s);
  }

  lemma Advance(s: State, t: State, step: Step) returns (u: State)
    requires Leads(s, t) && Enabled(t, step)
    ensures u == Apply(t, step) && Leads(s, u)
  {
    u := Apply(t, step);
    var steps :| Exec(s, steps) == Some(t);
    var longer := steps + [step];
    assert longer[..|longer| - 1] == steps;
    assert Exec(s, longer) == Some(u);
  }

  lemma {:induction false} ReachableAfter(s: State, steps: seq<Step>)
    requires Reachable(s) && Exec(s, steps).Some?
    ensures Reachable(Exec(s, steps).value)
    decreases |steps|
  {
    if steps != [] {
      ReachableAfter(s, steps[..|steps| - 1]);
      var t := Advance(START, Exec(s, steps[..|steps| - 1]).value, steps[|steps| - 1]);
    }
  }

  /** The table moves of a run, in order. */
  function MovesOf(steps: seq<Step>): seq<Registry.Move>
    decreases |steps|
  {
    if steps == [] then []
    else
      var front, last := MovesOf(steps[..|steps| - 1]), steps[|steps| - 1];
      if last.Move? then front + [last.m] else front
  }

  /** Routing never touches the tables: a hub run is a table run with RPC steps
      in between, so everything proved of the tables holds of the hub. */
  lemma {:induction false} RunProjectsToTables(s: State, steps: seq<Step>)
    requires Exec(s, steps).Some?
    ensures Replay(s.tables, MovesOf(steps)) == Some(Exec(s, steps).value.tables)
    decreases |steps|
  {
    if steps != [] {
      var front, last := steps[..|steps| - 1], steps[|steps| - 1];
      RunProjectsToTables(s, front);
      if last.Move? {
        assert MovesOf(steps)[..|MovesOf(steps)| - 1] == MovesOf(front);
      } else {
        RpcLeavesTables(Exec(s, front).value, last);
      }
    }
  }

  lemma RpcLeavesTables(s: State, step: Step)
    requires Enabled(s, step) && !step.Move?
    ensures Apply(s, step).tables == s.tables
  {
  }

  lemma ReachableTables(s: State)
    requires Reachable(s)
    ensures Possible(s.tables) && Ok(s.tables)
  {
    var steps :| Exec(START, steps) == Some(s);
    RunProjectsToTables(START, steps);
    PossibleIsOk(s.tables);
  }
}
