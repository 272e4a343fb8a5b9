/** Who can answer a hub RPC, and whose name a forwarded frame carries, in every run. */
module HubRpc {
  import opened Common
  import opened HubIds
  import opened Registry
  import opened Hub
  import opened HubSteps

  /** Connection `c` was given `id` at its registration. */
  predicate Holds(s: State, c: ConnId, id: Id) {
    c in s.tables.peers && s.tables.peers[c].id == id
  }

  /** `msg` came from the connection whose id it carries as its source. */
  predicate Authentic(s: State, msg: Message) {
    Holds(s, msg.from, msg.source)
  }

  /** `msg` may complete `w`: addressed to the requester, from the callee unless the
      callee id is empty, and no push unless that very command was requested. */
  predicate Answers(s: State, w: Waiter, msg: Message) {
    && msg.destination == w.requester
    && (w.dest != "" ==> msg.source == w.dest)
    && (IsUnsolicited(msg.command) ==> msg.command == w.command)
    && Authentic(s, msg)
  }

  /** Waiter `w` was armed by `c` for its request `msg`. */
  predicate Mine(s: State, c: ConnId, msg: Message, w: nat) {
    && w < |s.waiters| && Holds(s, c, s.waiters[w].requester)
    && s.waiters[w].dest == msg.destination && s.waiters[w].command == msg.command
  }

  predicate TaskOk(s: State, c: ConnId, t: Task) {
    match t
    case Idle => true
    case Discarding => true
    case Loaded(msg, w, onward) =>
      && msg.from == c && Authentic(s, msg) && w < |s.waiters| && s.waiters[w].requester == msg.destination
      && (onward.Some? ==> Holds(s, onward.value, msg.destination))
    case Routing(msg) => msg.from == c && Authentic(s, msg)
    case Calling(msg, callee) => msg.from == c && Authentic(s, msg) && Holds(s, callee, msg.destination)
    case Armed(msg, callee, w) => Authentic(s, msg) && Holds(s, callee, msg.destination) && Mine(s, c, msg, w)
    case Awaiting(msg, w) => Mine(s, c, msg, w)
    case Finishing(msg, w, reply) => Mine(s, c, msg, w) && (reply.Some? ==> Answers(s, s.waiters[w], reply.value))
  }

  ghost predicate TasksOk(s: State) {
    forall c :: c in s.tasks ==> TaskOk(s, c, s.tasks[c])
  }

  ghost predicate BoxesOk(s: State) {
    forall w :: 0 <= w < |s.waiters| && s.waiters[w].box.Some? ==> Answers(s, s.waiters[w], s.waiters[w].box.value)
  }

  ghost predicate PendingOk(s: State) {
    forall id :: id in s.pending ==> s.pending[id] < |s.waiters| && s.waiters[s.pending[id]].requester == id
  }

  /** Every forwarded frame went from the connection whose id is its source to a
      connection whose id is its destination. */
  ghost predicate SentOk(s: State) {
    forall i :: 0 <= i < |s.sent| ==>
      Authentic(s, s.sent[i].msg) && Holds(s, s.sent[i].to, s.sent[i].msg.destination)
  }

  /** Nobody holds "hub" or an id the hub's own fetches wait under. */
  ghost predicate NoHubImpostor(s: State) {
    forall c :: c in s.tables.peers ==> !Reserved(s.tables.peers[c].id)
  }

  ghost predicate Ok(s: State) {
    TasksOk(s) && BoxesOk(s) && PendingOk(s) && SentOk(s) && NoHubImpostor(s)
  }

  /** Ids are given once, and a waiter's terms never change. */
  ghost predicate Grows(s: State, s': State) {
    && (forall c, id :: Holds(s, c, id) ==> Holds(s', c, id))
    && |s.waiters| <= |s'.waiters|
    && (forall w :: 0 <= w < |s.waiters| ==> s'.waiters[w] == s.waiters[w].(box := s'.waiters[w].box))
  }

  lemma TaskSurvives(s: State, s': State, c: ConnId, t: Task)
    requires TaskOk(s, c, t) && Grows(s, s')
    ensures TaskOk(s', c, t)
  {
  }

  // ------------------------------------- the building blocks keep the invariant

  lemma WithTaskKeepsOk(s: State, c: ConnId, t: Task)
    requires Ok(s) && TaskOk(s, c, t)
    ensures Ok(WithTask(s, c, t))
  {
  }

  lemma ForwardKeepsOk(s: State, to: ConnId, msg: Message)
    requires Ok(s) && Authentic(s, msg) && Holds(s, to, msg.destination)
    ensures Ok(Forward(s, to, msg))
  {
  }

  lemma ArmWaiterKeepsOk(s: State, w: Waiter)
    requires Ok(s) && w.box.None?
    ensures Ok(ArmWaiter(s, w)) && Grows(s, ArmWaiter(s, w))
  {
  }

  lemma ForgetKeepsOk(s: State, id: Id)
    requires Ok(s)
    ensures Ok(s.(pending := s.pending - {id}))
  {
  }

  lemma WithBoxKeepsOk(s: State, w: nat, box: Option<Message>)
    requires Ok(s) && w < |s.waiters| && (box.Some? ==> Answers(s, s.waiters[w], box.value))
    ensures Ok(WithBox(s, w, box)) && Grows(s, WithBox(s, w, box))
  {
    var s' := WithBox(s, w, box);
    forall d | d in s'.tasks ensures TaskOk(s', d, s'.tasks[d]) {
      TaskSurvives(s, s', d, s'.tasks[d]);
    }
  }

  lemma DeliveryKeepsOk(s: State, c: ConnId, msg: Message, onward: Option<ConnId>)
    requires Ok(s) && msg.from == c && Authentic(s, msg) && (onward.Some? ==> Holds(s, onward.value, msg.destination))
    ensures Ok(AfterRefusal(s, c, msg, onward)) && Ok(BeginDelivery(s, c, msg, onward))
  {
    if onward.Some? {
      ForwardKeepsOk(s, onward.value, msg);
      WithTaskKeepsOk(Forward(s, onward.value, msg), c, Idle);
    } else {
      WithTaskKeepsOk(s, c, Routing(msg));
    }
    if msg.destination in s.pending {
      WithTaskKeepsOk(s, c, Loaded(msg, s.pending[msg.destination], onward));
    }
  }

  lemma OwnerHolds(s: State, id: Id)
    requires OwnersOk(s.tables) && id in s.tables.registered
    ensures Holds(s, s.tables.registered[id], id)
  {
  }

  // -------------------------------------------------- so every step keeps it

  lemma ReadKeepsOk(s: State, c: ConnId, frame: Frame, admitted: bool)
    requires Ok(s) && OwnersOk(s.tables) && Busy(s, c)
    ensures Ok(AfterRead(s, c, frame, admitted))
  {
    var msg := Message(s.tables.peers[c].id, frame.destination, frame.command, frame.body, c);
    WithTaskKeepsOk(s, c, Idle);
    WithTaskKeepsOk(s, c, Routing(msg));
    DeliveryKeepsOk(s, c, msg, None);
    if "store" in s.tables.registered {
      OwnerHolds(s, "store");
      ForwardKeepsOk(s, s.tables.registered["store"], msg.(destination := "store"));
      WithTaskKeepsOk(Forward(s, s.tables.registered["store"], msg.(destination := "store")), c, Discarding);
    }
  }

  lemma OfferKeepsOk(s: State, c: ConnId)
    requires Ok(s) && Busy(s, c) && s.tasks[c].Loaded? && s.tasks[c].w < |s.waiters|
    ensures Ok(AfterOffer(s, c))
  {
    var t := s.tasks[c];
    assert TaskOk(s, c, t);
    DeliveryKeepsOk(s, c, t.msg, t.onward);
    if Accepts(s.waiters[t.w], t.msg) {
      assert t.msg.source != "hub" by { assert !Reserved(s.tables.peers[t.msg.from].id); }
      WithBoxKeepsOk(s, t.w, Some(t.msg));
      WithTaskKeepsOk(WithBox(s, t.w, Some(t.msg)), c, Idle);
    }
  }

  lemma RouteKeepsOk(s: State, c: ConnId)
    requires Ok(s) && OwnersOk(s.tables) && Busy(s, c) && s.tasks[c].Routing?
    ensures Ok(AfterRoute(s, c))
  {
    var msg := s.tasks[c].msg;
    assert TaskOk(s, c, s.tasks[c]);
    WithTaskKeepsOk(s, c, Idle);
    if msg.destination in s.tables.registered {
      var d := s.tables.registered[msg.destination];
      OwnerHolds(s, msg.destination);
      DeliveryKeepsOk(s, c, msg, Some(d));
      WithTaskKeepsOk(s, c, Calling(msg, d));
      ForwardKeepsOk(s, d, msg);
      WithTaskKeepsOk(Forward(s, d, msg), c, Idle);
    }
  }

  lemma CallKeepsOk(s: State, step: Step)
    requires Ok(s) && Enabled(s, step) && IsCall(step) && !step.Receive?
    ensures Ok(Apply(s, step))
  {
    var c, t := step.c, s.tasks[step.c];
    assert TaskOk(s, c, t);
    match step
    case Arm(_) =>
      var w := Waiter(s.tables.peers[c].id, t.msg.destination, t.msg.command, None);
      ArmWaiterKeepsOk(s, w);
      WithTaskKeepsOk(ArmWaiter(s, w), c, Armed(t.msg, t.callee, |s.waiters|));
      assert Apply(s, step) == WithTask(ArmWaiter(s, w), c, Armed(t.msg, t.callee, |s.waiters|));
    case Transmit(_, _) =>
      ForwardKeepsOk(s, t.callee, t.msg);
      WithTaskKeepsOk(Forward(s, t.callee, t.msg), c, Awaiting(t.msg, t.w));
      WithTaskKeepsOk(s, c, Finishing(t.msg, t.w, None));
    case Timeout(_) =>
      WithTaskKeepsOk(s, c, Finishing(t.msg, t.w, None));
    case Disarm(_) =>
      var s' := s.(pending := s.pending - {s.tables.peers[c].id});
      ForgetKeepsOk(s, s.tables.peers[c].id);
      WithTaskKeepsOk(s', c, Idle);
      if t.reply.Some? { ForwardKeepsOk(WithTask(s', c, Idle), c, t.reply.value); }
  }

  lemma ReceiveKeepsOk(s: State, c: ConnId)
    requires Ok(s) && Enabled(s, Receive(c))
    ensures Ok(Apply(s, Receive(c)))
  {
    var t := s.tasks[c];
    assert TaskOk(s, c, t);
    WithBoxKeepsOk(s, t.w, None);
    WithTaskKeepsOk(WithBox(s, t.w, None), c, Finishing(t.msg, t.w, s.waiters[t.w].box));
  }

  lemma MoveKeepsOk(s: State, m: Registry.Move)
    requires Ok(s) && Enabled(s, Move(m))
    ensures Ok(AfterMove(s, m))
  {
    var s' := AfterMove(s, m);
    TempIdsAreFresh(s.tables.counter + 1, 0);
    assert Grows(s, s');
    forall d | d in s'.tasks ensures TaskOk(s', d, s'.tasks[d]) {
      TaskSurvives(s, s', d, s'.tasks[d]);
    }
  }

  lemma FetchKeepsOk(s: State, step: Step)
    requires Ok(s) && Enabled(s, step) && IsFetch(step)
    ensures Ok(Apply(s, step))
  {
    var s' := Apply(s, step);
    assert Grows(s, s');
    forall d | d in s'.tasks ensures TaskOk(s', d, s'.tasks[d]) { TaskSurvives(s, s', d, s'.tasks[d]); }
  }

  lemma StepKeepsOk(s: State, step: Step)
    requires Ok(s) && OwnersOk(s.tables) && Enabled(s, step)
    ensures Ok(Apply(s, step))
  {
    match step
    case Move(m) => MoveKeepsOk(s, m);
    case Read(c, frame, admitted) => ReadKeepsOk(s, c, frame, admitted);
    case Offer(c) => OfferKeepsOk(s, c);
    case Route(c) => RouteKeepsOk(s, c);
    case Receive(c) => ReceiveKeepsOk(s, c);
    case FetchArm(_) => FetchKeepsOk(s, step);
    case FetchReceive(_) => FetchKeepsOk(s, step);
    case FetchDisarm(_) => FetchKeepsOk(s, step);
    case _ => CallKeepsOk(s, step);
  }

  lemma {:induction false} RunKeepsOk(steps: seq<Step>)
    requires Exec(START, steps).Some?
    ensures Ok(Exec(START, steps).value)
    decreases |steps|
  {
    if steps != [] {
      var front := steps[..|steps| - 1];
      RunKeepsOk(front);
      ReachableTables(Exec(START, front).value);
      StepKeepsOk(Exec(START, front).value, steps[|steps| - 1]);
    }
  }

  lemma ReachableIsOk(s: State)
    requires Reachable(s)
    ensures Ok(s)
  {
    var steps :| Exec(START, steps) == Some(s);
    RunKeepsOk(steps);
  }

  // ----------------------------------------------------------------- theorems

  /** A reply that forwardHubRPC is about to take was addressed to the caller; if
      the request named a non-empty destination, it was read from a connection that
      holds that very id and carries it as its source; and it is a push only if that
      exact command was requested. */
  lemma RepliesComeFromTheCallee(s: State, c: ConnId)
    requires Reachable(s) && Enabled(s, Receive(c))
    ensures var request, reply := s.tasks[c].msg, s.waiters[s.tasks[c].w].box.value;
            && Holds(s, c, reply.destination) && Holds(s, reply.from, reply.source)
            && (request.destination != "" ==> reply.source == request.destination)
            && (IsUnsolicited(reply.command) ==> reply.command == request.command)
  {
    ReachableIsOk(s);
    assert TaskOk(s, c, s.tasks[c]);
  }

  /** Every frame the hub ever forwarded, request or reply, was read from the
      connection whose id it carries as its source, and went to a connection that
      holds its destination. */
  lemma ForwardedFramesAreHonest(s: State, i: nat)
    requires Reachable(s) && i < |s.sent|
    ensures Holds(s, s.sent[i].msg.from, s.sent[i].msg.source)
    ensures Holds(s, s.sent[i].to, s.sent[i].msg.destination)
  {
    ReachableIsOk(s);
  }

  /** The hub's own permission fetches wait under ids that no peer can hold or
      overwrite, so only the connection registered as "store" can answer them. */
  lemma OnlyStoreAnswersFetches(s: State, w: nat, stamp: nat)
    requires Reachable(s) && w < |s.waiters| && s.waiters[w].requester == FetchId(stamp)
    ensures forall c :: c in s.tables.peers ==> s.tables.peers[c].id != FetchId(stamp)
    ensures s.waiters[w].dest == "store"
    ensures s.waiters[w].box.Some? ==> Holds(s, s.waiters[w].box.value.from, "store")
  {
    ReachableIsOk(s);
    var steps :| Exec(START, steps) == Some(s);
    FetchesAskStore(steps, w);
  }

  lemma {:induction false} FetchesAskStore(steps: seq<Step>, w: nat)
    requires Exec(START, steps).Some? && w < |Exec(START, steps).value.waiters|
    requires FETCH_ID + "-" <= Exec(START, steps).value.waiters[w].requester
    ensures Exec(START, steps).value.waiters[w].dest == "store"
    decreases |steps|
  {
    if steps != [] {
      var front, last := steps[..|steps| - 1], steps[|steps| - 1];
      var s := Exec(START, front).value;
      RunKeepsOk(front);
      StepExtendsWaiters(s, last);
      assert last.Arm? ==> !Reserved(s.tables.peers[last.c].id);
      if w < |s.waiters| { FetchesAskStore(front, w); }
    }
  }

  lemma StepExtendsWaiters(s: State, step: Step)
    requires Enabled(s, step)
    ensures var t := Apply(s, step);
            && |s.waiters| <= |t.waiters| && (|t.waiters| == |s.waiters| || step.Arm? || step.FetchArm?)
            && (forall w :: 0 <= w < |s.waiters| ==> t.waiters[w] == s.waiters[w].(box := t.waiters[w].box))
  {
  }
}
