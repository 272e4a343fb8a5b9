/** Who may start a hub RPC and who may answer one, by the routing rules of the two
    read loops. */
module HubRoles {
  import opened Common
  import opened HubIds
  import opened Registry
  import opened Hub
  import opened HubSteps

  /** A frame under `id` that the router turns into a call: no push, and from a
      component that is not an ephemeral client also no reply, and nothing from the Store. */
  predicate Callable(id: Id, command: string) {
    !IsOneWayPush(command) && (IsEphemeralClient(id) || (id != "store" && !IsOneWayReply(command)))
  }

  predicate RoleOk(s: State, c: ConnId, t: Task) {
    c in s.tables.peers &&
    var id := s.tables.peers[c].id;
    match t
    case Idle => true
    case Discarding => true
    case Loaded(msg, _, _) => msg.source == id && !IsEphemeralClient(id)
    case Routing(msg) => msg.source == id
    case Finishing(msg, _, reply) =>
      Callable(id, msg.command) && (reply.Some? ==> !IsEphemeralClient(reply.value.source))
    case _ => Callable(id, t.msg.command)
  }

  ghost predicate RolesOk(s: State) {
    forall c :: c in s.tasks ==> RoleOk(s, c, s.tasks[c])
  }

  ghost predicate AnswersOk(s: State) {
    forall w :: 0 <= w < |s.waiters| && s.waiters[w].box.Some? ==> !IsEphemeralClient(s.waiters[w].box.value.source)
  }

  lemma StepKeepsAnswers(s: State, step: Step)
    requires RolesOk(s) && AnswersOk(s) && Enabled(s, step)
    ensures AnswersOk(Apply(s, step))
  {
  }

  lemma RetaskKeepsRoles(s: State, s': State, c: ConnId)
    requires RolesOk(s) && Retasked(s, s', c) && RoleOk(s, c, s'.tasks[c])
    ensures RolesOk(s')
  {
  }

  lemma DeliveryRoles(s: State, c: ConnId, msg: Message, onward: Option<ConnId>)
    requires c in s.tables.peers && msg.source == s.tables.peers[c].id && !IsEphemeralClient(msg.source)
    ensures forall s' :: s' == BeginDelivery(s, c, msg, onward) || s' == AfterRefusal(s, c, msg, onward) ==>
              Retasked(s, s', c) && RoleOk(s, c, s'.tasks[c])
  {
  }

  lemma ReadKeepsRoles(s: State, c: ConnId, frame: Frame, admitted: bool)
    requires RolesOk(s) && Busy(s, c)
    ensures RolesOk(AfterRead(s, c, frame, admitted))
  {
  }

  lemma OfferKeepsRoles(s: State, c: ConnId)
    requires RolesOk(s) && Busy(s, c) && s.tasks[c].Loaded? && s.tasks[c].w < |s.waiters|
    ensures RolesOk(AfterOffer(s, c))
  {
  }

  lemma RouteKeepsRoles(s: State, c: ConnId)
    requires RolesOk(s) && Busy(s, c) && s.tasks[c].Routing?
    ensures RolesOk(AfterRoute(s, c))
  {
    var msg := s.tasks[c].msg;
    assert RoleOk(s, c, s.tasks[c]);
    if !IsEphemeralClient(msg.source) && msg.destination in s.tables.registered {
      DeliveryRoles(s, c, msg, Some(s.tables.registered[msg.destination]));
    }
    RetaskKeepsRoles(s, AfterRoute(s, c), c);
  }

  lemma CallKeepsRoles(s: State, step: Step)
    requires RolesOk(s) && AnswersOk(s) && Enabled(s, step) && IsCall(step)
    ensures RolesOk(Apply(s, step))
  {
    CallTouches(s, step);
    assert RoleOk(s, step.c, s.tasks[step.c]);
    RetaskKeepsRoles(s, Apply(s, step), step.c);
  }

  lemma MoveKeepsRoles(s: State, m: Registry.Move)
    requires RolesOk(s) && Enabled(s, Move(m))
    ensures RolesOk(AfterMove(s, m))
  {
  }

  lemma StepKeepsRoles(s: State, step: Step)
    requires RolesOk(s) && AnswersOk(s) && Enabled(s, step)
    ensures RolesOk(Apply(s, step))
  {
    match step
    case Move(m) => MoveKeepsRoles(s, m);
    case Read(c, frame, admitted) => ReadKeepsRoles(s, c, frame, admitted);
    case Offer(c) => OfferKeepsRoles(s, c);
    case Route(c) => RouteKeepsRoles(s, c);
    case FetchArm(_) =>
    case FetchReceive(_) =>
    case FetchDisarm(_) =>
    case _ => CallKeepsRoles(s, step);
  }

  lemma {:induction false} RunKeepsRoles(steps: seq<Step>)
    requires Exec(START, steps).Some?
    ensures RolesOk(Exec(START, steps).value) && AnswersOk(Exec(START, steps).value)
    decreases |steps|
  {
    if steps != [] {
      RunKeepsRoles(steps[..|steps| - 1]);
      StepKeepsRoles(Exec(START, steps[..|steps| - 1]).value, steps[|steps| - 1]);
      StepKeepsAnswers(Exec(START, steps[..|steps| - 1]).value, steps[|steps| - 1]);
    }
  }

  /** In every run, whoever waits for an answer asked a question: pushes never wait,
      replies and the Store's own frames are never taken for new calls. */
  lemma OnlyQuestionsWait(s: State, c: ConnId)
    requires Reachable(s) && c in s.tasks && (s.tasks[c].Calling? || InCall(s.tasks[c]))
    ensures c in s.tables.peers && Callable(s.tables.peers[c].id, s.tasks[c].msg.command)
  {
    var steps :| Exec(START, steps) == Some(s);
    RunKeepsRoles(steps);
    assert RoleOk(s, c, s.tasks[c]);
  }

  /** In every run, an ephemeral client, whose frames the hub takes without checking a
      signature, never answers anybody's call: its frame is in no waiter, and is no
      caller's reply. */
  lemma EphemeralClientsNeverAnswer(s: State, w: nat, c: ConnId)
    requires Reachable(s)
    ensures w < |s.waiters| && s.waiters[w].box.Some? ==> !IsEphemeralClient(s.waiters[w].box.value.source)
    ensures c in s.tasks && s.tasks[c].Finishing? && s.tasks[c].reply.Some? ==>
              !IsEphemeralClient(s.tasks[c].reply.value.source)
  {
    var steps :| Exec(START, steps) == Some(s);
    RunKeepsRoles(steps);
    if c in s.tasks { assert RoleOk(s, c, s.tasks[c]); }
  }
}
