/** What one step of the hub touches. */
module HubSteps {
  import opened Common
  import opened HubIds
  import opened Registry
  import opened Hub

  /** The steps of forwardHubRPC. */
  predicate IsCall(step: Step) {
    step.Arm? || step.Transmit? || step.Receive? || step.Timeout? || step.Disarm?
  }

  /** The hub's own permission fetches. */
  predicate IsFetch(step: Step) {
    step.FetchArm? || step.FetchReceive? || step.FetchDisarm?
  }

  /** Only the task of `c` may differ, and no table. */
  ghost predicate Retasked(s: State, s': State, c: ConnId) {
    s'.tables == s.tables && c in s'.tasks && s'.tasks == s.tasks[c := s'.tasks[c]]
  }

  /** Has a waiter of its own. */
  predicate InCall(t: Task) {
    t.Armed? || t.Awaiting? || t.Finishing?
  }

  /** May yet receive from its waiter. */
  predicate Waiting(t: Task) {
    t.Armed? || t.Awaiting?
  }

  lemma DeliveryTouches(s: State, c: ConnId, msg: Message, onward: Option<ConnId>)
    ensures forall s' :: s' == BeginDelivery(s, c, msg, onward) || s' == AfterRefusal(s, c, msg, onward) ==>
              Retasked(s, s', c) && s'.waiters == s.waiters && s'.pending == s.pending && !InCall(s'.tasks[c])
  {
  }

  lemma ReadTouches(s: State, c: ConnId, frame: Frame, admitted: bool)
    requires Busy(s, c)
    ensures var s' := AfterRead(s, c, frame, admitted);
            Retasked(s, s', c) && s'.waiters == s.waiters && s'.pending == s.pending && !InCall(s'.tasks[c])
  {
  }

  lemma OfferTouches(s: State, c: ConnId)
    requires Busy(s, c) && s.tasks[c].Loaded? && s.tasks[c].w < |s.waiters|
    ensures var s' := AfterOffer(s, c);
            && Retasked(s, s', c) && s'.pending == s.pending && !InCall(s'.tasks[c])
            && var t := s.tasks[c];
               s'.waiters == if Accepts(s.waiters[t.w], t.msg) then WithBox(s, t.w, Some(t.msg)).waiters else s.waiters
  {
  }

  lemma RouteTouches(s: State, c: ConnId)
    requires Busy(s, c) && s.tasks[c].Routing?
    ensures var s' := AfterRoute(s, c);
            Retasked(s, s', c) && s'.waiters == s.waiters && s'.pending == s.pending && !InCall(s'.tasks[c])
  {
    var msg := s.tasks[c].msg;
    if msg.destination in s.tables.registered {
      DeliveryTouches(s, c, msg, Some(s.tables.registered[msg.destination]));
    }
  }

  /** Within a call a goroutine keeps its waiter; only arming gives it one, a new one. */
  lemma CallTouches(s: State, step: Step)
    requires Enabled(s, step) && IsCall(step)
    ensures var s', c := Apply(s, step), step.c;
            && Retasked(s, s', c)
            && (InCall(s'.tasks[c]) ==>
                  s'.tasks[c].w == if step.Arm? then |s.waiters| else s.tasks[c].w)
            && (!step.Arm? ==> InCall(s.tasks[c]))
            && (Waiting(s'.tasks[c]) && !step.Arm? ==> Waiting(s.tasks[c]))
            && s'.waiters == (if step.Arm? then s.waiters + [Waiter(s.tables.peers[c].id, s.tasks[c].msg.destination,
                                                                    s.tasks[c].msg.command, None)]
                              else if step.Receive? then WithBox(s, s.tasks[c].w, None).waiters else s.waiters)
            && s'.pending == (if step.Arm? then s.pending[s.tables.peers[c].id := |s.waiters|]
                              else if step.Disarm? then s.pending - {s.tables.peers[c].id} else s.pending)
  {
  }

  lemma MoveTouches(s: State, m: Registry.Move, c: ConnId)
    requires Enabled(s, Move(m))
    ensures var s' := AfterMove(s, m);
            && s'.waiters == s.waiters && s'.pending == s.pending
            && (c in s'.tasks ==> s'.tasks[c] == Idle || (c in s.tasks && s'.tasks[c] == s.tasks[c]))
            && (c in s.tasks && m != CloseReplaced(c) && m != HangUp(c) ==> c in s'.tasks && s'.tasks[c] == s.tasks[c])
            && (c in s.tables.peers ==> c in s'.tables.peers && s'.tables.peers[c].id == s.tables.peers[c].id)
  {
  }
}
