/** Calls as they run: the RPC that completes, and the one call whose answer anybody
    can give. */
module HubCalls {
  import opened Common
  import opened HubIds
  import opened Registry
  import opened Hub
  import opened HubSteps
  import opened HubRpc
  import opened HubAnswers

  // ------------------------------------------------------------------ starting a call

  /** Neither end of the call has been replaced and closed, and both are idle. */
  predicate Ends(s: State, a: ConnId, b: ConnId) {
    && s.tables.lock == None && a != b && Busy(s, a) && Busy(s, b)
    && a !in s.tables.closed && b !in s.tables.closed && s.tasks[b] == Idle
  }

  /** A request that the caller may put to the callee as an RPC, and that no waiter of
      the callee's own stands in the way of. The hub writes to an ephemeral client only
      between its reads, so an idle one is no callee. */
  predicate CanCall(s: State, a: ConnId, b: ConnId, request: Frame) {
    && Ends(s, a, b) && s.tasks[a] == Idle && !IsEphemeralClient(s.tables.peers[b].id)
    && request.destination == s.tables.peers[b].id && request.destination != "hub"
    && request.destination in s.tables.registered && s.tables.registered[request.destination] == b
    && request.destination !in s.pending && s.tables.peers[a].id != "store"
    && !IsOneWayReply(request.command) && !IsOneWayPush(request.command)
  }

  /** The request is read, routed and given a waiter. */
  lemma CallIsArmed(start: State, s: State, a: ConnId, b: ConnId, request: Frame) returns (t: State)
    requires Leads(start, s) && CanCall(s, a, b, request)
    ensures var id, msg := s.tables.peers[a].id, Stamped(s, a, request);
            t == State(s.tables, s.tasks[a := Armed(msg, b, |s.waiters|)],
                       s.waiters + [Waiter(id, msg.destination, msg.command, None)],
                       s.pending[id := |s.waiters|], s.fetching, s.sent)
    ensures Leads(start, t)
  {
    var msg := Stamped(s, a, request);
    t := Advance(start, s, Read(a, request, true));
    assert t == WithTask(s, a, Routing(msg));
    t := Advance(start, t, Route(a));
    assert t == WithTask(s, a, Calling(msg, b));
    t := Advance(start, t, Arm(a));
  }

  // ---------------------------------- the empty destination: the exact condition

  /** `s` with one more connection, registered and serving under a free id. */
  function Joined(s: State, c: ConnId, id: Id): State {
    s.(tables := JoinedTables(s.tables, c, id), tasks := s.tasks[c := Idle])
  }

  function JoinedTables(r: Tables, c: ConnId, id: Id): Tables {
    r.(registered := r.registered[id := c], conns := r.conns[id := c],
       peers := r.peers[c := Peer(id, id, None, Serving)])
  }

  lemma JoinTables(r: Tables, c: ConnId, id: Id)
    requires r.lock == None && c !in r.peers && id != "daemon" && id !in r.conns
    ensures var r1 := Registered(r, c, id);
            && r1.peers[c].stage == Registering && Published(r1, c).peers[c].stage == Replacing(None)
            && ReplacedClosed(Published(r1, c), c) == JoinedTables(r, c, id)
  {
  }

  lemma Join(s: State, c: ConnId, id: Id)
    requires Reachable(s) && s.tables.lock == None && c !in s.tables.peers
    requires Registrable(id) && id != "daemon" && id !in s.tables.conns
    ensures Reachable(Joined(s, c, id))
  {
    JoinTables(s.tables, c, id);
    var s1 := Advance(START, s, Move(Register(c, id)));
    var s2 := Advance(START, s1, Move(Publish(c)));
    var s3 := Advance(START, s2, Move(CloseReplaced(c)));
    assert s3 == Joined(s, c, id);
  }

  /** Three connections, one of them under the empty id. */
  function Trio(): State {
    Joined(Joined(Joined(START, 0, ""), 1, "a"), 2, "b")
  }

  lemma TrioIsReachable()
    ensures Reachable(Trio())
  {
    LeadsNowhere(START);
    assert Registrable("") && Registrable("a") && Registrable("b");
    Join(START, 0, "");
    Join(Joined(START, 0, ""), 1, "a");
    Join(Joined(Joined(START, 0, ""), 1, "a"), 2, "b");
  }

  /** "a" calls the connection registered under the empty id ... */
  lemma CallTheEmptyId() returns (s: State)
    ensures Reachable(s) && s.tables == Trio().tables && s.pending == map["a" := 0]
    ensures 2 in s.tasks && s.tasks[2] == Idle
    ensures s.tasks == Trio().tasks[1 := Armed(Message("a", "", "get-version", 0, 1), 0, 0)]
    ensures s.waiters == [Waiter("a", "", "get-version", None)]
  {
    TrioIsReachable();
    assert !IsEphemeralClient("");
    s := CallIsArmed(START, Trio(), 1, 0, Frame("a", "", "get-version", 0));
  }

  /** ... and "b" answers. */
  lemma EmptyDestinationIsUnchecked() returns (s: State)
    ensures Reachable(s) && |s.waiters| == 1 && s.waiters[0].dest == "" && s.waiters[0].requester == "a"
    ensures s.waiters[0].box.Some? && Holds(s, s.waiters[0].box.value.from, "b")
  {
    s := CallTheEmptyId();
    assert !IsEphemeralClient("b");
    s := Advance(START, s, Read(2, Frame("b", "a", "get-version", 0), true));
    assert s.tasks[2] == Loaded(Message("b", "a", "get-version", 0, 2), 0, None);
    s := Advance(START, s, Offer(2));
  }

  /** Every answer to a call on `dest` was read from a holder of `dest`. */
  ghost predicate Bound(s: State, dest: Id) {
    forall w :: 0 <= w < |s.waiters| && s.waiters[w].dest == dest && s.waiters[w].box.Some? ==>
      Holds(s, s.waiters[w].box.value.from, dest)
  }

  /** Answers to calls on `dest` come only from holders of `dest`, in every run,
      exactly when `dest` is not empty. */
  lemma CalleeBindingIsExact(dest: Id)
    ensures (forall s :: Reachable(s) ==> Bound(s, dest)) <==> dest != ""
  {
    if dest == "" {
      var s := EmptyDestinationIsUnchecked();
      assert s.waiters[0].dest == dest && !Holds(s, s.waiters[0].box.value.from, dest);
      assert !Bound(s, dest);
    } else {
      forall s | Reachable(s) ensures Bound(s, dest) { ReachableIsOk(s); }
    }
  }

  // ------------------------------------------------ why nobody may join a caller's id

  /** `s` with connection `c` in the place of the holder of `id`, which it closed. */
  function Usurped(s: State, c: ConnId, id: Id): State
    requires id in s.tables.conns
  {
    var r := JoinedTables(s.tables, c, id);
    s.(tables := r.(closed := r.closed + {s.tables.conns[id]}), tasks := s.tasks[c := Idle])
  }

  lemma UsurpTables(r: Tables, c: ConnId, id: Id)
    requires r.lock == None && c !in r.peers && id != "daemon" && id in r.conns && r.conns[id] != c
    ensures var r1 := Registered(r, c, id);
            && r1.peers[c].stage == Registering && Published(r1, c).peers[c].stage == Replacing(Some(r.conns[id]))
            && var t := JoinedTables(r, c, id);
               ReplacedClosed(Published(r1, c), c) == t.(closed := t.closed + {r.conns[id]})
  {
  }

  lemma Usurp(s: State, c: ConnId, id: Id)
    requires Reachable(s) && s.tables.lock == None && c !in s.tables.peers
    requires Registrable(id) && id != "daemon" && id in s.tables.conns && s.tables.conns[id] != c
    ensures Reachable(Usurped(s, c, id))
  {
    UsurpTables(s.tables, c, id);
    var s1 := Advance(START, s, Move(Register(c, id)));
    var s2 := Advance(START, s1, Move(Publish(c)));
    var s3 := Advance(START, s2, Move(CloseReplaced(c)));
    assert s3 == Usurped(s, c, id);
  }

  /** A caller whose id is registered again during its call is no longer found: the table
      leads to the waiter of the new connection. */
  lemma ReregistrationHidesTheCaller() returns (s: State)
    ensures Reachable(s) && 1 in s.tasks && InCall(s.tasks[1]) && s.tasks[1].w == 0 && Holds(s, 1, "a")
    ensures "a" in s.pending && s.pending["a"] == 1
  {
    s := CallTheEmptyId();
    assert Registrable("a") && !IsEphemeralClient("");
    Usurp(s, 3, "a");
    s := CallIsArmed(START, Usurped(s, 3, "a"), 3, 0, Frame("a", "", "get-version", 0));
  }

  // -------------------------------------------------------------- calls complete

  /** First half: the request reaches the callee under the caller's own id, and the
      caller waits. */
  lemma RequestGoesOut(s: State, a: ConnId, b: ConnId, request: Frame) returns (t: State)
    requires CanCall(s, a, b, request)
    ensures var id, msg := s.tables.peers[a].id, Stamped(s, a, request);
            t == State(s.tables, s.tasks[a := Awaiting(msg, |s.waiters|)],
                       s.waiters + [Waiter(id, msg.destination, msg.command, None)],
                       s.pending[id := |s.waiters|], s.fetching, s.sent + [Sent(b, msg)])
    ensures Leads(s, t)
  {
    LeadsNowhere(s);
    t := CallIsArmed(s, s, a, b, request);
    t := Advance(s, t, Transmit(a, true));
  }

  /** Second half: the callee's answer is correlated and handed to the caller. */
  lemma AnswerComesBack(start: State, s: State, a: ConnId, b: ConnId, msg: Message, w: nat, answer: Frame)
    returns (t: State)
    requires Leads(start, s) && Ends(s, a, b) && s.tasks[a] == Awaiting(msg, w)
    requires w < |s.waiters| && s.waiters[w].box == None && s.waiters[w].dest == s.tables.peers[b].id
    requires answer.destination == s.tables.peers[a].id
    requires answer.destination in s.pending && s.pending[answer.destination] == w
    requires answer.destination != "hub" && !IsEphemeralClient(s.tables.peers[b].id)
    requires IsUnsolicited(answer.command) ==> answer.command == s.waiters[w].command
    ensures var reply := Stamped(s, b, answer);
            t == State(s.tables, s.tasks[a := Idle], s.waiters,
                       s.pending - {answer.destination}, s.fetching, s.sent + [Sent(a, reply)])
    ensures Leads(start, t)
  {
    var reply := Stamped(s, b, answer);
    t := Advance(start, s, Read(b, answer, true));
    assert t == WithTask(s, b, Loaded(reply, w, None));
    t := Advance(start, t, Offer(b));
    assert t.tasks == s.tasks;
    assert t == WithBox(s, w, Some(reply));
    t := Advance(start, t, Receive(a));
    assert t.waiters == s.waiters;
    assert t == WithTask(s, a, Finishing(msg, w, Some(reply)));
    t := Advance(start, t, Disarm(a));
    assert t.tasks == s.tasks[a := Idle];
  }

  /** A call can complete: from any state where caller and callee are open and idle, some
      run delivers the request to the callee and the callee's answer to the caller, each
      under its sender's own id, and leaves nothing of the call but its spent waiter. */
  lemma CallsComplete(s: State, a: ConnId, b: ConnId, request: Frame, answer: Frame) returns (t: State)
    requires CanCall(s, a, b, request)
    requires answer.destination == s.tables.peers[a].id && answer.destination != "hub"
    requires IsUnsolicited(answer.command) ==> answer.command == request.command
    ensures Leads(s, t) && t.tables == s.tables && t.tasks == s.tasks && t.pending == s.pending - {answer.destination}
    ensures t.waiters == s.waiters + [Waiter(answer.destination, request.destination, request.command, None)]
    ensures t.sent == s.sent + [Sent(b, Stamped(s, a, request)), Sent(a, Stamped(s, b, answer))]
  {
    var mid := RequestGoesOut(s, a, b, request);
    t := AnswerComesBack(s, mid, a, b, Stamped(s, a, request), |s.waiters|, answer);
    assert t.pending == s.pending - {answer.destination};
    assert t.tasks == s.tasks;
  }
}
