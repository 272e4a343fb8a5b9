/** Where every frame goes: the routing rules by command and sender, as the steps of the
    two read loops carry them out. */
module HubRoutes {
  import opened Common
  import opened HubIds
  import opened Registry
  import opened Hub
  import opened HubSteps
  import opened HubRpc
  import opened HubAnswers

  // ------------------------------------------------------------- commands by name

  /** Pushes that nobody waits on. */
  predicate Push(command: string) {
    command in {"channel.turn", "channel.activity", "channel.member_notify", "llm.usage.record"}
  }

  /** Commands that complete a call only if the call asked for them. */
  predicate Unrequested(command: string) {
    command in {"channel.turn", "channel.activity", "channel.member_notify", "channel.updated",
                "channel.relay_activity", "user.goal", "user.turn", "chat.message", "version",
                "get-version", "permission.snapshot", "permission.granted", "permission.revoked",
                "visibility.set"}
  }

  lemma NoPushIsAResponse(command: string)
    requires Unrequested(command)
    ensures !HasSuffix(command, ".response")
  {
  }

  /** The router's three command classes are these. */
  lemma CommandClasses(command: string)
    ensures IsOneWayPush(command) <==> Push(command)
    ensures IsUnsolicited(command) <==> Unrequested(command)
    ensures IsOneWayReply(command) <==> Reply(command)
  {
    ResponseSuffix(command);
    if Unrequested(command) { NoPushIsAResponse(command); }
  }

  // ------------------------------------------------------------------- one frame

  /** The sender is serving and between frames, and nobody is registering. */
  predicate Sends(s: State, a: ConnId) {
    s.tables.lock == None && Busy(s, a) && s.tasks[a] == Idle
  }

  /** `s` once `msg` has gone out to `b`. */
  function Delivered(s: State, b: ConnId, msg: Message): State {
    s.(sent := s.sent + [Sent(b, msg)])
  }

  datatype Fate = Lost | Forwarded | Called

  /** What becomes of a frame for a registered destination that no waiter takes. An
      ephemeral client only pushes and calls; the Store only replies and relays; any
      other component pushes, replies and calls. */
  ghost function FateOf(id: Id, command: string): Fate {
    if IsEphemeralClient(id) then if Push(command) then Forwarded else Called
    else if id == "store" then
      if Reply(command) || command in {"channel.relay_activity", "channel.updated"} then Forwarded else Lost
    else if Push(command) || Reply(command) then Forwarded
    else Called
  }

  /** The state once the frame has met its fate. */
  ghost function Settled(s: State, a: ConnId, frame: Frame): State
    requires a in s.tables.peers
  {
    var msg := Stamped(s, a, frame);
    if frame.destination !in s.tables.registered then s
    else
      var b := s.tables.registered[frame.destination];
      match FateOf(s.tables.peers[a].id, frame.command)
      case Lost => s
      case Forwarded => Delivered(s, b, msg)
      case Called => s.(tasks := s.tasks[a := Calling(msg, b)])
  }

  lemma TaskBack(s: State, a: ConnId)
    requires a in s.tasks && s.tasks[a] == Idle
    ensures s.tasks[a := Idle] == s.tasks
  {
  }

  /** A frame about to be routed meets its fate. */
  lemma RouteSettles(s: State, r: State, a: ConnId, frame: Frame)
    requires Sends(s, a) && r == s.(tasks := s.tasks[a := Routing(Stamped(s, a, frame))])
    requires frame.destination !in s.pending || IsEphemeralClient(s.tables.peers[a].id) || !Reply(frame.command)
    ensures Enabled(r, Route(a)) && Apply(r, Route(a)) == Settled(s, a, frame)
  {
    CommandClasses(frame.command);
    TaskBack(s, a);
    assert r.tasks[a := Idle] == s.tasks;
  }

  /** Every admitted frame of an idle sender, for another component under whose id nobody
      waits, meets its fate in two steps: forwarded to the holder of its destination,
      turned into a call to it, or dropped; and nothing else changes. */
  lemma FramesMeetTheirFate(s: State, a: ConnId, frame: Frame)
    requires Sends(s, a) && (frame.destination != "hub" || IsEphemeralClient(s.tables.peers[a].id))
    requires frame.destination !in s.pending || IsEphemeralClient(s.tables.peers[a].id)
    requires frame.destination != "hub" || frame.command !in {"cid.lease", "cid.unlease"}
    ensures Then(Then(Some(s), Read(a, frame, true)), Route(a)) == Some(Settled(s, a, frame))
  {
    var r := s.(tasks := s.tasks[a := Routing(Stamped(s, a, frame))]);
    assert Apply(s, Read(a, frame, true)) == r;
    RouteSettles(s, r, a, frame);
  }

  /** The waiter under the frame's destination does not want it: it is full, or waits for
      somebody else, or for another command than this push. */
  predicate Unwanted(s: State, a: ConnId, frame: Frame) {
    && a in s.tables.peers && frame.destination in s.pending && s.pending[frame.destination] < |s.waiters|
    && var w, id := s.waiters[s.pending[frame.destination]], s.tables.peers[a].id;
       || w.box.Some? || (w.dest != "" && id != w.dest && id != "hub")
       || (Unrequested(frame.command) && frame.command != w.command)
  }

  /** A frame that a waiter does not want is routed all the same. */
  lemma UnwantedFramesMeetTheirFate(s: State, a: ConnId, frame: Frame)
    requires Sends(s, a) && !IsEphemeralClient(s.tables.peers[a].id) && frame.destination != "hub"
    requires Unwanted(s, a, frame) && !Reply(frame.command)
    ensures Then(Then(Then(Some(s), Read(a, frame, true)), Offer(a)), Route(a)) == Some(Settled(s, a, frame))
  {
    var msg := Stamped(s, a, frame);
    var loaded := s.(tasks := s.tasks[a := Loaded(msg, s.pending[frame.destination], None)]);
    var r := s.(tasks := s.tasks[a := Routing(msg)]);
    CommandClasses(frame.command);
    assert Apply(s, Read(a, frame, true)) == loaded;
    assert loaded.tasks[a := Routing(msg)] == r.tasks;
    assert Apply(loaded, Offer(a)) == r;
    RouteSettles(s, r, a, frame);
  }

  /** A reply that a waiter does not want, offered twice, goes to its destination. */
  lemma UnwantedRepliesGoOn(s: State, a: ConnId, frame: Frame)
    requires Sends(s, a) && !IsEphemeralClient(s.tables.peers[a].id) && frame.destination != "hub"
    requires Unwanted(s, a, frame) && Reply(frame.command) && frame.destination in s.tables.registered
    ensures Then(Then(Then(Then(Some(s), Read(a, frame, true)), Offer(a)), Route(a)), Offer(a)) ==
            Some(Delivered(s, s.tables.registered[frame.destination], Stamped(s, a, frame)))
  {
    var msg, w, b := Stamped(s, a, frame), s.pending[frame.destination], s.tables.registered[frame.destination];
    var loaded := s.(tasks := s.tasks[a := Loaded(msg, w, None)]);
    var r := s.(tasks := s.tasks[a := Routing(msg)]);
    var again := s.(tasks := s.tasks[a := Loaded(msg, w, Some(b))]);
    CommandClasses(frame.command);
    TaskBack(s, a);
    assert Apply(s, Read(a, frame, true)) == loaded;
    assert loaded.tasks[a := Routing(msg)] == r.tasks && r.tasks[a := again.tasks[a]] == again.tasks;
    assert Apply(loaded, Offer(a)) == r;
    assert Apply(r, Route(a)) == again;
    assert again.tasks[a := Idle] == s.tasks;
    assert Apply(again, Offer(a)) == Delivered(s, b, msg);
  }

  /** Frames for the hub itself: "tool.list" is passed on to the Store and the sender's
      next frame will be swallowed; no other one leaves the hub. */
  lemma HubKeepsItsFrames(s: State, a: ConnId, frame: Frame)
    requires Sends(s, a) && !IsEphemeralClient(s.tables.peers[a].id) && frame.destination == "hub"
    ensures Then(Some(s), Read(a, frame, true)) ==
            Some(if frame.command == "tool.list" && "store" in s.tables.registered
                 then Delivered(s, s.tables.registered["store"],
                                Message(s.tables.peers[a].id, "store", "tool.list", frame.body, a))
                      .(tasks := s.tasks[a := Discarding])
                 else s)
  {
    TaskBack(s, a);
  }

  /** A frame that is not admitted, or comes where a Store answer is expected, or manages
      a lease, changes nothing but that expectation. */
  lemma OtherFramesVanish(s: State, a: ConnId, frame: Frame, admitted: bool)
    requires s.tables.lock == None && Busy(s, a) && (s.tasks[a] == Idle || s.tasks[a] == Discarding)
    requires s.tasks[a] == Discarding || !admitted
             || (frame.destination == "hub" && frame.command in {"cid.lease", "cid.unlease"})
    ensures Then(Some(s), Read(a, frame, admitted)) == Some(s.(tasks := s.tasks[a := Idle]))
  {
  }

  // ---------------------------------------------------------------- deliveries

  /** In every run, an offered frame is taken, and then goes nowhere else, if and only if
      the waiter is empty, waits for the sender or for nobody in particular, and the frame
      is no push or the very command asked for. */
  lemma DeliveryIsExact(s: State, c: ConnId)
    requires Reachable(s) && Enabled(s, Offer(c))
    ensures var t, w, msg := Apply(s, Offer(c)), s.tasks[c].w, s.tasks[c].msg;
            if s.waiters[w].box == None && (s.waiters[w].dest == "" || s.waiters[w].dest == msg.source)
               && (Unrequested(msg.command) ==> msg.command == s.waiters[w].command)
            then t == s.(tasks := s.tasks[c := Idle], waiters := s.waiters[w := s.waiters[w].(box := Some(msg))])
            else t.waiters == s.waiters
  {
    ReachableIsOk(s);
    CommandClasses(s.tasks[c].msg.command);
    assert TaskOk(s, c, s.tasks[c]);
    assert !Reserved(s.tables.peers[c].id);
    OfferTouches(s, c);
  }

  /** A call that gets no answer ends without a trace but its waiter: its key is gone and
      nothing is sent, whether the request could not be written or the wait timed out. */
  lemma UnansweredCallsEndQuietly(s: State, c: ConnId)
    requires Busy(s, c) && (s.tasks[c].Armed? || s.tasks[c].Awaiting?)
    ensures var give := if s.tasks[c].Armed? then Transmit(c, false) else Timeout(c);
            Then(Then(Some(s), give), Disarm(c)) ==
            Some(s.(tasks := s.tasks[c := Idle], pending := s.pending - {s.tables.peers[c].id}))
  {
    var f := s.(tasks := s.tasks[c := Finishing(s.tasks[c].msg, s.tasks[c].w, None)]);
    assert f.tasks[c := Idle] == s.tasks[c := Idle];
    assert Apply(f, Disarm(c)) == s.(tasks := s.tasks[c := Idle], pending := s.pending - {s.tables.peers[c].id});
  }

  /** A connection between frames may hang up and clean up, and any registrable id may be
      registered while nobody is registering: the tables take these moves and nothing else
      in the hub changes but the goroutine's task. */
  lemma ConnectionsComeAndGo(s: State, c: ConnId, id: Id)
    requires s.tables.lock == None
    ensures c !in s.tables.peers && Registrable(id) ==>
              Then(Some(s), Move(Register(c, id))) == Some(s.(tables := After(s.tables, Register(c, id))))
    ensures Busy(s, c) && s.tasks[c] == Idle && s.tables.peers[c].stage == Serving ==>
              Then(Some(s), Move(HangUp(c))) ==
              Some(s.(tables := After(s.tables, HangUp(c)), tasks := s.tasks - {c}))
  {
  }

  // -------------------------------------------------------- the hub's own fetches

  /** `s` with one more waiter, for the Store's snapshot, found under `id`. */
  function Asking(s: State, id: Id, box: Option<Message>): State {
    s.(waiters := s.waiters + [Waiter(id, "store", "permission.snapshot", box)],
       pending := s.pending[id := |s.waiters|], fetching := s.fetching + {|s.waiters|})
  }

  lemma StoreIsLasting()
    ensures !IsEphemeralClient("store")
  {
  }

  /** A permission fetch asks the Store under an id of its own. */
  lemma FetchAsksTheStore(s: State, stamp: nat)
    requires s.tables.lock == None && "store" in s.tables.registered
    ensures Then(Some(s), FetchArm(stamp)) == Some(Asking(s, "hub-perm-fetch-" + Decimal(stamp), None))
  {
    assert FETCH_ID + "-" == "hub-perm-fetch-";
  }

  /** The Store's snapshot for that id goes to its waiter ... */
  lemma FetchIsAnswered(s: State, b: ConnId, id: Id, body: nat)
    requires Sends(s, b) && s.tables.peers[b].id == "store" && id != "hub"
    ensures var read := Read(b, Frame("store", id, "permission.snapshot", body), true);
            Then(Then(Some(Asking(s, id, None)), read), Offer(b)) ==
            Some(Asking(s, id, Some(Message("store", id, "permission.snapshot", body, b))))
  {
    var asking, reply, w := Asking(s, id, None), Message("store", id, "permission.snapshot", body, b), |s.waiters|;
    StoreIsLasting();
    var loaded := asking.(tasks := s.tasks[b := Loaded(reply, w, None)]);
    assert Apply(asking, Read(b, Frame("store", id, "permission.snapshot", body), true)) == loaded;
    TaskBack(s, b);
    assert loaded.tasks[b := Idle] == s.tasks;
    assert asking.waiters[w := asking.waiters[w].(box := Some(reply))] == Asking(s, id, Some(reply)).waiters;
    assert Apply(loaded, Offer(b)) == Asking(s, id, Some(reply));
  }

  /** ... and the fetch takes it, once, and clears its key. */
  lemma FetchEnds(s: State, stamp: nat, reply: Message)
    requires |s.waiters| !in s.fetching
    ensures var id := "hub-perm-fetch-" + Decimal(stamp);
            Then(Then(Some(Asking(s, id, Some(reply))), FetchReceive(|s.waiters|)), FetchDisarm(stamp)) ==
            Some(Asking(s, id, None).(pending := s.pending - {id}, fetching := s.fetching))
  {
    var id, w := "hub-perm-fetch-" + Decimal(stamp), |s.waiters|;
    assert FETCH_ID + "-" == "hub-perm-fetch-";
    var full := Asking(s, id, Some(reply));
    assert full.waiters[w := full.waiters[w].(box := None)] == Asking(s, id, None).waiters;
    assert full.fetching - {w} == s.fetching;
    assert full.pending - {id} == s.pending - {id};
  }
}
