/** Ownership of hub ids: the tables `registered` and `conns`, the registration
    lock and the temporary-id counter, shared by any number of connection
    goroutines. Registration writes the two tables in two steps under one lock;
    cleanup clears them in two steps with no lock held between them. */
module Registry {
  import opened Common
  import opened HubIds

  type ConnId = nat

  /** Where a connection goroutine stands between registration and exit. */
  datatype Stage =
    | Registering                       // holds the lock, `registered` written
    | Replacing(prior: Option<ConnId>)  // lock released, replaced connection not yet closed
    | Serving
    | Leaving                           // read loop over, `registered` not yet cleaned
    | Unlinking                         // `registered` cleaned, `conns` not yet
    | Gone

  /** `source` is what the peer asked for, `id` what it got, `temp` the counter value behind it. */
  datatype Peer = Peer(source: Id, id: Id, temp: Option<nat>, stage: Stage)

  datatype Tables = Tables(
    registered: map<Id, ConnId>,
    conns: map<Id, ConnId>,
    lock: Option<ConnId>,
    counter: nat,
    peers: map<ConnId, Peer>,
    closed: set<ConnId>)

  const EMPTY := Tables(map[], map[], None, 0, map[], {})

  datatype Move =
    | Register(c: ConnId, source: Id)
    | Publish(c: ConnId)
    | CloseReplaced(c: ConnId)
    | HangUp(c: ConnId)
    | Unregister(c: ConnId)
    | Unlink(c: ConnId)

  predicate Ready(r: Tables, m: Move) {
    match m
    case Register(c, _) => c !in r.peers && r.lock == None
    case Publish(c) => c in r.peers && r.peers[c].stage == Registering
    case CloseReplaced(c) => c in r.peers && r.peers[c].stage.Replacing?
    case HangUp(c) => c in r.peers && r.peers[c].stage == Serving
    case Unregister(c) => c in r.peers && r.peers[c].stage == Leaving && r.lock == None
    case Unlink(c) => c in r.peers && r.peers[c].stage == Unlinking
  }

  function After(r: Tables, m: Move): Tables
    requires Ready(r, m)
  {
    match m
    case Register(c, source) => Registered(r, c, source)
    case Publish(c) => Published(r, c)
    case CloseReplaced(c) => ReplacedClosed(r, c)
    case HangUp(c) => WithStage(r, c, Leaving)
    case Unregister(c) => Unregistered(r, c)
    case Unlink(c) => Unlinked(r, c)
  }

  function WithStage(r: Tables, c: ConnId, stage: Stage): Tables
    requires c in r.peers
  {
    r.(peers := r.peers[c := r.peers[c].(stage := stage)])
  }

  /** First half of registration. Only "daemon" is never displaced: a second daemon
      connection gets the next counter id instead. */
  function Registered(r: Tables, c: ConnId, source: Id): Tables {
    var clash := source == "daemon" && "daemon" in r.registered;
    var n := r.counter + 1;
    var id := if clash then TempId(n) else source;
    r.(registered := r.registered[id := c],
       lock := Some(c),
       counter := if clash then n else r.counter,
       peers := r.peers[c := Peer(source, id, if clash then Some(n) else None, Registering)])
  }

  /** Second half: swap the connection table and release the lock. */
  function Published(r: Tables, c: ConnId): Tables
    requires c in r.peers
  {
    var id := r.peers[c].id;
    var prior := if id in r.conns then Some(r.conns[id]) else None;
    WithStage(r.(conns := r.conns[id := c], lock := None), c, Replacing(prior))
  }

  function ReplacedClosed(r: Tables, c: ConnId): Tables
    requires c in r.peers && r.peers[c].stage.Replacing?
  {
    var prior := r.peers[c].stage.prior;
    WithStage(r.(closed := if prior.Some? && prior.value != c then r.closed + {prior.value} else r.closed), c, Serving)
  }

  /** First half of the deferred cleanup: only the owner of the slot clears it. */
  function Unregistered(r: Tables, c: ConnId): Tables
    requires c in r.peers
  {
    var id := r.peers[c].id;
    var owns := id in r.registered && r.registered[id] == c;
    WithStage(r.(registered := if owns then r.registered - {id} else r.registered), c, Unlinking)
  }

  /** Second half: CompareAndDelete, then the connection itself is closed. */
  function Unlinked(r: Tables, c: ConnId): Tables
    requires c in r.peers
  {
    var id := r.peers[c].id;
    var owns := id in r.conns && r.conns[id] == c;
    WithStage(r.(conns := if owns then r.conns - {id} else r.conns, closed := r.closed + {c}), c, Gone)
  }

  /** The tables after `moves`, if each is ready in turn. */
  function Replay(r: Tables, moves: seq<Move>): Option<Tables>
    decreases |moves|
  {
    if moves == [] then Some(r)
    else
      var before := Replay(r, moves[..|moves| - 1]);
      var last := moves[|moves| - 1];
      if before.Some? && Ready(before.value, last) then Some(After(before.value, last)) else None
  }

  ghost predicate Possible(r: Tables) {
    exists moves :: Replay(EMPTY, moves) == Some(r)
  }

  // ---------------------------------------------------------------- invariant

  /** May still appear in `registered`. */
  predicate Live(st: Stage) {
    st.Registering? || st.Replacing? || st.Serving? || st.Leaving?
  }

  /** May still appear in `conns`. */
  predicate Linked(st: Stage) {
    st.Replacing? || st.Serving? || st.Leaving? || st.Unlinking?
  }

  /** A peer holds the id it asked for, or asked for "daemon" and holds a counter id. */
  predicate OwnId(p: Peer, counter: nat) {
    match p.temp
    case None => p.id == p.source
    case Some(n) => p.source == "daemon" && p.id == TempId(n) && 1 <= n <= counter
  }

  ghost predicate IdsOk(r: Tables) {
    && (forall c :: c in r.peers ==> OwnId(r.peers[c], r.counter))
    && (forall c, d :: c in r.peers && d in r.peers && c != d && r.peers[c].temp.Some? && r.peers[d].temp.Some?
          ==> r.peers[c].temp != r.peers[d].temp)
  }

  ghost predicate OwnersOk(r: Tables) {
    && (forall id :: id in r.registered ==>
          r.registered[id] in r.peers && r.peers[r.registered[id]].id == id && Live(r.peers[r.registered[id]].stage))
    && (forall id :: id in r.conns ==>
          r.conns[id] in r.peers && r.peers[r.conns[id]].id == id && Linked(r.peers[r.conns[id]].stage))
  }

  ghost predicate LockOk(r: Tables) {
    forall c :: c in r.peers && r.peers[c].stage == Registering ==>
      r.lock == Some(c) && r.peers[c].id in r.registered && r.registered[r.peers[c].id] == c
  }

  /** Outside its own registration, the owner of an id also holds its connection slot. */
  ghost predicate PairedOk(r: Tables) {
    forall id :: id in r.registered && r.registered[id] in r.peers && r.peers[r.registered[id]].stage != Registering ==>
      id in r.conns && r.conns[id] == r.registered[id]
  }

  ghost predicate DaemonOk(r: Tables) {
    forall c :: c in r.peers && r.peers[c].id == "daemon" && Live(r.peers[c].stage) ==>
      "daemon" in r.registered && r.registered["daemon"] == c
  }

  ghost predicate BeingClosed(r: Tables, c: ConnId) {
    exists d :: d in r.peers && r.peers[d].stage == Replacing(Some(c))
  }

  /** A connection that lost its slot is closed, or its successor is about to close it. */
  ghost predicate ClosedOk(r: Tables) {
    && (forall c :: c in r.peers && Linked(r.peers[c].stage) ==>
          (r.peers[c].id in r.conns && r.conns[r.peers[c].id] == c) || c in r.closed || BeingClosed(r, c))
    && (forall c :: c in r.peers ==> r.peers[c].stage != Replacing(Some(c)))
  }

  /** What a registration replaces had its id. */
  ghost predicate PriorOk(r: Tables) {
    forall c :: c in r.peers && r.peers[c].stage.Replacing? && r.peers[c].stage.prior.Some? ==>
      var prior := r.peers[c].stage.prior.value;
      prior in r.peers && r.peers[prior].id == r.peers[c].id
  }

  ghost predicate Ok(r: Tables) {
    IdsOk(r) && OwnersOk(r) && LockOk(r) && PairedOk(r) && DaemonOk(r) && ClosedOk(r) && PriorOk(r)
  }

  /** Ids are given once and kept. */
  lemma MoveKeepsPeers(r: Tables, m: Move, c: ConnId)
    requires Ready(r, m) && c in r.peers
    ensures c in After(r, m).peers && After(r, m).peers[c].id == r.peers[c].id
  {
  }

  lemma MoveKeepsIds(r: Tables, m: Move)
    requires IdsOk(r) && Ready(r, m)
    ensures IdsOk(After(r, m))
  {
  }

  lemma MoveKeepsOwners(r: Tables, m: Move)
    requires OwnersOk(r) && LockOk(r) && Ready(r, m)
    ensures OwnersOk(After(r, m))
  {
  }

  lemma MoveKeepsLock(r: Tables, m: Move)
    requires OwnersOk(r) && LockOk(r) && Ready(r, m)
    ensures LockOk(After(r, m))
  {
  }

  lemma MoveKeepsPaired(r: Tables, m: Move)
    requires OwnersOk(r) && LockOk(r) && PairedOk(r) && Ready(r, m)
    ensures PairedOk(After(r, m))
  {
  }

  lemma MoveKeepsDaemon(r: Tables, m: Move)
    requires OwnersOk(r) && DaemonOk(r) && Ready(r, m)
    ensures DaemonOk(After(r, m))
  {
  }

  /** Closing a replaced connection is never forgotten: a pending close survives
      every move but the one that carries it out. */
  lemma PendingCloseSurvives(r: Tables, m: Move, c: ConnId)
    requires Ready(r, m) && BeingClosed(r, c) && ClosedOk(r)
    ensures BeingClosed(After(r, m), c) || c in After(r, m).closed
  {
    var d :| d in r.peers && r.peers[d].stage == Replacing(Some(c));
    if m != CloseReplaced(d) { assert After(r, m).peers[d].stage == Replacing(Some(c)); }
  }

  lemma MoveKeepsClosed(r: Tables, m: Move)
    requires OwnersOk(r) && ClosedOk(r) && Ready(r, m)
    ensures ClosedOk(After(r, m))
  {
    var r' := After(r, m);
    forall c | c in r'.peers && Linked(r'.peers[c].stage)
      ensures (r'.peers[c].id in r'.conns && r'.conns[r'.peers[c].id] == c) || c in r'.closed || BeingClosed(r', c)
    {
      if BeingClosed(r, c) {
        PendingCloseSurvives(r, m, c);
      } else if m.Publish? && m.c != c && r.peers[m.c].id in r.conns && r.conns[r.peers[m.c].id] == c {
        assert r'.peers[m.c].stage == Replacing(Some(c));
      }
    }
  }

  lemma MoveKeepsPrior(r: Tables, m: Move)
    requires OwnersOk(r) && PriorOk(r) && Ready(r, m)
    ensures PriorOk(After(r, m))
  {
  }

  lemma MoveKeepsOk(r: Tables, m: Move)
    requires Ok(r) && Ready(r, m)
    ensures Ok(After(r, m))
  {
    MoveKeepsIds(r, m);
    MoveKeepsOwners(r, m);
    MoveKeepsLock(r, m);
    MoveKeepsPaired(r, m);
    MoveKeepsDaemon(r, m);
    MoveKeepsClosed(r, m);
    MoveKeepsPrior(r, m);
  }

  lemma {:induction false} RunKeepsOk(r: Tables, moves: seq<Move>)
    requires Ok(r) && Replay(r, moves).Some?
    ensures Ok(Replay(r, moves).value)
    decreases |moves|
  {
    if moves != [] {
      RunKeepsOk(r, moves[..|moves| - 1]);
      MoveKeepsOk(Replay(r, moves[..|moves| - 1]).value, moves[|moves| - 1]);
    }
  }

  lemma PossibleIsOk(r: Tables)
    requires Possible(r)
    ensures Ok(r)
  {
    var moves :| Replay(EMPTY, moves) == Some(r);
    RunKeepsOk(EMPTY, moves);
  }

  // ----------------------------------------------------------------- theorems

  /** The holder of an id in `registered` is a connection that was given that id, and it
      holds the id in `conns` too, except exactly while its own registration still holds
      the lock. */
  lemma RegisteredMatchesConns(r: Tables, id: Id)
    requires Possible(r) && id in r.registered
    ensures r.registered[id] in r.peers && r.peers[r.registered[id]].id == id
    ensures (id in r.conns && r.conns[id] == r.registered[id]) <==> r.peers[r.registered[id]].stage != Registering
    ensures r.peers[r.registered[id]].stage == Registering ==> r.lock == Some(r.registered[id])
  {
    PossibleIsOk(r);
  }

  /** Nothing leaks: once every connection has finished its cleanup, both tables are empty. */
  lemma QuietTablesAreEmpty(r: Tables)
    requires Possible(r) && forall c :: c in r.peers ==> r.peers[c].stage == Gone
    ensures r.registered == map[] && r.conns == map[]
  {
    PossibleIsOk(r);
    assert forall id :: id !in r.registered;
    assert forall id :: id !in r.conns;
  }

  /** Two connections under one id: unless a replacement under it is half done, all but
      one are closed. */
  lemma OneOpenConnectionPerId(r: Tables, c: ConnId, d: ConnId)
    requires Possible(r) && c in r.peers && d in r.peers && c != d && r.peers[c].id == r.peers[d].id
    requires forall e :: e in r.peers && r.peers[e].id == r.peers[c].id ==> !r.peers[e].stage.Replacing?
    requires Linked(r.peers[c].stage) && Linked(r.peers[d].stage)
    ensures c in r.closed || d in r.closed
  {
    PossibleIsOk(r);
  }

  predicate SameSlot(m: map<Id, ConnId>, n: map<Id, ConnId>, id: Id) {
    (id in m <==> id in n) && (id in m ==> m[id] == n[id])
  }

  lemma {:induction false} ReplayOneMore(r: Tables, moves: seq<Move>, m: Move)
    requires Replay(r, moves).Some? && Ready(Replay(r, moves).value, m)
    ensures Replay(r, moves + [m]) == Some(After(Replay(r, moves).value, m))
  {
  }

  lemma RegistrationRuns(r: Tables, c: ConnId, source: Id)
    requires r.lock == None && c !in r.peers
    ensures var t := Published(Registered(r, c, source), c);
            && t.peers[c].stage.Replacing?
            && Replay(r, [] + [Register(c, source)] + [Publish(c)] + [CloseReplaced(c)]) == Some(ReplacedClosed(t, c))
  {
    ReplayOneMore(r, [], Register(c, source));
    ReplayOneMore(r, [] + [Register(c, source)], Publish(c));
    ReplayOneMore(r, [] + [Register(c, source)] + [Publish(c)], CloseReplaced(c));
  }

  /** A registration that runs through holds both slots of its id, which is the id it
      asked for unless that is a daemon slot already held. It closes exactly the previous
      holder of that id, another connection, and nobody else loses anything. */
  lemma RegistrationTakesTheSlot(r: Tables, c: ConnId, source: Id) returns (t: Tables)
    requires Possible(r) && r.lock == None && c !in r.peers
    ensures Replay(r, [Register(c, source), Publish(c), CloseReplaced(c)]) == Some(t)
    ensures c in t.peers && t.peers[c].stage == Serving
    ensures var id := t.peers[c].id;
            && (id == source <==> source != "daemon" || "daemon" !in r.registered)
            && id in t.registered && t.registered[id] == c && id in t.conns && t.conns[id] == c
            && (id in r.conns ==> r.conns[id] != c && r.conns[id] in t.closed)
            && (forall d :: d in t.closed ==> d in r.closed || (id in r.conns && d == r.conns[id]))
            && (forall x :: x != id ==> SameSlot(r.registered, t.registered, x) && SameSlot(r.conns, t.conns, x))
            && (forall d :: d in r.peers ==> d in t.peers && t.peers[d] == r.peers[d])
  {
    assert forall id :: id in r.conns ==> r.conns[id] != c by { PossibleIsOk(r); }
    assert TempId(r.counter + 1) != "daemon" by { TempIdsAreFresh(r.counter + 1, 0); }
    RegistrationRuns(r, c, source);
    assert [] + [Register(c, source)] + [Publish(c)] + [CloseReplaced(c)] ==
           [Register(c, source), Publish(c), CloseReplaced(c)];
    t := ReplacedClosed(Published(Registered(r, c, source), c), c);
  }

  lemma CleanupRuns(r: Tables, c: ConnId)
    requires r.lock == None && c in r.peers && r.peers[c].stage == Serving
    ensures var t := Unregistered(WithStage(r, c, Leaving), c);
            Replay(r, [] + [HangUp(c)] + [Unregister(c)] + [Unlink(c)]) == Some(Unlinked(t, c))
  {
    ReplayOneMore(r, [], HangUp(c));
    ReplayOneMore(r, [] + [HangUp(c)], Unregister(c));
    ReplayOneMore(r, [] + [HangUp(c)] + [Unregister(c)], Unlink(c));
  }

  /** A serving connection that hangs up can always finish its cleanup. It then is closed
      and holds nothing, and nobody else has lost anything. */
  lemma CleanupReleasesItsOwn(r: Tables, c: ConnId) returns (t: Tables)
    requires Possible(r) && r.lock == None && c in r.peers && r.peers[c].stage == Serving
    ensures Replay(r, [HangUp(c), Unregister(c), Unlink(c)]) == Some(t)
    ensures c in t.peers && t.peers[c].stage == Gone && t.closed == r.closed + {c} && t.lock == None
    ensures forall x :: x in t.registered ==> t.registered[x] != c
    ensures forall x :: x in t.conns ==> t.conns[x] != c
    ensures forall x :: x in r.registered && r.registered[x] != c ==> SameSlot(r.registered, t.registered, x)
    ensures forall x :: x in r.conns && r.conns[x] != c ==> SameSlot(r.conns, t.conns, x)
  {
    assert OwnersOk(r) by { PossibleIsOk(r); }
    CleanupRuns(r, c);
    assert [] + [HangUp(c)] + [Unregister(c)] + [Unlink(c)] == [HangUp(c), Unregister(c), Unlink(c)];
    t := Unlinked(Unregistered(WithStage(r, c, Leaving), c), c);
  }

  /** The owner's own cleanup, or a registration that ends up under `id`. */
  predicate Dispossesses(r: Tables, m: Move, id: Id, owner: ConnId) {
    m == Unregister(owner) || (m.Register? && Registered(r, m.c, m.source).peers[m.c].id == id)
  }

  /** Late cleanups of replaced connections are harmless: over any run, an owner
      keeps both slots of its id until its own cleanup or a new registration of that id. */
  lemma {:induction false} OwnerKeepsSlots(r: Tables, moves: seq<Move>, id: Id, owner: ConnId)
    requires Possible(r) && id in r.registered && r.registered[id] == owner
    requires owner in r.peers && r.peers[owner].stage != Registering
    requires Replay(r, moves).Some?
    requires forall k :: 0 <= k < |moves| && Replay(r, moves[..k]).Some? ==>
               !Dispossesses(Replay(r, moves[..k]).value, moves[k], id, owner)
    ensures var t := Replay(r, moves).value;
            && id in t.registered && t.registered[id] == owner && id in t.conns && t.conns[id] == owner
            && owner in t.peers && t.peers[owner].stage != Registering
    decreases |moves|
  {
    PossibleIsOk(r);
    if moves != [] {
      var front, last := moves[..|moves| - 1], moves[|moves| - 1];
      assert forall k :: 0 <= k < |front| ==> front[..k] == moves[..k] && front[k] == moves[k];
      OwnerKeepsSlots(r, front, id, owner);
      RunKeepsOk(r, front);
      OwnerKeepsSlotsOnce(Replay(r, front).value, last, id, owner);
    }
  }

  lemma OwnerKeepsSlotsOnce(r: Tables, m: Move, id: Id, owner: ConnId)
    requires OwnersOk(r) && LockOk(r) && Ready(r, m) && !Dispossesses(r, m, id, owner)
    requires id in r.registered && r.registered[id] == owner && id in r.conns && r.conns[id] == owner
    requires owner in r.peers && r.peers[owner].stage != Registering
    ensures var t := After(r, m);
            && id in t.registered && t.registered[id] == owner && id in t.conns && t.conns[id] == owner
            && owner in t.peers && t.peers[owner].stage != Registering
  {
  }

  /** The daemon slot is never taken over: a connection that was given the id "daemon"
      is its registered holder until its own cleanup. */
  lemma DaemonSlotIsNeverTakenOver(r: Tables, c: ConnId)
    requires Possible(r) && c in r.peers && r.peers[c].id == "daemon" && Live(r.peers[c].stage)
    ensures "daemon" in r.registered && r.registered["daemon"] == c
  {
    PossibleIsOk(r);
  }

  /** So while it lives every other daemon registration holds a counter id, and no two
      of them the same. */
  lemma OtherDaemonsHoldCounterIds(r: Tables, c: ConnId, d: ConnId)
    requires Possible(r) && c in r.peers && d in r.peers && c != d
    requires r.peers[c].id == "daemon" && Live(r.peers[c].stage)
    requires r.peers[d].source == "daemon" && Live(r.peers[d].stage)
    ensures r.peers[d].temp.Some? && r.peers[d].id == "daemon-temp-" + Decimal(r.peers[d].temp.value)
    ensures forall e :: e in r.peers && e != d && r.peers[e].temp.Some? ==> r.peers[e].id != r.peers[d].id
  {
    PossibleIsOk(r);
    forall e | e in r.peers && e != d && r.peers[e].temp.Some? ensures r.peers[e].id != r.peers[d].id {
      TempIdsAreFresh(r.peers[e].temp.value, r.peers[d].temp.value);
    }
  }
}
