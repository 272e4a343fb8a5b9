/** Waiters in every run: a caller's waiter is its own, can be found, keeps its first
    answer and gives it up once. */
module HubWaits {
  import opened Common
  import opened HubIds
  import opened Registry
  import opened Hub
  import opened HubSteps
  import opened HubRpc

  /** Every other connection that was given the id of `c` has left its read loop. */
  ghost predicate Alone(s: State, c: ConnId) {
    c in s.tables.peers &&
    forall d :: d in s.tables.peers && d != c && s.tables.peers[d].id == s.tables.peers[c].id ==>
      Left(s.tables.peers[d].stage)
  }

  predicate Left(st: Stage) {
    st.Leaving? || st.Unlinking? || st.Gone?
  }

  /** The step registers a connection under `id`. */
  predicate Joins(s: State, step: Step, id: Id) {
    step.Move? && step.m.Register? && Registered(s.tables, step.m.c, step.m.source).peers[step.m.c].id == id
  }

  /** No step of the run registers a connection under `id`. */
  ghost predicate NoJoin(s: State, steps: seq<Step>, id: Id) {
    forall k :: 0 <= k < |steps| && Exec(s, steps[..k]).Some? ==> !Joins(Exec(s, steps[..k]).value, steps[k], id)
  }

  lemma NoJoinFront(s: State, steps: seq<Step>, id: Id)
    requires NoJoin(s, steps, id) && steps != []
    ensures NoJoin(s, steps[..|steps| - 1], id)
    ensures Exec(s, steps[..|steps| - 1]).Some? ==>
              !Joins(Exec(s, steps[..|steps| - 1]).value, steps[|steps| - 1], id)
  {
    var front := steps[..|steps| - 1];
    assert forall k :: 0 <= k < |front| ==> front[..k] == steps[..k] && front[k] == steps[k];
  }

  ghost predicate Serve(s: State) {
    forall c :: c in s.tasks ==> c in s.tables.peers && s.tables.peers[c].stage == Serving
  }

  /** No two calls share a waiter. */
  ghost predicate Distinct(s: State) {
    forall c, d :: c in s.tasks && d in s.tasks && c != d && InCall(s.tasks[c]) && InCall(s.tasks[d]) ==>
      s.tasks[c].w != s.tasks[d].w
  }

  /** Fetches wait under ids no peer can hold. */
  ghost predicate FetchesOk(s: State) {
    forall w :: w in s.fetching ==> w < |s.waiters| && FETCH_ID + "-" <= s.waiters[w].requester
  }

  ghost predicate Good(s: State) {
    Registry.Ok(s.tables) && HubRpc.Ok(s) && Serve(s) && Distinct(s) && FetchesOk(s)
  }

  // ------------------------------------------------------------ one step at a time

  /** A call after a step was the same call before it, or was armed by it. */
  lemma CallsEvolve(s: State, step: Step, c: ConnId)
    requires Enabled(s, step) && c in Apply(s, step).tasks && InCall(Apply(s, step).tasks[c])
    ensures c in s.tasks
    ensures if step == Arm(c) then Apply(s, step).tasks[c].w == |s.waiters|
            else InCall(s.tasks[c]) && s.tasks[c].w == Apply(s, step).tasks[c].w
    ensures Waiting(Apply(s, step).tasks[c]) && step != Arm(c) ==> Waiting(s.tasks[c])
  {
    match step
    case Move(m) => MoveTouches(s, m, c);
    case Read(d, frame, admitted) => ReadTouches(s, d, frame, admitted);
    case Offer(d) => OfferTouches(s, d);
    case Route(d) => RouteTouches(s, d);
    case FetchArm(_) =>
    case FetchReceive(_) =>
    case FetchDisarm(_) =>
    case _ => CallTouches(s, step);
  }

  /** A goroutine's task changes only by its own steps. */
  lemma OthersStay(s: State, step: Step, c: ConnId)
    requires Enabled(s, step) && c in s.tasks
    requires if step.Move? then step.m.c != c else IsFetch(step) || step.c != c
    ensures c in Apply(s, step).tasks && Apply(s, step).tasks[c] == s.tasks[c]
  {
    match step
    case Move(m) => MoveTouches(s, m, c);
    case Read(d, frame, admitted) => ReadTouches(s, d, frame, admitted);
    case Offer(d) => OfferTouches(s, d);
    case Route(d) => RouteTouches(s, d);
    case FetchArm(_) =>
    case FetchReceive(_) =>
    case FetchDisarm(_) =>
    case _ => CallTouches(s, step);
  }

  /** A busy goroutine makes no table move. */
  lemma BusyStays(s: State, m: Registry.Move, c: ConnId)
    requires Enabled(s, Move(m)) && Serve(s) && c in s.tasks && !s.tasks[c].Idle? && !s.tasks[c].Discarding?
    ensures c in AfterMove(s, m).tasks && AfterMove(s, m).tasks[c] == s.tasks[c]
  {
  }

  /** The waiter found under `id` changes only when a holder of `id` arms or disarms. */
  lemma PendingStays(s: State, step: Step, id: Id)
    requires Enabled(s, step)
    requires (step.Arm? || step.Disarm?) ==> s.tables.peers[step.c].id != id
    requires (step.FetchArm? || step.FetchDisarm?) ==> FetchId(step.stamp) != id
    ensures id in s.pending ==> id in Apply(s, step).pending && Apply(s, step).pending[id] == s.pending[id]
  {
  }

  lemma StepKeepsServe(s: State, step: Step)
    requires Serve(s) && Enabled(s, step)
    ensures Serve(Apply(s, step))
  {
    match step
    case Move(m) =>
    case Read(d, frame, admitted) => ReadTouches(s, d, frame, admitted);
    case Offer(d) => OfferTouches(s, d);
    case Route(d) => RouteTouches(s, d);
    case FetchArm(_) =>
    case FetchReceive(_) =>
    case FetchDisarm(_) =>
    case _ => CallTouches(s, step);
  }

  lemma StepKeepsDistinct(s: State, step: Step)
    requires HubRpc.Ok(s) && Distinct(s) && Enabled(s, step)
    ensures Distinct(Apply(s, step))
  {
    var s' := Apply(s, step);
    forall c, d | c in s'.tasks && d in s'.tasks && c != d && InCall(s'.tasks[c]) && InCall(s'.tasks[d])
      ensures s'.tasks[c].w != s'.tasks[d].w
    {
      CallsEvolve(s, step, c);
      CallsEvolve(s, step, d);
      assert TaskOk(s, c, s.tasks[c]) && TaskOk(s, d, s.tasks[d]);
    }
  }

  lemma StepKeepsFetches(s: State, step: Step)
    requires FetchesOk(s) && Enabled(s, step)
    ensures FetchesOk(Apply(s, step))
  {
    StepExtendsWaiters(s, step);
    FetchingStep(s, step);
    if step.FetchArm? { assert FETCH_ID + "-" <= FetchId(step.stamp); }
  }

  /** Only a fetch's arming lets it receive, from its new waiter. */
  lemma FetchingStep(s: State, step: Step)
    requires Enabled(s, step)
    ensures Apply(s, step).fetching ==
            match step
            case FetchArm(_) => s.fetching + {|s.waiters|}
            case FetchReceive(w) => s.fetching - {w}
            case _ => s.fetching
  {
  }

  lemma StepKeepsGood(s: State, step: Step)
    requires Good(s) && Enabled(s, step)
    ensures Good(Apply(s, step))
  {
    if step.Move? { Registry.MoveKeepsOk(s.tables, step.m); } else { RpcLeavesTables(s, step); }
    StepKeepsOk(s, step);
    StepKeepsServe(s, step);
    StepKeepsDistinct(s, step);
    StepKeepsFetches(s, step);
  }

  lemma {:induction false} RunKeepsGood(s: State, steps: seq<Step>)
    requires Good(s) && Exec(s, steps).Some?
    ensures Good(Exec(s, steps).value)
    decreases |steps|
  {
    if steps != [] {
      RunKeepsGood(s, steps[..|steps| - 1]);
      StepKeepsGood(Exec(s, steps[..|steps| - 1]).value, steps[|steps| - 1]);
    }
  }

  lemma ReachableIsGood(s: State)
    requires Reachable(s)
    ensures Good(s)
  {
    var steps :| Exec(START, steps) == Some(s);
    RunKeepsGood(START, steps);
  }

  // ----------------------------------------------------------- callers stay findable

  /** The table leads to waiter `w` under the id of `c`. */
  predicate Found(s: State, c: ConnId, w: nat) {
    c in s.tables.peers && s.tables.peers[c].id in s.pending && s.pending[s.tables.peers[c].id] == w
  }

  lemma AloneMove(r: Tables, m: Registry.Move, c: ConnId, d: ConnId)
    requires Ready(r, m) && c in r.peers && d in After(r, m).peers && d != c
    requires After(r, m).peers[d].id == After(r, m).peers[c].id
    requires d in r.peers && r.peers[d].id == r.peers[c].id ==> Left(r.peers[d].stage)
    requires !(m.Register? && Registered(r, m.c, m.source).peers[m.c].id == r.peers[c].id)
    ensures Left(After(r, m).peers[d].stage)
  {
  }

  /** Nobody comes back from leaving, so a connection stays alone until somebody joins. */
  lemma AloneStep(s: State, step: Step, c: ConnId)
    requires Enabled(s, step) && Alone(s, c) && !Joins(s, step, s.tables.peers[c].id)
    ensures Alone(Apply(s, step), c) && Apply(s, step).tables.peers[c].id == s.tables.peers[c].id
  {
    if step.Move? {
      var r' := After(s.tables, step.m);
      MoveKeepsPeers(s.tables, step.m, c);
      forall d | d in r'.peers && d != c && r'.peers[d].id == r'.peers[c].id ensures Left(r'.peers[d].stage) {
        AloneMove(s.tables, step.m, c, d);
      }
    } else {
      RpcLeavesTables(s, step);
    }
  }

  /** `c` is in a call on waiter `w`, and found. */
  ghost predicate Held(s: State, c: ConnId, w: nat) {
    Alone(s, c) && c in s.tasks && InCall(s.tasks[c]) && s.tasks[c].w == w && Found(s, c, w)
  }

  lemma HeldTask(s: State, step: Step, c: ConnId)
    requires Good(s) && Enabled(s, step) && c in s.tasks && InCall(s.tasks[c]) && step != Disarm(c)
    ensures var t := Apply(s, step).tasks; c in t && InCall(t[c]) && t[c].w == s.tasks[c].w
  {
    if step.Move? {
      BusyStays(s, step.m, c);
    } else if IsFetch(step) || step.c != c {
      OthersStay(s, step, c);
    } else {
      CallTouches(s, step);
    }
  }

  lemma HeldStep(s: State, step: Step, c: ConnId, w: nat)
    requires Reachable(s) && Enabled(s, step) && Held(s, c, w)
    requires step != Disarm(c) && !Joins(s, step, s.tables.peers[c].id)
    ensures Held(Apply(s, step), c, w) && Apply(s, step).tables.peers[c].id == s.tables.peers[c].id
  {
    ReachableIsGood(s);
    HeldTask(s, step, c);
    AloneStep(s, step, c);
    assert !Reserved(s.tables.peers[c].id);
    PendingStays(s, step, s.tables.peers[c].id);
  }

  lemma {:induction false} HeldRun(s: State, steps: seq<Step>, c: ConnId, w: nat)
    requires Reachable(s) && Exec(s, steps).Some? && Held(s, c, w)
    requires Disarm(c) !in steps && NoJoin(s, steps, s.tables.peers[c].id)
    ensures Held(Exec(s, steps).value, c, w)
    ensures Exec(s, steps).value.tables.peers[c].id == s.tables.peers[c].id
    decreases |steps|
  {
    if steps != [] {
      var front, last := steps[..|steps| - 1], steps[|steps| - 1];
      var s' := Exec(s, front).value;
      NoJoinFront(s, steps, s.tables.peers[c].id);
      HeldRun(s, front, c, w);
      ReachableAfter(s, front);
      HeldStep(s', last, c, w);
    }
  }

  lemma ArmHolds(s: State, c: ConnId)
    requires Enabled(s, Arm(c)) && Alone(s, c)
    ensures Held(Apply(s, Arm(c)), c, |s.waiters|) && Apply(s, Arm(c)).tables == s.tables
  {
    RpcLeavesTables(s, Arm(c));
    CallTouches(s, Arm(c));
  }

  /** From arming to disarming, over any run in which no connection registers under its
      id, a caller is in its call and is found under its id with its own waiter. Earlier
      connections under that id do not matter once they have left their read loops. */
  lemma CallersStayFindable(s: State, c: ConnId, steps: seq<Step>)
    requires Reachable(s) && Enabled(s, Arm(c)) && Alone(s, c)
    requires Exec(Apply(s, Arm(c)), steps).Some? && Disarm(c) !in steps
    requires NoJoin(Apply(s, Arm(c)), steps, s.tables.peers[c].id)
    ensures var t := Exec(Apply(s, Arm(c)), steps).value;
            Found(t, c, |s.waiters|) && c in t.tasks && InCall(t.tasks[c]) && t.tasks[c].w == |s.waiters|
  {
    ArmHolds(s, c);
    var armed := Advance(START, s, Arm(c));
    HeldRun(armed, steps, c, |s.waiters|);
  }

  // ------------------------------------------------- an answer is taken, and taken once

  predicate ReceivesFrom(s: State, step: Step, w: nat)
    requires Enabled(s, step)
  {
    (step.Receive? && s.tasks[step.c].w == w) || step == FetchReceive(w)
  }

  /** The waiter's slot changes only by its receiver, or by a frame that fits while it
      is empty. */
  lemma BoxTouches(s: State, step: Step, w: nat)
    requires Enabled(s, step) && w < |s.waiters| && !ReceivesFrom(s, step, w)
    ensures w < |Apply(s, step).waiters|
    ensures Apply(s, step).waiters[w] ==
            if step.Offer? && s.tasks[step.c].w == w && Accepts(s.waiters[w], s.tasks[step.c].msg)
            then s.waiters[w].(box := Some(s.tasks[step.c].msg)) else s.waiters[w]
  {
  }

  /** No step of the run receives from the waiter. */
  ghost predicate NeverReceived(s: State, steps: seq<Step>, w: nat) {
    forall k :: 0 <= k < |steps| ==>
      var before := Exec(s, steps[..k]);
      before.Some? && Enabled(before.value, steps[k]) ==> !ReceivesFrom(before.value, steps[k], w)
  }

  /** An accepted answer stays in its slot until the caller takes it: over any run
      without that receive, no later frame displaces it. */
  lemma {:induction false} AnswerStandsUntilTaken(s: State, steps: seq<Step>, w: nat)
    requires Exec(s, steps).Some? && w < |s.waiters| && s.waiters[w].box.Some?
    requires NeverReceived(s, steps, w)
    ensures w < |Exec(s, steps).value.waiters| && Exec(s, steps).value.waiters[w] == s.waiters[w]
    decreases |steps|
  {
    if steps != [] {
      var front, last := steps[..|steps| - 1], steps[|steps| - 1];
      assert forall k :: 0 <= k < |front| ==> front[..k] == steps[..k] && front[k] == steps[k];
      AnswerStandsUntilTaken(s, front, w);
      BoxTouches(Exec(s, front).value, last, w);
    }
  }

  /** Nobody will receive from this waiter any more. */
  ghost predicate Spent(s: State, w: nat) {
    && w < |s.waiters| && w !in s.fetching
    && forall c :: c in s.tasks && Waiting(s.tasks[c]) ==> s.tasks[c].w != w
  }

  lemma StepKeepsSpent(s: State, step: Step, w: nat)
    requires Enabled(s, step) && Spent(s, w)
    ensures Spent(Apply(s, step), w)
  {
    var s' := Apply(s, step);
    StepExtendsWaiters(s, step);
    FetchingStep(s, step);
    forall c | c in s'.tasks && Waiting(s'.tasks[c]) ensures s'.tasks[c].w != w { CallsEvolve(s, step, c); }
  }

  lemma {:induction false} RunKeepsSpent(s: State, steps: seq<Step>, w: nat)
    requires Exec(s, steps).Some? && Spent(s, w)
    ensures Spent(Exec(s, steps).value, w)
    decreases |steps|
  {
    if steps != [] {
      RunKeepsSpent(s, steps[..|steps| - 1], w);
      StepKeepsSpent(Exec(s, steps[..|steps| - 1]).value, steps[|steps| - 1], w);
    }
  }

  /** A caller's waiter is no fetch's. */
  lemma CallIsNoFetch(s: State, c: ConnId)
    requires Good(s) && c in s.tasks && InCall(s.tasks[c])
    ensures s.tasks[c].w < |s.waiters| && s.tasks[c].w !in s.fetching
  {
    assert TaskOk(s, c, s.tasks[c]);
    assert !Reserved(s.tables.peers[c].id);
  }

  lemma ReceiveSpends(s: State, step: Step, w: nat)
    requires Good(s) && Enabled(s, step) && ReceivesFrom(s, step, w)
    ensures Spent(Apply(s, step), w)
  {
    var s' := Apply(s, step);
    StepExtendsWaiters(s, step);
    FetchingStep(s, step);
    if step.Receive? {
      CallIsNoFetch(s, step.c);
      CallTouches(s, step);
    }
    forall d | d in s'.tasks && Waiting(s'.tasks[d]) ensures s'.tasks[d].w != w {
      CallsEvolve(s, step, d);
      CallIsNoFetch(s, d);
    }
  }

  /** Each waiter, a caller's or a fetch's, is received from at most once in a run. */
  lemma ReceivedAtMostOnce(s: State, step: Step, steps: seq<Step>, again: Step, w: nat)
    requires Reachable(s) && Enabled(s, step) && ReceivesFrom(s, step, w)
    requires Exec(Apply(s, step), steps).Some? && Enabled(Exec(Apply(s, step), steps).value, again)
    ensures !ReceivesFrom(Exec(Apply(s, step), steps).value, again, w)
  {
    ReachableIsGood(s);
    ReceiveSpends(s, step, w);
    RunKeepsSpent(Apply(s, step), steps, w);
  }
}
