/** Planning at most once: any number of planning runs over the project manager's
    table of claimed goals. */
module GoalClaims {
  import opened Common
  import opened Goals

  datatype Status = Inflight | Posted

  type Table = map<string, Status>

  /** How a run ended: the post failed, only the fallback text was posted, or a plan. */
  datatype Outcome = SendFailed | FallbackPosted | PlanPosted

  datatype Phase = Planning | Settling(outcome: Outcome) | Done(outcome: Outcome)

  datatype Run = Run(key: string, phase: Phase)

  type RunId = nat

  datatype State = State(table: Table, runs: map<RunId, Run>)

  const START := State(map[], map[])

  /** `Claim` is LoadOrStore; `Send` covers everything up to the reply to channel.post;
      `Settle` is the mark or the release that follows it. */
  datatype Step = Claim(r: RunId, key: string) | Send(r: RunId, outcome: Outcome) | Settle(r: RunId)

  predicate Enabled(s: State, step: Step) {
    match step
    case Claim(r, _) => r !in s.runs
    case Send(r, _) => r in s.runs && s.runs[r].phase.Planning?
    case Settle(r) => r in s.runs && s.runs[r].phase.Settling?
  }

  function Claimed(t: Table, key: string): (Table, bool) {
    if key in t then (t, false) else (t[key := Inflight], true)
  }

  function Settled(t: Table, key: string, o: Outcome): Table {
    if o.PlanPosted? then t[key := Posted] else t - {key}
  }

  /** A claim that finds the key taken starts no run. */
  function Apply(s: State, step: Step): State
    requires Enabled(s, step)
  {
    match step
    case Claim(r, key) =>
      var (t, won) := Claimed(s.table, key);
      if won then State(t, s.runs[r := Run(key, Planning)]) else s
    case Send(r, o) => s.(runs := s.runs[r := s.runs[r].(phase := Settling(o))])
    case Settle(r) =>
      var run := s.runs[r];
      State(Settled(s.table, run.key, run.phase.outcome), s.runs[r := run.(phase := Done(run.phase.outcome))])
  }

  function Exec(steps: seq<Step>): Option<State>
    decreases |steps|
  {
    if steps == [] then Some(START)
    else
      var before := Exec(steps[..|steps| - 1]);
      var last := steps[|steps| - 1];
      if before.Some? && Enabled(before.value, last) then Some(Apply(before.value, last)) else None
  }

  ghost predicate Reachable(s: State) {
    exists steps :: Exec(steps) == Some(s)
  }

  predicate Active(run: Run) {
    run.phase.Planning? || run.phase.Settling?
  }

  predicate Delivered(run: Run) {
    run.phase == Done(PlanPosted)
  }

  /** The run still has a say over its key. */
  predicate Holding(run: Run) {
    Active(run) || Delivered(run)
  }

  ghost predicate HolderKnown(s: State, key: string) {
    exists r :: r in s.runs && s.runs[r].key == key && Holding(s.runs[r])
  }

  /** A holding run's key is in the table, in the state that says so, and no two
      holding runs share a key ... */
  ghost predicate KeysOk(s: State) {
    && (forall r :: r in s.runs && Holding(s.runs[r]) ==>
          s.runs[r].key in s.table && s.table[s.runs[r].key] == if Active(s.runs[r]) then Inflight else Posted)
    && (forall r, q :: r in s.runs && q in s.runs && r != q && Holding(s.runs[r]) && Holding(s.runs[q]) ==>
          s.runs[r].key != s.runs[q].key)
  }

  /** ... and every key in the table has a holding run. */
  ghost predicate Ok(s: State) {
    KeysOk(s) && forall k :: k in s.table ==> HolderKnown(s, k)
  }

  lemma StepKeepsHolders(s: State, step: Step)
    requires Ok(s) && Enabled(s, step)
    ensures forall k :: k in Apply(s, step).table ==> HolderKnown(Apply(s, step), k)
  {
    var t := Apply(s, step);
    forall k | k in t.table ensures HolderKnown(t, k) {
      if k in s.table {
        var r :| r in s.runs && s.runs[r].key == k && Holding(s.runs[r]);
        assert r in t.runs && t.runs[r].key == k && Holding(t.runs[r]);
      } else {
        assert t.runs[step.r].key == k && Holding(t.runs[step.r]);
      }
    }
  }

  lemma StepKeepsKeys(s: State, step: Step)
    requires KeysOk(s) && Enabled(s, step)
    ensures KeysOk(Apply(s, step))
  {
  }

  lemma {:induction false} RunKeepsOk(steps: seq<Step>)
    requires Exec(steps).Some?
    ensures Ok(Exec(steps).value)
    decreases |steps|
  {
    if steps != [] {
      RunKeepsOk(steps[..|steps| - 1]);
      StepKeepsKeys(Exec(steps[..|steps| - 1]).value, steps[|steps| - 1]);
      StepKeepsHolders(Exec(steps[..|steps| - 1]).value, steps[|steps| - 1]);
    }
  }

  /** In every interleaving, two runs on one key never overlap, and at most one of
      them ever ends in a posted plan. */
  lemma OneRunPerGoal(s: State, r: RunId, q: RunId)
    requires Reachable(s) && r in s.runs && q in s.runs && r != q && s.runs[r].key == s.runs[q].key
    ensures !(Active(s.runs[r]) && Active(s.runs[q]))
    ensures !(Delivered(s.runs[r]) && Delivered(s.runs[q]))
    ensures !(Delivered(s.runs[r]) && Active(s.runs[q]))
  {
    var steps :| Exec(steps) == Some(s);
    RunKeepsOk(steps);
  }

  /** A claim succeeds exactly when no run on the key is active and none has posted a
      plan: nothing starts after a posted plan, and a failed or fallback run leaves the
      key free. */
  lemma ClaimableExactly(s: State, r: RunId, key: string)
    requires Reachable(s) && r !in s.runs
    ensures r in Apply(s, Claim(r, key)).runs <==>
            forall q :: q in s.runs && s.runs[q].key == key ==> !Active(s.runs[q]) && !Delivered(s.runs[q])
  {
    var steps :| Exec(steps) == Some(s);
    RunKeepsOk(steps);
    if key in s.table { assert HolderKnown(s, key); }
  }

  /** A posted plan is final: its key stays posted in every later state. */
  lemma {:induction false} PostedIsFinal(steps: seq<Step>, more: seq<Step>, r: RunId)
    requires Exec(steps).Some? && Exec(steps + more).Some?
    requires r in Exec(steps).value.runs && Delivered(Exec(steps).value.runs[r])
    ensures var t := Exec(steps + more).value;
            && r in t.runs && t.runs[r] == Exec(steps).value.runs[r]
            && t.runs[r].key in t.table && t.table[t.runs[r].key] == Posted
    decreases |more|
  {
    if more == [] {
      assert steps + more == steps;
    } else {
      var all := steps + more;
      assert all[..|all| - 1] == steps + more[..|more| - 1];
      PostedIsFinal(steps, more[..|more| - 1], r);
    }
    RunKeepsOk(steps + more);
  }

  /** A run that is planning can end in any way, and then its key is posted or free, and
      no other key or run is touched. */
  lemma RunsFinish(s: State, r: RunId, o: Outcome)
    requires r in s.runs && s.runs[r].phase.Planning?
    ensures Enabled(s, Send(r, o)) && Enabled(Apply(s, Send(r, o)), Settle(r))
    ensures var t, key := Apply(Apply(s, Send(r, o)), Settle(r)), s.runs[r].key;
            && t.runs == s.runs[r := Run(key, Done(o))]
            && t.table == if o == PlanPosted then s.table[key := Posted] else s.table - {key}
  {
    assert s.runs[r := Run(s.runs[r].key, Settling(o))][r := Run(s.runs[r].key, Done(o))] ==
           s.runs[r := Run(s.runs[r].key, Done(o))];
  }

  // -------------------------------------------------------------- the PM itself

  /** The process-wide table and the functions over it. `script` stands for the
      library's character classes. */
  class Planner {
    const script: Script
    var planned: Table

    constructor (script: Script)
      ensures this.script == script && planned == map[]
    {
      this.script, planned := script, map[];
    }

    method ClaimHumanGoal(channel: string, goal: string) returns (won: bool)
      modifies this
      ensures var key := Key(script, channel, goal);
              if key.None? then !won && planned == old(planned)
              else (planned, won) == Claimed(old(planned), key.value)
    {
      var key := Key(script, channel, goal);
      if key.None? { return false; }
      if key.value in planned { return false; }
      planned := planned[key.value := Inflight];
      return true;
    }

    method MarkHumanGoalPosted(channel: string, goal: string)
      modifies this
      ensures var key := Key(script, channel, goal);
              planned == if key.None? then old(planned) else Settled(old(planned), key.value, PlanPosted)
    {
      var key := Key(script, channel, goal);
      if key.None? { return; }
      planned := planned[key.value := Posted];
    }

    method ReleaseHumanGoal(channel: string, goal: string)
      modifies this
      ensures var key := Key(script, channel, goal);
              planned == if key.None? then old(planned) else Settled(old(planned), key.value, FallbackPosted)
    {
      var key := Key(script, channel, goal);
      if key.None? { return; }
      planned := planned - {key.value};
    }

    /** One planning message. `drafted` is the sanitised plan, absent when the model
        failed or answered nothing; `sent` whether channel.post was answered. */
    method ProcessPlanningMessage(channel: string, goal: string, fallback: string, drafted: Option<string>, sent: bool)
      returns (ran: bool, outcome: Outcome)
      modifies this
      ensures var key := Key(script, channel, goal);
              && ran == (key.Some? && key.value !in old(planned))
              && (ran ==> (outcome == SendFailed <==> !sent))
              && (ran ==> (outcome == PlanPosted <==> sent && drafted.Some? && drafted.value != fallback))
              && planned == (if ran && outcome == PlanPosted then old(planned)[key.value := Posted] else old(planned))
    {
      outcome := SendFailed;
      ran := ClaimHumanGoal(channel, goal);
      if !ran { return; }
      var usedFallback := drafted.None? || drafted.value == fallback;
      if !sent {
        ReleaseHumanGoal(channel, goal);
        return;
      }
      if usedFallback {
        ReleaseHumanGoal(channel, goal);
        outcome := FallbackPosted;
      } else {
        MarkHumanGoalPosted(channel, goal);
        outcome := PlanPosted;
      }
    }
  }
}
