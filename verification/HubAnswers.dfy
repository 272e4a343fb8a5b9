/** Answers in every run: what the callee sends next is what the caller gets, whatever
    else happens in between. */
module HubAnswers {
  import opened Common
  import opened HubIds
  import opened Registry
  import opened Hub
  import opened HubSteps
  import opened HubRpc
  import opened HubWaits

  /** Caller `a`, callee `b`, the request, its waiter and the callee's answer to it. */
  datatype Deal = Deal(a: ConnId, b: ConnId, msg: Message, w: nat, reply: Message)

  /** The waiter is the caller's and will take the answer of the callee, which no other
      connection can give any more. */
  ghost predicate Agreed(s: State, k: Deal) {
    && k.a != k.b && k.a in s.tasks && k.b in s.tables.peers && Alone(s, k.b) && Mine(s, k.a, k.msg, k.w)
    && k.msg.destination != "" && s.tables.peers[k.b].id == k.msg.destination == k.reply.source
    && (IsUnsolicited(k.reply.command) ==> k.reply.command == k.msg.command)
  }

  /** The callee's goroutine has read its answer and found the waiter. */
  ghost predicate Carried(s: State, k: Deal) {
    && Agreed(s, k) && k.b in s.tasks && s.tasks[k.b] == Loaded(k.reply, k.w, None) && s.waiters[k.w].box == None
    && (s.tasks[k.a] == Awaiting(k.msg, k.w) || s.tasks[k.a] == Finishing(k.msg, k.w, None))
  }

  /** The answer waits for the caller, or the caller has it, or the caller gave up. */
  ghost predicate Answered(s: State, k: Deal) {
    && Agreed(s, k)
    && ((s.tasks[k.a] == Awaiting(k.msg, k.w) && s.waiters[k.w].box == Some(k.reply))
        || s.tasks[k.a] == Finishing(k.msg, k.w, Some(k.reply))
        || s.tasks[k.a] == Finishing(k.msg, k.w, None))
  }

  lemma AgreedStep(s: State, step: Step, k: Deal)
    requires Good(s) && Enabled(s, step) && Agreed(s, k) && !Joins(s, step, k.msg.destination)
    requires k.a in Apply(s, step).tasks
    ensures Agreed(Apply(s, step), k)
  {
    AloneStep(s, step, k.b);
    if step.Move? { MoveTouches(s, step.m, k.a); } else { RpcLeavesTables(s, step); }
    StepExtendsWaiters(s, step);
  }

  /** What a step does to a caller in the last stages of its call. */
  lemma CallerStep(s: State, step: Step, a: ConnId)
    requires Good(s) && Enabled(s, step) && step != Disarm(a)
    requires a in s.tasks && (s.tasks[a].Awaiting? || s.tasks[a].Finishing?)
    ensures a in Apply(s, step).tasks
    ensures Apply(s, step).tasks[a] ==
            if step == Timeout(a) then Finishing(s.tasks[a].msg, s.tasks[a].w, None)
            else if step == Receive(a) then Finishing(s.tasks[a].msg, s.tasks[a].w, s.waiters[s.tasks[a].w].box)
            else s.tasks[a]
  {
    if step.Move? {
      BusyStays(s, step.m, a);
    } else if step != Timeout(a) && step != Receive(a) {
      OthersStay(s, step, a);
    }
  }

  /** Nobody but the callee can fill the waiter, and nobody but the caller empty it. */
  lemma OnlyCalleeFills(s: State, step: Step, k: Deal)
    requires Good(s) && Enabled(s, step) && Agreed(s, k) && step.Offer?
    requires s.tasks[step.c].w == k.w && Accepts(s.waiters[k.w], s.tasks[step.c].msg)
    ensures step.c == k.b
  {
  }

  lemma OnlyCallerReceives(s: State, step: Step, k: Deal)
    requires Good(s) && Enabled(s, step) && Agreed(s, k) && InCall(s.tasks[k.a]) && s.tasks[k.a].w == k.w
    ensures ReceivesFrom(s, step, k.w) ==> step == Receive(k.a)
  {
    assert !Reserved(s.tables.peers[k.a].id);
  }

  lemma BoxStaysEmpty(s: State, step: Step, k: Deal)
    requires Good(s) && Enabled(s, step) && Carried(s, k) && step != Offer(k.b)
    ensures k.w < |Apply(s, step).waiters| && Apply(s, step).waiters[k.w].box == None
  {
    OnlyCallerReceives(s, step, k);
    BoxTouches(s, step, k.w);
    if step.Offer? && s.tasks[step.c].w == k.w && Accepts(s.waiters[k.w], s.tasks[step.c].msg) {
      OnlyCalleeFills(s, step, k);
    }
  }

  lemma CarriedStep(s: State, step: Step, k: Deal)
    requires Reachable(s) && Enabled(s, step) && Carried(s, k) && !Joins(s, step, k.msg.destination)
    requires step != Offer(k.b) && step != Disarm(k.a)
    ensures Carried(Apply(s, step), k)
    ensures Apply(s, step).tasks[k.a] != s.tasks[k.a] ==> step == Timeout(k.a)
  {
    ReachableIsGood(s);
    CallerStep(s, step, k.a);
    AgreedStep(s, step, k);
    if step.Move? { BusyStays(s, step.m, k.b); } else { OthersStay(s, step, k.b); }
    BoxStaysEmpty(s, step, k);
  }

  lemma AnsweredStep(s: State, step: Step, k: Deal)
    requires Reachable(s) && Enabled(s, step) && Answered(s, k) && !Joins(s, step, k.msg.destination)
    requires step != Disarm(k.a)
    ensures Answered(Apply(s, step), k)
    ensures Apply(s, step).tasks[k.a] != s.tasks[k.a] && Apply(s, step).tasks[k.a] == Finishing(k.msg, k.w, None) ==>
              step == Timeout(k.a)
  {
    ReachableIsGood(s);
    CallerStep(s, step, k.a);
    AgreedStep(s, step, k);
    OnlyCallerReceives(s, step, k);
    if step != Receive(k.a) { BoxTouches(s, step, k.w); }
  }

  // -------------------------------------------------------------------- whole runs

  lemma {:induction false} CarriedRun(s: State, steps: seq<Step>, k: Deal)
    requires Reachable(s) && Carried(s, k) && Exec(s, steps).Some? && NoJoin(s, steps, k.msg.destination)
    requires Offer(k.b) !in steps && Disarm(k.a) !in steps
    ensures Carried(Exec(s, steps).value, k)
    ensures Exec(s, steps).value.tasks[k.a] != s.tasks[k.a] ==> Timeout(k.a) in steps
    decreases |steps|
  {
    if steps != [] {
      var front, last := steps[..|steps| - 1], steps[|steps| - 1];
      assert steps == front + [last];
      NoJoinFront(s, steps, k.msg.destination);
      CarriedRun(s, front, k);
      ReachableAfter(s, front);
      CarriedStep(Exec(s, front).value, last, k);
    }
  }

  lemma {:induction false} AnsweredRun(s: State, steps: seq<Step>, k: Deal)
    requires Reachable(s) && Answered(s, k) && Exec(s, steps).Some? && NoJoin(s, steps, k.msg.destination)
    requires Disarm(k.a) !in steps
    ensures Answered(Exec(s, steps).value, k)
    ensures Exec(s, steps).value.tasks[k.a] == Finishing(k.msg, k.w, None) ==>
              s.tasks[k.a] == Finishing(k.msg, k.w, None) || Timeout(k.a) in steps
    decreases |steps|
  {
    if steps != [] {
      var front, last := steps[..|steps| - 1], steps[|steps| - 1];
      assert steps == front + [last];
      NoJoinFront(s, steps, k.msg.destination);
      AnsweredRun(s, front, k);
      ReachableAfter(s, front);
      AnsweredStep(Exec(s, front).value, last, k);
    }
  }

  /** `a` waits on an empty waiter, and `answer` is a frame from `b`, the component it
      called, that may end the wait. */
  predicate CanAnswer(s: State, a: ConnId, b: ConnId, answer: Frame) {
    && a != b && Busy(s, a) && Busy(s, b) && s.tasks[a].Awaiting? && s.tasks[b] == Idle && s.tables.lock == None
    && s.tasks[a].w < |s.waiters| && s.waiters[s.tasks[a].w].box == None
    && s.tables.peers[b].id == s.tasks[a].msg.destination != "" && !IsEphemeralClient(s.tables.peers[b].id)
    && answer.destination == s.tables.peers[a].id
    && (IsUnsolicited(answer.command) ==> answer.command == s.tasks[a].msg.command)
  }

  /** A frame as the hub routes it. */
  function Stamped(s: State, c: ConnId, frame: Frame): Message
    requires c in s.tables.peers
  {
    Message(s.tables.peers[c].id, frame.destination, frame.command, frame.body, c)
  }

  function DealOf(s: State, a: ConnId, b: ConnId, answer: Frame): Deal
    requires CanAnswer(s, a, b, answer)
  {
    Deal(a, b, s.tasks[a].msg, s.tasks[a].w, Stamped(s, b, answer))
  }

  /** The callee's next admitted answer always finds the caller's waiter. */
  lemma AnswerIsCorrelated(s: State, a: ConnId, b: ConnId, answer: Frame)
    requires Reachable(s) && CanAnswer(s, a, b, answer) && Found(s, a, s.tasks[a].w) && Alone(s, b)
    ensures Enabled(s, Read(b, answer, true)) && Carried(Apply(s, Read(b, answer, true)), DealOf(s, a, b, answer))
    ensures Apply(s, Read(b, answer, true)).tasks[a] == s.tasks[a]
  {
    ReachableIsGood(s);
    assert TaskOk(s, a, s.tasks[a]);
    assert !Reserved(s.tables.peers[a].id);
    assert AfterRead(s, b, answer, true) == WithTask(s, b, Loaded(Stamped(s, b, answer), s.tasks[a].w, None));
  }

  lemma OfferAnswers(s: State, k: Deal)
    requires Reachable(s) && Carried(s, k)
    ensures Enabled(s, Offer(k.b)) && Answered(Apply(s, Offer(k.b)), k)
    ensures Apply(s, Offer(k.b)).tasks[k.a] == s.tasks[k.a]
  {
  }

  /** The callee's answer is read, anything happens, it is offered, anything happens. */
  datatype Script = Script(b: ConnId, answer: Frame, before: seq<Step>, after: seq<Step>)

  /** The states after the first three of these, and after all. */
  function WhenRead(s: State, x: Script): Option<State> {
    Then(Some(s), Read(x.b, x.answer, true))
  }

  function WhenCarried(s: State, x: Script): Option<State> {
    var o := WhenRead(s, x);
    if o.Some? then Exec(o.value, x.before) else None
  }

  function WhenOffered(s: State, x: Script): Option<State> {
    Then(WhenCarried(s, x), Offer(x.b))
  }

  function WhenDone(s: State, x: Script): Option<State> {
    var o := WhenOffered(s, x);
    if o.Some? then Exec(o.value, x.after) else None
  }

  /** The script runs through, its parts are what they say, and no connection registers
      under `id` on the way. */
  ghost predicate Plays(s: State, x: Script, a: ConnId, id: Id) {
    && WhenDone(s, x).Some? && Offer(x.b) !in x.before && Disarm(a) !in x.before && Disarm(a) !in x.after
    && NoJoin(WhenRead(s, x).value, x.before, id) && NoJoin(WhenOffered(s, x).value, x.after, id)
  }

  /** Every run: once the callee's goroutine has read an admitted answer and offered it,
      then whatever other connections do before and after, and until the caller is done
      with the call, that very answer waits for the caller or is the caller's reply,
      unless the caller timed out. The caller must be found under its id when the answer
      is read, and no second connection serve or register under the callee's id. */
  lemma CalleeAnswerReachesCaller(s: State, a: ConnId, x: Script)
    requires Reachable(s) && CanAnswer(s, a, x.b, x.answer) && Found(s, a, s.tasks[a].w) && Alone(s, x.b)
    requires Plays(s, x, a, s.tasks[a].msg.destination)
    ensures var t, msg, w, reply := WhenDone(s, x).value, s.tasks[a].msg, s.tasks[a].w, Some(Stamped(s, x.b, x.answer));
            && a in t.tasks && w < |t.waiters|
            && (|| (t.tasks[a] == Awaiting(msg, w) && t.waiters[w].box == reply)
                || t.tasks[a] == Finishing(msg, w, reply)
                || (t.tasks[a] == Finishing(msg, w, None) && (Timeout(a) in x.before || Timeout(a) in x.after)))
  {
    var k := DealOf(s, a, x.b, x.answer);
    var s1, s2, s3 := WhenRead(s, x).value, WhenCarried(s, x).value, WhenOffered(s, x).value;
    AnswerIsCorrelated(s, a, x.b, x.answer);
    ReachableAfter(s, [Read(x.b, x.answer, true)]);
    CarriedRun(s1, x.before, k);
    ReachableAfter(s1, x.before);
    OfferAnswers(s2, k);
    ReachableAfter(s2, [Offer(x.b)]);
    AnsweredRun(s3, x.after, k);
  }
}
