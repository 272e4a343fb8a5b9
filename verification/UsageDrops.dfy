/** The network boundary's count of usage pushes that the hub refused, and the
    rate-limited log of them. */
module UsageDrops {
  import opened Common

  /** Nanoseconds; the zero value is Go's zero Time. */
  type Time = int
  const ZERO: Time := 0
  const WINDOW: int := 60 * 1_000_000_000

  datatype Line = Line(at: Time, count: nat, forced: bool)

  /** The three package variables, with the log they write to. */
  datatype State = State(outstanding: nat, pending: nat, last: Time, lines: seq<Line>)

  const START := State(0, 0, ZERO, [])

  /** `Emit` is a usage push that was written to the hub, `Frame` a hub frame as the
      read loop gets it, `Tick` the idle flusher, `Shutdown` its last act. Each carries
      the clock value read before the lock is taken, so values may come out of order. */
  datatype Event = Emit(now: Time) | Frame(command: string, now: Time) | Tick(now: Time) | Shutdown(now: Time)

  /** Frames that are requests; the rest are accounted against usage pushes. */
  predicate ShouldAnswer(command: string) {
    && command !in {"llm.usage.recorded", "error", "", "response", "ack", "channel.posted", "channel.data",
                    "channel.created", "channel.joined", "channel.archived", "channel.list",
                    "channel.member_added", "memory.context", "memory.response"}
    && !HasSuffix(command, ".response")
  }

  predicate IsAck(command: string) {
    command == "response" || command == "ack"
  }

  predicate IsError(command: string) {
    command == "error" || command == ""
  }

  /** Inside the window of the last line. */
  predicate Quiet(s: State, now: Time) {
    s.last != ZERO && now - s.last < WINDOW
  }

  function Write(s: State, now: Time, forced: bool): State {
    State(s.outstanding, 0, now, s.lines + [Line(now, s.pending, forced)])
  }

  function Flush(s: State, now: Time, force: bool): State {
    if s.pending == 0 || (!force && Quiet(s, now)) then s else Write(s, now, force)
  }

  /** noteUsagePushHubError. */
  function Note(s: State, command: string, now: Time): State {
    if IsAck(command) then Flush(s.(outstanding := if s.outstanding > 0 then s.outstanding - 1 else 0), now, false)
    else if !IsError(command) || s.outstanding == 0 then Flush(s, now, false)
    else
      var s' := s.(outstanding := s.outstanding - 1, pending := s.pending + 1);
      if Quiet(s', now) then s' else Write(s', now, false)
  }

  function Step(s: State, e: Event): State {
    match e
    case Emit(now) => Flush(s.(outstanding := s.outstanding + 1), now, false)
    case Frame(command, now) => if ShouldAnswer(command) then Flush(s, now, false) else Note(s, command, now)
    case Tick(now) => Flush(s, now, false)
    case Shutdown(now) => Flush(s, now, true)
  }

  function Run(es: seq<Event>): State
    decreases |es|
  {
    if es == [] then START else Step(Run(es[..|es| - 1]), es[|es| - 1])
  }

  // ---------------------------------------------------------- what happened

  function Emits(es: seq<Event>): nat {
    if es == [] then 0 else Emits(es[..|es| - 1]) + if es[|es| - 1].Emit? then 1 else 0
  }

  /** An acknowledgement, or an error, that finds a push outstanding. */
  predicate Retires(s: State, e: Event) {
    e.Frame? && e.command in {"response", "ack"} && s.outstanding > 0
  }

  predicate Drops(s: State, e: Event) {
    e.Frame? && e.command in {"error", ""} && s.outstanding > 0
  }

  function Retired(es: seq<Event>): nat {
    if es == [] then 0
    else Retired(es[..|es| - 1]) + if Retires(Run(es[..|es| - 1]), es[|es| - 1]) then 1 else 0
  }

  function Dropped(es: seq<Event>): nat {
    if es == [] then 0
    else Dropped(es[..|es| - 1]) + if Drops(Run(es[..|es| - 1]), es[|es| - 1]) then 1 else 0
  }

  function Logged(lines: seq<Line>): nat {
    if lines == [] then 0 else Logged(lines[..|lines| - 1]) + lines[|lines| - 1].count
  }

  lemma AnsweredFramesAreNeither(command: string)
    requires ShouldAnswer(command)
    ensures !IsAck(command) && !IsError(command)
  {
  }

  lemma FlushBalances(s: State, now: Time, force: bool)
    ensures Flush(s, now, force).outstanding == s.outstanding
    ensures Logged(Flush(s, now, force).lines) + Flush(s, now, force).pending == Logged(s.lines) + s.pending
  {
  }

  lemma NoteBalances(s: State, command: string, now: Time)
    ensures var t, e := Note(s, command, now), Frame(command, now);
            && t.outstanding == s.outstanding - (if Retires(s, e) || Drops(s, e) then 1 else 0)
            && Logged(t.lines) + t.pending == Logged(s.lines) + s.pending + if Drops(s, e) then 1 else 0
  {
  }

  /** One event moves one push at most, and no drop is lost between counter and log. */
  lemma StepBalances(s: State, e: Event)
    ensures var t := Step(s, e);
            && t.outstanding == s.outstanding + (if e.Emit? then 1 else 0)
                                - (if Retires(s, e) || Drops(s, e) then 1 else 0)
            && Logged(t.lines) + t.pending == Logged(s.lines) + s.pending + if Drops(s, e) then 1 else 0
  {
    match e
    case Emit(now) => FlushBalances(s.(outstanding := s.outstanding + 1), now, false);
    case Frame(command, now) =>
      if ShouldAnswer(command) {
        AnsweredFramesAreNeither(command);
        FlushBalances(s, now, false);
      } else {
        NoteBalances(s, command, now);
      }
    case Tick(now) => FlushBalances(s, now, false);
    case Shutdown(now) => FlushBalances(s, now, true);
  }

  /** What every event does, in full. A push adds one outstanding; "response" and "ack"
      take one away, as do "error" and the empty command, which count it as a drop. What
      is then pending is logged in one line if the event is a shutdown, or no line was
      written before, or the last one is at least a minute old; else it waits. */
  lemma StepIsExact(s: State, e: Event)
    ensures var t, due := Step(s, e), s.pending + if Drops(s, e) then 1 else 0;
            && t.outstanding == s.outstanding + (if e.Emit? then 1 else 0)
                                - (if Retires(s, e) || Drops(s, e) then 1 else 0)
            && if due == 0 then t.pending == 0 && t.last == s.last && t.lines == s.lines
               else if e.Shutdown? || s.last == 0 || e.now - s.last >= 60_000_000_000
               then t.pending == 0 && t.last == e.now && t.lines == s.lines + [Line(e.now, due, e.Shutdown?)]
               else t.pending == due && t.last == s.last && t.lines == s.lines
  {
    if e.Frame? && ShouldAnswer(e.command) { AnsweredFramesAreNeither(e.command); }
  }

  /** Over any events: every push is acknowledged, dropped or still outstanding, and
      every drop is in exactly one log line or still pending. */
  lemma {:induction false} DropsAreConserved(es: seq<Event>)
    ensures Emits(es) == Retired(es) + Dropped(es) + Run(es).outstanding
    ensures Dropped(es) == Logged(Run(es).lines) + Run(es).pending
    decreases |es|
  {
    if es != [] {
      DropsAreConserved(es[..|es| - 1]);
      StepBalances(Run(es[..|es| - 1]), es[|es| - 1]);
    }
  }

  /** After the shutdown flush every drop has been reported exactly once. */
  lemma ShutdownReportsEveryDrop(es: seq<Event>, now: Time)
    ensures Logged(Run(es + [Shutdown(now)]).lines) == Dropped(es + [Shutdown(now)]) == Dropped(es)
  {
    assert (es + [Shutdown(now)])[..|es|] == es;
    DropsAreConserved(es + [Shutdown(now)]);
  }

  // ------------------------------------------------------------- how often

  predicate Spaced(a: Line, b: Line) {
    b.forced || a.at == ZERO || b.at - a.at >= WINDOW
  }

  /** `last` is the time of the last line, lines say something, and a line that no
      shutdown forced keeps its distance from the one before it. */
  ghost predicate LogOk(s: State) {
    && s.last == (if s.lines == [] then ZERO else s.lines[|s.lines| - 1].at)
    && (s.pending > 0 ==> s.last != ZERO)
    && (forall k :: 0 <= k < |s.lines| ==> s.lines[k].count > 0)
    && (forall k :: 0 < k < |s.lines| ==> Spaced(s.lines[k - 1], s.lines[k]))
  }

  lemma WriteKeepsLogOk(s: State, now: Time, forced: bool)
    requires LogOk(s.(pending := 0)) && s.pending > 0 && (forced || !Quiet(s, now))
    ensures LogOk(Write(s, now, forced))
  {
  }

  lemma FlushKeepsLogOk(s: State, now: Time, force: bool)
    requires LogOk(s)
    ensures LogOk(Flush(s, now, force))
  {
    if s.pending > 0 && (force || !Quiet(s, now)) { WriteKeepsLogOk(s, now, force); }
  }

  lemma DropKeepsLogOk(s: State, now: Time)
    requires LogOk(s) && s.outstanding > 0
    ensures var t := s.(outstanding := s.outstanding - 1, pending := s.pending + 1);
            LogOk(if Quiet(t, now) then t else Write(t, now, false))
  {
  }

  lemma NoteKeepsLogOk(s: State, command: string, now: Time)
    requires LogOk(s)
    ensures LogOk(Note(s, command, now))
  {
    if s.outstanding == 0 || !(IsAck(command) || IsError(command)) {
      FlushKeepsLogOk(s, now, false);
    } else if IsAck(command) {
      FlushKeepsLogOk(s.(outstanding := s.outstanding - 1), now, false);
    } else {
      DropKeepsLogOk(s, now);
    }
  }

  lemma StepKeepsLogOk(s: State, e: Event)
    requires LogOk(s)
    ensures LogOk(Step(s, e))
  {
    FlushKeepsLogOk(s, e.now, false);
    FlushKeepsLogOk(s, e.now, true);
    FlushKeepsLogOk(s.(outstanding := s.outstanding + 1), e.now, false);
    if e.Frame? { NoteKeepsLogOk(s, e.command, e.now); }
  }

  lemma {:induction false} RunKeepsLogOk(es: seq<Event>)
    ensures LogOk(Run(es))
    decreases |es|
  {
    if es != [] {
      RunKeepsLogOk(es[..|es| - 1]);
      StepKeepsLogOk(Run(es[..|es| - 1]), es[|es| - 1]);
    }
  }

  /** Whatever order the clock values arrive in, a line that is not a shutdown flush
      comes a full window after the line before it. (A line stamped with the zero Time
      opens no window.) */
  lemma LinesAreSpaced(es: seq<Event>, k: nat)
    requires 0 < k < |Run(es).lines|
    ensures Run(es).lines[k].forced || Run(es).lines[k - 1].at == ZERO
            || Run(es).lines[k].at - Run(es).lines[k - 1].at >= 60_000_000_000
  {
    RunKeepsLogOk(es);
  }

  /** Drops only ever wait behind a line already written, whose window is the one they
      wait out. */
  lemma PendingWaitsBehindALine(es: seq<Event>)
    ensures Run(es).pending > 0 ==>
              Run(es).lines != [] && Run(es).last == Run(es).lines[|Run(es).lines| - 1].at != ZERO
  {
    RunKeepsLogOk(es);
  }

  /** Any event at all, before the first line or a full window after the last one, leaves
      nothing pending. */
  lemma NothingWaitsPastTheWindow(es: seq<Event>, e: Event)
    requires Run(es).last == ZERO || e.now - Run(es).last >= 60_000_000_000
    ensures Run(es + [e]).pending == 0
  {
    assert (es + [e])[..|es|] == es;
  }

  /** Without shutdowns, n lines take at least n - 1 windows. */
  lemma {:induction false} LinesTakeTime(es: seq<Event>, k: nat)
    requires k < |Run(es).lines|
    requires forall i :: 0 <= i < |Run(es).lines| ==> !Run(es).lines[i].forced && Run(es).lines[i].at != ZERO
    ensures Run(es).lines[k].at - Run(es).lines[0].at >= k * 60_000_000_000
  {
    if k > 0 {
      LinesTakeTime(es, k - 1);
      LinesAreSpaced(es, k);
    }
  }

  // ----------------------------------------------------- the package variables

  /** The counters as the boundary keeps them, updated under usageDropMu. */
  class Counters {
    var usagePushOutstanding: nat
    var usageDropPending: nat
    var usageDropLast: Time
    ghost var lines: seq<Line>

    ghost function Value(): State
      reads this
    {
      State(usagePushOutstanding, usageDropPending, usageDropLast, lines)
    }

    constructor ()
      ensures Value() == START
    {
      usagePushOutstanding, usageDropPending, usageDropLast, lines := 0, 0, ZERO, [];
    }

    method MarkUsagePushOutstanding(now: Time)
      modifies this
      ensures Value() == Step(old(Value()), Emit(now))
    {
      usagePushOutstanding := usagePushOutstanding + 1;
      FlushUsageDropsLocked(now, false);
    }

    /** Only requests are dispatched and answered. */
    method ServeBoundaryFrame(command: string, now: Time) returns (answered: bool)
      modifies this
      ensures Value() == Step(old(Value()), Frame(command, now))
      ensures answered <==> !Reply(command) && command !in {"llm.usage.recorded", "error", ""}
    {
      ResponseSuffix(command);
      if !ShouldAnswer(command) {
        NoteUsagePushHubError(command, now);
        return false;
      }
      FlushUsageDropsLocked(now, false);
      return true;
    }

    method NoteUsagePushHubError(command: string, now: Time)
      modifies this
      ensures Value() == Note(old(Value()), command, now)
    {
      if IsAck(command) {
        if usagePushOutstanding > 0 { usagePushOutstanding := usagePushOutstanding - 1; }
        FlushUsageDropsLocked(now, false);
        return;
      }
      if command != "error" && command != "" {
        FlushUsageDropsLocked(now, false);
        return;
      }
      if usagePushOutstanding == 0 {
        FlushUsageDropsLocked(now, false);
        return;
      }
      usagePushOutstanding := usagePushOutstanding - 1;
      usageDropPending := usageDropPending + 1;
      if usageDropLast != ZERO && now - usageDropLast < WINDOW { return; }
      LogDrops(now, false);
    }

    method FlushUsageDropsLocked(now: Time, force: bool)
      modifies this
      ensures Value() == Flush(old(Value()), now, force)
    {
      if usageDropPending == 0 { return; }
      if !force && usageDropLast != ZERO && now - usageDropLast < WINDOW { return; }
      LogDrops(now, force);
    }

    method LogDrops(now: Time, force: bool)
      modifies this
      ensures Value() == Write(old(Value()), now, force)
    {
      lines := lines + [Line(now, usageDropPending, force)];
      usageDropPending := 0;
      usageDropLast := now;
    }
  }
}
