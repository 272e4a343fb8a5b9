/** Aggregates over the usage log: grand totals, time windows, per model and per
    agent. */
module UsageSummary {
  import opened Common
  import opened Utf8
  import opened Usage
  import opened Calendar
  import UsageLog

  const UNKNOWN: Text := [117, 110, 107, 110, 111, 119, 110]  // "unknown"
  const HOUR: int := 3600 * 1_000_000_000

  function PromptOf(r: Record): nat { if r.prompt.Some? then r.prompt.value else 0 }
  function CompletionOf(r: Record): nat { if r.completion.Some? then r.completion.value else 0 }
  function TokensOf(r: Record): nat { PromptOf(r) + CompletionOf(r) }
  predicate Named(t: Option<Text>) { t.Some? && t.value != [] }
  function AgentKey(r: Record): Text { if Named(r.agent) then r.agent.value else UNKNOWN }
  function ModelKey(r: Record): Text { if Named(r.model) then r.model.value else UNKNOWN }

  // ------------------------------------------------------------------- calendar

  predicate GoodDate(t: Stamp) {
    1 <= t.month <= 12 && 1 <= t.day <= DaysIn(t.year, t.month)
  }

  function YearDay(t: Stamp): nat {
    DaysBefore(t.year, t.month) + t.day
  }

  /** One day of one year lies in one month. */
  lemma SameDaySameMonth(t: Stamp, u: Stamp)
    requires GoodDate(t) && GoodDate(u) && t.year == u.year && YearDay(t) == YearDay(u)
    ensures t.month == u.month
  {
    if t.month < u.month { MonthsAccumulate(t.year, t.month, u.month); }
    if u.month < t.month { MonthsAccumulate(t.year, u.month, t.month); }
  }

  // -------------------------------------------------------------- specification

  datatype Totals = Totals(calls: int, prompt: int, completion: int)

  datatype Block = Block(calls: int, prompt: int, completion: int, total: int, byModel: map<Text, int>)

  datatype Summary = Summary(
    grand: Block, lastHour: Totals, today: Totals, mtd: Totals, recordCount: nat, byAgent: map<Text, Block>)

  datatype Window = Always | LastHour | Today | Month

  /** A record without a time, or with the zero Time, counts as of now. */
  function TimeOf(r: Record, now: Stamp): Stamp {
    if r.stamp.Some? && r.stamp.value.instant != 0 then r.stamp.value else now
  }

  predicate Within(r: Record, w: Window, now: Stamp) {
    var t := TimeOf(r, now);
    match w
    case Always => true
    case LastHour => now.instant - t.instant <= HOUR
    case Today => t.year == now.year && YearDay(t) == YearDay(now)
    case Month => t.year == now.year && t.month == now.month
  }

  function Add(t: Totals, r: Record): Totals {
    Totals(t.calls + 1, t.prompt + PromptOf(r), t.completion + CompletionOf(r))
  }

  function TotalsIn(rs: seq<Record>, w: Window, now: Stamp): Totals
    decreases |rs|
  {
    if rs == [] then Totals(0, 0, 0)
    else
      var front, last := TotalsIn(rs[..|rs| - 1], w, now), rs[|rs| - 1];
      if Within(last, w, now) then Add(front, last) else front
  }

  function ModelSum(rs: seq<Record>, m: Text): int
    decreases |rs|
  {
    if rs == [] then 0
    else ModelSum(rs[..|rs| - 1], m) + if ModelKey(rs[|rs| - 1]) == m then TokensOf(rs[|rs| - 1]) else 0
  }

  function Models(rs: seq<Record>): set<Text>
    decreases |rs|
  {
    if rs == [] then {} else Models(rs[..|rs| - 1]) + {ModelKey(rs[|rs| - 1])}
  }

  function Agents(rs: seq<Record>): set<Text>
    decreases |rs|
  {
    if rs == [] then {} else Agents(rs[..|rs| - 1]) + {AgentKey(rs[|rs| - 1])}
  }

  function ByModel(rs: seq<Record>): map<Text, int> { map m | m in Models(rs) :: ModelSum(rs, m) }

  /** The records an agent's row is made of; nameless records fall to "unknown". */
  function Pick(rs: seq<Record>, a: Text): seq<Record>
    decreases |rs|
  {
    if rs == [] then []
    else
      var front, last := Pick(rs[..|rs| - 1], a), rs[|rs| - 1];
      if AgentKey(last) == a then front + [last] else front
  }

  function BlockOf(rs: seq<Record>): Block {
    var t := TotalsIn(rs, Always, Stamp(0, 0, 1, 1));
    Block(t.calls, t.prompt, t.completion, t.prompt + t.completion, ByModel(rs))
  }

  function AgentRows(rs: seq<Record>): map<Text, Block> { map a | a in Agents(rs) :: BlockOf(Pick(rs, a)) }

  function SummaryOf(rs: seq<Record>, now: Stamp): Summary {
    Summary(BlockOf(rs), TotalsIn(rs, LastHour, now), TotalsIn(rs, Today, now), TotalsIn(rs, Month, now),
            |rs|, AgentRows(rs))
  }

  // ------------------------------------------------------------ one more record

  function Bump(m: map<Text, int>, k: Text, n: int): map<Text, int> {
    m[k := (if k in m then m[k] else 0) + n]
  }

  function AddTo(b: Block, r: Record): Block {
    Block(b.calls + 1, b.prompt + PromptOf(r), b.completion + CompletionOf(r),
          b.total + TokensOf(r), Bump(b.byModel, ModelKey(r), TokensOf(r)))
  }

  const NO_BLOCK := Block(0, 0, 0, 0, map[])

  function AddRow(m: map<Text, Block>, r: Record): map<Text, Block> {
    m[AgentKey(r) := AddTo(if AgentKey(r) in m then m[AgentKey(r)] else NO_BLOCK, r)]
  }

  lemma {:induction false} UnlistedModelIsZero(rs: seq<Record>, m: Text)
    requires m !in Models(rs)
    ensures ModelSum(rs, m) == 0
    decreases |rs|
  {
    if rs != [] {
      UnlistedModelIsZero(rs[..|rs| - 1], m);
    }
  }

  lemma {:induction false} ByModelStep(rs: seq<Record>, r: Record)
    ensures ByModel(rs + [r]) == Bump(ByModel(rs), ModelKey(r), TokensOf(r))
  {
    var all, k := rs + [r], ModelKey(r);
    assert all[..|rs|] == rs;
    if k !in Models(rs) { UnlistedModelIsZero(rs, k); }
    assert ByModel(all).Keys == Models(rs) + {k};
    forall m | m in Models(all) ensures ByModel(all)[m] == Bump(ByModel(rs), k, TokensOf(r))[m] {
      assert ByModel(all)[m] == ModelSum(all, m);
    }
  }

  lemma {:induction false} BlockStep(rs: seq<Record>, r: Record)
    ensures BlockOf(rs + [r]) == AddTo(BlockOf(rs), r)
  {
    assert (rs + [r])[..|rs|] == rs;
    ByModelStep(rs, r);
  }

  lemma {:induction false} UnlistedAgentIsEmpty(rs: seq<Record>, a: Text)
    requires a !in Agents(rs)
    ensures Pick(rs, a) == []
    decreases |rs|
  {
    if rs != [] {
      UnlistedAgentIsEmpty(rs[..|rs| - 1], a);
    }
  }

  lemma {:induction false} PickStep(rs: seq<Record>, r: Record, a: Text)
    ensures Pick(rs + [r], a) == if AgentKey(r) == a then Pick(rs, a) + [r] else Pick(rs, a)
  {
  }

  lemma {:induction false} RowStep(rs: seq<Record>, r: Record, a: Text)
    ensures BlockOf(Pick(rs + [r], a)) ==
            if a != AgentKey(r) then BlockOf(Pick(rs, a))
            else AddTo(if a in Agents(rs) then BlockOf(Pick(rs, a)) else NO_BLOCK, r)
  {
    PickStep(rs, r, a);
    BlockStep(Pick(rs, a), r);
    if a !in Agents(rs) {
      UnlistedAgentIsEmpty(rs, a);
      assert BlockOf([]) == NO_BLOCK;
    }
  }

  lemma {:induction false} AgentRowsStep(rs: seq<Record>, r: Record)
    ensures AgentRows(rs + [r]) == AddRow(AgentRows(rs), r)
  {
    var all := rs + [r];
    assert all[..|rs|] == rs;
    assert Agents(all) == Agents(rs) + {AgentKey(r)};
    forall a | a in Agents(all) ensures AgentRows(all)[a] == AddRow(AgentRows(rs), r)[a] {
      RowStep(rs, r, a);
    }
  }

  lemma {:induction false} TotalsStep(rs: seq<Record>, r: Record, w: Window, now: Stamp)
    ensures TotalsIn(rs + [r], w, now) ==
            if Within(r, w, now) then Add(TotalsIn(rs, w, now), r) else TotalsIn(rs, w, now)
  {
  }

  /** One pass over the records, one accumulator per figure. */
  method ComputeSummary(rs: seq<Record>, now: Stamp) returns (s: Summary)
    ensures s == SummaryOf(rs, now)
  {
    var grand, lastHour, today, mtd := Totals(0, 0, 0), Totals(0, 0, 0), Totals(0, 0, 0), Totals(0, 0, 0);
    var modelBreak: map<Text, int> := map[];
    var byAgent: map<Text, Block> := map[];
    for i := 0 to |rs|
      invariant grand == TotalsIn(rs[..i], Always, Stamp(0, 0, 1, 1))
      invariant lastHour == TotalsIn(rs[..i], LastHour, now)
      invariant today == TotalsIn(rs[..i], Today, now)
      invariant mtd == TotalsIn(rs[..i], Month, now)
      invariant modelBreak == ByModel(rs[..i])
      invariant byAgent == AgentRows(rs[..i])
    {
      var r := rs[i];
      StepOver(rs, i, now);
      modelBreak := Bump(modelBreak, ModelKey(r), TokensOf(r));
      byAgent := AddRow(byAgent, r);
      grand := Add(grand, r);
      if Within(r, LastHour, now) { lastHour := Add(lastHour, r); }
      if Within(r, Today, now) { today := Add(today, r); }
      if Within(r, Month, now) { mtd := Add(mtd, r); }
    }
    assert rs[..|rs|] == rs;
    s := Summary(Block(grand.calls, grand.prompt, grand.completion, grand.prompt + grand.completion, modelBreak),
                 lastHour, today, mtd, |rs|, byAgent);
  }

  lemma {:induction false} StepOver(rs: seq<Record>, i: nat, now: Stamp)
    requires i < |rs|
    ensures ByModel(rs[..i + 1]) == Bump(ByModel(rs[..i]), ModelKey(rs[i]), TokensOf(rs[i]))
    ensures AgentRows(rs[..i + 1]) == AddRow(AgentRows(rs[..i]), rs[i])
    ensures forall w, t :: TotalsIn(rs[..i + 1], w, t) ==
              if Within(rs[i], w, t) then Add(TotalsIn(rs[..i], w, t), rs[i]) else TotalsIn(rs[..i], w, t)
  {
    assert rs[..i + 1] == rs[..i] + [rs[i]];
    ByModelStep(rs[..i], rs[i]);
    AgentRowsStep(rs[..i], rs[i]);
    forall w, t ensures TotalsIn(rs[..i] + [rs[i]], w, t) ==
                        if Within(rs[i], w, t) then Add(TotalsIn(rs[..i], w, t), rs[i]) else TotalsIn(rs[..i], w, t)
    {
      TotalsStep(rs[..i], rs[i], w, t);
    }
  }

  /** The agent a summary request names, or [] for all. */
  function AgentOf(p: Option<Payload>): Text {
    if p.Some? && Lookup(p.value, "agent_id").Str? then Lookup(p.value, "agent_id").text else []
  }

  lemma {:induction false} EveryAgent(rs: seq<Record>)
    ensures UsageLog.ByAgent(rs, []) == rs
    decreases |rs|
  {
    if rs != [] { EveryAgent(rs[..|rs| - 1]); }
  }

  method HandleSummary(log: UsageLog.Log, payload: Option<Payload>, now: Stamp) returns (s: Summary)
    requires log.Valid()
    ensures var all := UsageLog.Retained(log.history);
            s == if payload.Some? && "agent_id" in payload.value && payload.value["agent_id"].Str?
                 then SummaryOf(UsageLog.ByAgent(all, payload.value["agent_id"].text), now) else SummaryOf(all, now)
  {
    EveryAgent(UsageLog.Retained(log.history));
    var filtered := log.SelectAgent(log.records, AgentOf(payload));
    s := ComputeSummary(filtered, now);
  }

  // ------------------------------------------- a row is its agent's own summary

  ghost predicate AllNamed(rs: seq<Record>) {
    forall i :: 0 <= i < |rs| ==> Named(rs[i].agent)
  }

  /** Filtering for an agent finds that agent's row, and misses exactly the nameless
      records when the agent is called "unknown". */
  lemma {:induction false} FilterVersusPick(rs: seq<Record>, a: Text)
    requires a != []
    ensures |UsageLog.ByAgent(rs, a)| <= |Pick(rs, a)|
    ensures a != UNKNOWN || AllNamed(rs) ==> UsageLog.ByAgent(rs, a) == Pick(rs, a)
    ensures a == UNKNOWN && !AllNamed(rs) ==> |UsageLog.ByAgent(rs, a)| < |Pick(rs, a)|
    decreases |rs|
  {
    if rs != [] {
      FilterVersusPick(rs[..|rs| - 1], a);
    }
  }

  lemma {:induction false} CallsAreLength(rs: seq<Record>, now: Stamp)
    ensures TotalsIn(rs, Always, now).calls == |rs|
    decreases |rs|
  {
    if rs != [] { CallsAreLength(rs[..|rs| - 1], now); }
  }

  /** The by_agent row of the full summary equals the grand block of the summary
      filtered for that agent, exactly when the agent is not called "unknown" or no
      record lacks an agent id. */
  lemma {:induction false} RowIsFilteredGrand(rs: seq<Record>, a: Text, now: Stamp)
    requires a != [] && a in SummaryOf(rs, now).byAgent
    ensures SummaryOf(rs, now).byAgent[a] == SummaryOf(UsageLog.ByAgent(rs, a), now).grand
            <==> a != UNKNOWN || AllNamed(rs)
  {
    FilterVersusPick(rs, a);
    CallsAreLength(Pick(rs, a), Stamp(0, 0, 1, 1));
    CallsAreLength(UsageLog.ByAgent(rs, a), Stamp(0, 0, 1, 1));
  }

  /** The two do differ: the record the Store keeps of an empty object makes an "unknown"
      row, and a request for that agent selects nothing. */
  lemma UnknownRowDiffers(now: Stamp) returns (r: Record)
    ensures Clean(r) && SanitizedFrom(map[], None, now, r)
    ensures UsageLog.Numbered([r]) && UsageLog.Retained([r]) == [r]
    ensures var s := SummaryOf([r], now);
            UNKNOWN in s.byAgent && s.byAgent[UNKNOWN] != SummaryOf(UsageLog.ByAgent([r], UNKNOWN), now).grand
  {
    r := Record(1, None, None, None, None, None, None, None, Some(NormalizeStamp(None, now)));
    assert AgentKey([r][|[r]| - 1]) == UNKNOWN && UNKNOWN in Agents([r]);
    RowIsFilteredGrand([r], UNKNOWN, now);
    assert !Named([r][0].agent);
  }

  // ------------------------------------------------------------------ rows add up

  ghost function SumMap(m: map<Text, int>): int
    decreases |m|
  {
    if m == map[] then 0 else var k :| k in m; m[k] + SumMap(m - {k})
  }

  lemma {:induction false} SumWithout(m: map<Text, int>, k: Text)
    requires k in m
    ensures SumMap(m) == m[k] + SumMap(m - {k})
    decreases |m|
  {
    var j :| j in m && SumMap(m) == m[j] + SumMap(m - {j});
    if j != k {
      SumWithout(m - {j}, k);
      SumWithout(m - {k}, j);
      assert m - {j} - {k} == m - {k} - {j};
    }
  }

  lemma SumBump(m: map<Text, int>, k: Text, n: int)
    ensures SumMap(Bump(m, k, n)) == SumMap(m) + n
  {
    var b := Bump(m, k, n);
    SumWithout(b, k);
    assert b - {k} == m - {k};
    if k in m { SumWithout(m, k); } else { assert m - {k} == m; }
  }

  datatype Field = Calls | Prompt | Completion | Total

  function Get(b: Block, f: Field): int {
    match f case Calls => b.calls case Prompt => b.prompt case Completion => b.completion case Total => b.total
  }

  function Column(m: map<Text, Block>, f: Field): map<Text, int> { map a | a in m :: Get(m[a], f) }

  lemma ColumnStep(m: map<Text, Block>, r: Record, f: Field)
    ensures Column(AddRow(m, r), f) == Bump(Column(m, f), AgentKey(r), Get(AddTo(NO_BLOCK, r), f))
  {
  }

  /** Tokens per model add up to the block's total. */
  lemma {:induction false} ModelsAddUp(rs: seq<Record>)
    ensures SumMap(BlockOf(rs).byModel) == BlockOf(rs).total
    decreases |rs|
  {
    if rs != [] {
      var front, last := rs[..|rs| - 1], rs[|rs| - 1];
      assert rs == front + [last];
      ModelsAddUp(front);
      BlockStep(front, last);
      SumBump(BlockOf(front).byModel, ModelKey(last), TokensOf(last));
    }
  }

  lemma {:induction false} RowsAddUp(rs: seq<Record>, f: Field)
    ensures SumMap(Column(AgentRows(rs), f)) == Get(BlockOf(rs), f)
    decreases |rs|
  {
    if rs == [] {
      assert Column(AgentRows(rs), f) == map[];
    } else {
      var front, last := rs[..|rs| - 1], rs[|rs| - 1];
      assert rs == front + [last];
      RowsAddUp(front, f);
      AgentRowsStep(front, last);
      BlockStep(front, last);
      ColumnStep(AgentRows(front), last, f);
      SumBump(Column(AgentRows(front), f), AgentKey(last), Get(AddTo(NO_BLOCK, last), f));
    }
  }

  /** In every summary the agent rows add up to the grand block, field by field, and
      the model breakdown of the grand block and of every row adds up to its total. */
  lemma {:induction false} SummaryAddsUp(rs: seq<Record>, now: Stamp, f: Field, a: Text)
    ensures var s := SummaryOf(rs, now);
            && SumMap(Column(s.byAgent, f)) == Get(s.grand, f)
            && SumMap(s.grand.byModel) == s.grand.total
            && s.grand.calls == s.recordCount
            && (a in s.byAgent ==> SumMap(s.byAgent[a].byModel) == s.byAgent[a].total)
  {
    RowsAddUp(rs, f);
    ModelsAddUp(rs);
    ModelsAddUp(Pick(rs, a));
    CallsAreLength(rs, Stamp(0, 0, 1, 1));
  }

  // ---------------------------------------------------------------- windows nest

  predicate AtMost(a: Totals, b: Totals) {
    0 <= a.calls <= b.calls && 0 <= a.prompt <= b.prompt && 0 <= a.completion <= b.completion
  }

  ghost predicate Dated(rs: seq<Record>, now: Stamp) {
    GoodDate(now) && forall i :: 0 <= i < |rs| ==> GoodDate(TimeOf(rs[i], now))
  }

  /** today <= month to date <= grand total, and last hour <= grand total. */
  lemma {:induction false} WindowsNest(rs: seq<Record>, now: Stamp)
    requires Dated(rs, now)
    ensures AtMost(TotalsIn(rs, Today, now), TotalsIn(rs, Month, now))
    ensures AtMost(TotalsIn(rs, Month, now), TotalsIn(rs, Always, now))
    ensures AtMost(TotalsIn(rs, LastHour, now), TotalsIn(rs, Always, now))
    decreases |rs|
  {
    if rs != [] {
      var last := rs[|rs| - 1];
      WindowsNest(rs[..|rs| - 1], now);
      if Within(last, Today, now) { SameDaySameMonth(TimeOf(last, now), now); }
    }
  }

  // ----------------------------------------------------------------- no overflow

  ghost predicate AllClean(rs: seq<Record>) {
    forall i :: 0 <= i < |rs| ==> Clean(rs[i])
  }

  lemma {:induction false} TotalsBounded(rs: seq<Record>, w: Window, now: Stamp)
    requires AllClean(rs)
    ensures var t := TotalsIn(rs, w, now);
            && 0 <= t.calls <= |rs| && 0 <= t.prompt <= |rs| * MAX_NUMERIC && 0 <= t.completion <= |rs| * MAX_NUMERIC
    decreases |rs|
  {
    if rs != [] { TotalsBounded(rs[..|rs| - 1], w, now); }
  }

  lemma {:induction false} ModelSumBounded(rs: seq<Record>, m: Text)
    requires AllClean(rs)
    ensures 0 <= ModelSum(rs, m) <= 2 * |rs| * MAX_NUMERIC
    decreases |rs|
  {
    if rs != [] { ModelSumBounded(rs[..|rs| - 1], m); }
  }

  lemma {:induction false} PickIsClean(rs: seq<Record>, a: Text)
    requires AllClean(rs)
    ensures AllClean(Pick(rs, a)) && |Pick(rs, a)| <= |rs|
    decreases |rs|
  {
    if rs != [] { PickIsClean(rs[..|rs| - 1], a); }
  }

  ghost predicate BlockWithin(b: Block, limit: int) {
    && 0 <= b.calls <= limit && 0 <= b.prompt <= limit && 0 <= b.completion <= limit && 0 <= b.total <= limit
    && forall m :: m in b.byModel ==> 0 <= b.byModel[m] <= limit
  }

  const SUM_LIMIT: int := 2 * UsageLog.MAX_RECORDS * MAX_NUMERIC

  lemma {:induction false} BlockBounded(rs: seq<Record>)
    requires AllClean(rs) && |rs| <= UsageLog.MAX_RECORDS
    ensures BlockWithin(BlockOf(rs), SUM_LIMIT)
  {
    TotalsBounded(rs, Always, Stamp(0, 0, 1, 1));
    forall m | m in ByModel(rs) ensures 0 <= ByModel(rs)[m] <= SUM_LIMIT { ModelSumBounded(rs, m); }
  }

  lemma {:induction false} FilterIsClean(rs: seq<Record>, agent: Text)
    requires AllClean(rs)
    ensures AllClean(UsageLog.ByAgent(rs, agent)) && |UsageLog.ByAgent(rs, agent)| <= |rs|
    ensures agent == [] ==> UsageLog.ByAgent(rs, agent) == rs
    decreases |rs|
  {
    if rs != [] { FilterIsClean(rs[..|rs| - 1], agent); }
  }

  /** For every log the Store can hold, filtered for any agent or not at all, and
      after any number of its records, every accumulator of the summary loop is within
      2 * 10^16, far below a Go int. */
  lemma AccumulatorsNeverOverflow(log: UsageLog.Log, agent: Text, k: nat, w: Window, now: Stamp, a: Text)
    requires log.Valid() && k <= |UsageLog.ByAgent(log.records, agent)|
    ensures var s := SummaryOf(UsageLog.ByAgent(log.records, agent)[..k], now);
            && BlockWithin(s.grand, SUM_LIMIT) && (a in s.byAgent ==> BlockWithin(s.byAgent[a], SUM_LIMIT))
    ensures var t := TotalsIn(UsageLog.ByAgent(log.records, agent)[..k], w, now);
            0 <= t.calls <= SUM_LIMIT && 0 <= t.prompt <= SUM_LIMIT && 0 <= t.completion <= SUM_LIMIT
    ensures SUM_LIMIT == 20_000_000_000_000_000 < 9_223_372_036_854_775_807
  {
    FilterIsClean(log.records, agent);
    var rs := UsageLog.ByAgent(log.records, agent)[..k];
    BlockBounded(rs);
    TotalsBounded(rs, w, now);
    PickIsClean(rs, a);
    BlockBounded(Pick(rs, a));
  }

  // --------------------------------------------------------- what one record adds

  function Tokens(n: Option<nat>): nat {
    match n case Some(k) => k case None => 0
  }

  /** `b` is `a`, with the record's own call and tokens added if `counts`. */
  predicate Adds(a: Totals, b: Totals, r: Record, counts: bool) {
    if counts
    then && b.calls == a.calls + 1 && b.prompt == a.prompt + Tokens(r.prompt)
         && b.completion == a.completion + Tokens(r.completion)
    else b == a
  }

  /** Nothing recorded, nothing reported. */
  lemma EmptySummary(now: Stamp)
    ensures SummaryOf([], now) ==
            Summary(Block(0, 0, 0, 0, map[]), Totals(0, 0, 0), Totals(0, 0, 0), Totals(0, 0, 0), 0, map[])
  {
  }

  /** One more record adds one call and its own prompt and completion tokens. */
  lemma OneMoreCall(rs: seq<Record>, r: Record, now: Stamp)
    ensures var s, t := SummaryOf(rs, now), SummaryOf(rs + [r], now);
            && t.recordCount == s.recordCount + 1 && t.grand.calls == s.grand.calls + 1
            && t.grand.prompt == s.grand.prompt + Tokens(r.prompt)
            && t.grand.completion == s.grand.completion + Tokens(r.completion)
            && t.grand.total == s.grand.total + Tokens(r.prompt) + Tokens(r.completion)
  {
    BlockStep(rs, r);
  }

  /** A record counts in the last hour if it is at most an hour old, today if it has the
      date of today, and this month if it has its year and month; without a time it counts
      as of now. */
  lemma OneMoreInWindows(rs: seq<Record>, r: Record, now: Stamp, at: Stamp)
    requires at == if r.stamp.Some? && r.stamp.value.instant != 0 then r.stamp.value else now
    requires GoodDate(now) && GoodDate(at)
    ensures var s, t := SummaryOf(rs, now), SummaryOf(rs + [r], now);
            && Adds(s.lastHour, t.lastHour, r, now.instant - at.instant <= 3_600_000_000_000)
            && Adds(s.today, t.today, r, at.year == now.year && at.month == now.month && at.day == now.day)
            && Adds(s.mtd, t.mtd, r, at.year == now.year && at.month == now.month)
  {
    TotalsStep(rs, r, LastHour, now);
    TotalsStep(rs, r, Today, now);
    TotalsStep(rs, r, Month, now);
    if at.year == now.year && YearDay(at) == YearDay(now) { SameDaySameMonth(at, now); }
  }

  /** The name a record is filed under. */
  predicate FiledUnder(name: Option<Text>, key: Text) {
    key == if name.Some? && name.value != [] then name.value else [117, 110, 107, 110, 111, 119, 110]
  }

  /** `b` is `a` with the record's tokens added under its model, and nothing else. */
  predicate AddsModel(a: map<Text, int>, b: map<Text, int>, r: Record, model: Text) {
    && b.Keys == a.Keys + {model}
    && b[model] == (if model in a then a[model] else 0) + Tokens(r.prompt) + Tokens(r.completion)
    && forall m :: m in a && m != model ==> b[m] == a[m]
  }

  /** `b` is `a` with the record added to one agent's row, and nothing else. */
  predicate AddsRow(a: map<Text, Block>, b: map<Text, Block>, r: Record, agent: Text, model: Text) {
    && b.Keys == a.Keys + {agent}
    && (forall x :: x in a && x != agent ==> b[x] == a[x])
    && var row := if agent in a then a[agent] else Block(0, 0, 0, 0, map[]);
       && b[agent].calls == row.calls + 1
       && b[agent].prompt == row.prompt + Tokens(r.prompt)
       && b[agent].completion == row.completion + Tokens(r.completion)
       && b[agent].total == row.total + Tokens(r.prompt) + Tokens(r.completion)
       && AddsModel(row.byModel, b[agent].byModel, r, model)
  }

  lemma BumpAddsModel(m: map<Text, int>, r: Record, model: Text)
    requires FiledUnder(r.model, model)
    ensures AddsModel(m, Bump(m, ModelKey(r), TokensOf(r)), r, model)
  {
  }

  lemma AddRowAddsRow(m: map<Text, Block>, r: Record, agent: Text, model: Text)
    requires FiledUnder(r.agent, agent) && FiledUnder(r.model, model)
    ensures AddsRow(m, AddRow(m, r), r, agent, model)
  {
    BumpAddsModel((if agent in m then m[agent] else NO_BLOCK).byModel, r, model);
  }

  /** A record adds its tokens under one model and to one agent's row. */
  lemma OneMoreRow(rs: seq<Record>, r: Record, now: Stamp, agent: Text, model: Text)
    requires FiledUnder(r.agent, agent) && FiledUnder(r.model, model)
    ensures var s, t := SummaryOf(rs, now), SummaryOf(rs + [r], now);
            && AddsModel(s.grand.byModel, t.grand.byModel, r, model)
            && AddsRow(s.byAgent, t.byAgent, r, agent, model)
  {
    ByModelStep(rs, r);
    BumpAddsModel(ByModel(rs), r, model);
    AgentRowsStep(rs, r);
    AddRowAddsRow(AgentRows(rs), r, agent, model);
  }
}
