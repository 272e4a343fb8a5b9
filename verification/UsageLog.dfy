/** The Store's usage log: numbered appends, trimming with hysteresis, and forward
    paging. */
module UsageLog {
  import opened Common
  import opened Utf8
  import opened Usage

  const MAX_RECORDS: nat := 10000
  const TRIM_TO: nat := 5000

  /** How many records the log holds after `n` appends. */
  function Kept(n: nat): (k: nat)
    ensures k <= n && k <= MAX_RECORDS && (n <= MAX_RECORDS ==> k == n) && (n > MAX_RECORDS ==> k >= TRIM_TO)
  {
    if n <= MAX_RECORDS then n else TRIM_TO + (n - MAX_RECORDS - 1) % (MAX_RECORDS - TRIM_TO + 1)
  }

  /** The log starts empty, and grows by one until the 10001st record trims it to 5000. */
  lemma KeptStep(n: nat)
    ensures Kept(0) == 0 && Kept(n + 1) == if Kept(n) == 10000 then 5000 else Kept(n) + 1
  {
    var p := MAX_RECORDS - TRIM_TO + 1;
    if n > MAX_RECORDS {
      var m := n - MAX_RECORDS - 1;
      assert (m + 1) % p == if m % p + 1 == p then 0 else m % p + 1;
    }
  }

  /** The newest Kept(|h|) records of the full history. */
  function Retained(h: seq<Record>): (r: seq<Record>)
    ensures |r| == Kept(|h|)
  {
    h[|h| - Kept(|h|)..]
  }

  lemma RetainedStep(h: seq<Record>, r: Record)
    ensures var rs := Retained(h) + [r];
            Retained(h + [r]) == if |rs| > MAX_RECORDS then rs[|rs| - TRIM_TO..] else rs
  {
    KeptStep(|h|);
  }

  /** Record i of the history carries sequence number i + 1. */
  ghost predicate Numbered(h: seq<Record>) {
    forall i :: 0 <= i < |h| ==> h[i].seqNo == i + 1
  }

  /** What is retained are the newest records, by number. */
  lemma RetainedAreTheNewest(h: seq<Record>, x: Record)
    requires Numbered(h)
    ensures x in Retained(h) <==> x in h && x.seqNo > |h| - Kept(|h|)
  {
    var d := |h| - Kept(|h|);
    if x in h && x.seqNo > d {
      var i :| 0 <= i < |h| && h[i] == x;
      assert Retained(h)[i - d] == x;
    }
  }

  ghost predicate Sanitised(h: seq<Record>) {
    forall i :: 0 <= i < |h| ==> Clean(h[i])
  }

  lemma HistoryStep(h: seq<Record>, r: Record)
    requires Numbered(h) && Sanitised(h) && Clean(r) && r.seqNo == |h| + 1
    ensures Numbered(h + [r]) && Sanitised(h + [r])
  {
  }

  // --------------------------------------------------------------------- paging

  predicate OfAgent(r: Record, agent: Text) {
    agent == [] || r.agent == Some(agent)
  }

  /** The records of an agent past a sequence number, in order; the empty agent
      stands for all. */
  function Newer(rs: seq<Record>, agent: Text, after: nat): (r: seq<Record>)
    decreases |rs|
  {
    if rs == [] then []
    else
      var front, last := Newer(rs[..|rs| - 1], agent, after), rs[|rs| - 1];
      if OfAgent(last, agent) && last.seqNo > after then front + [last] else front
  }

  /** One page of `llm.usage.recent` with `after_seq`. */
  function Page(rs: seq<Record>, agent: Text, after: nat, limit: nat): seq<Record> {
    Take(Newer(rs, agent, after), limit)
  }

  ghost predicate Rising(rs: seq<Record>) {
    forall i, j :: 0 <= i < j < |rs| ==> rs[i].seqNo < rs[j].seqNo
  }

  lemma {:induction false} NewerSelects(rs: seq<Record>, agent: Text, after: nat, x: Record)
    ensures x in Newer(rs, agent, after) <==> x in rs && OfAgent(x, agent) && x.seqNo > after
    decreases |rs|
  {
    if rs != [] {
      NewerSelects(rs[..|rs| - 1], agent, after, x);
      assert rs == rs[..|rs| - 1] + [rs[|rs| - 1]];
    }
  }

  lemma NewerBelowLast(rs: seq<Record>, agent: Text, after: nat, i: nat)
    requires Rising(rs) && rs != [] && i < |Newer(rs[..|rs| - 1], agent, after)|
    ensures after < Newer(rs[..|rs| - 1], agent, after)[i].seqNo < rs[|rs| - 1].seqNo
  {
    var front := rs[..|rs| - 1];
    var x := Newer(front, agent, after)[i];
    NewerSelects(front, agent, after, x);
    var j :| 0 <= j < |front| && front[j] == x;
  }

  lemma {:induction false} NewerIsEmpty(rs: seq<Record>, agent: Text, after: nat)
    requires forall i :: 0 <= i < |rs| ==> rs[i].seqNo <= after
    ensures Newer(rs, agent, after) == []
    decreases |rs|
  {
    if rs != [] { NewerIsEmpty(rs[..|rs| - 1], agent, after); }
  }

  /** Asking for what follows the n-th newer record gives the rest of them. */
  lemma {:induction false} NewerSplits(rs: seq<Record>, agent: Text, after: nat, n: nat)
    requires Rising(rs) && 0 < n <= |Newer(rs, agent, after)|
    ensures Newer(rs, agent, Newer(rs, agent, after)[n - 1].seqNo) == Newer(rs, agent, after)[n..]
    decreases |rs|
  {
    var all := Newer(rs, agent, after);
    var front, last := rs[..|rs| - 1], rs[|rs| - 1];
    var some := Newer(front, agent, after);
    if n <= |some| {
      NewerSplits(front, agent, after, n);
      NewerBelowLast(rs, agent, after, n - 1);
    } else {
      NewerIsEmpty(front, agent, last.seqNo);
    }
  }

  /** Walking a log: ask for a page, then for what follows its last record, until a
      page comes back empty. */
  function Walk(rs: seq<Record>, agent: Text, after: nat, limit: nat): seq<Record>
    requires Rising(rs) && limit >= 1
    decreases |Newer(rs, agent, after)|
  {
    var page := Page(rs, agent, after, limit);
    if page == [] then []
    else
      NewerSplits(rs, agent, after, |page|);
      page + Walk(rs, agent, page[|page| - 1].seqNo, limit)
  }

  /** On a log at rest, walking ends and yields every retained record of the agent
      past the start exactly once, in order, whatever the page size. */
  lemma {:induction false} WalkIsComplete(rs: seq<Record>, agent: Text, after: nat, limit: nat)
    requires Rising(rs) && limit >= 1
    ensures Walk(rs, agent, after, limit) == Newer(rs, agent, after)
    decreases |Newer(rs, agent, after)|
  {
    var all, page := Newer(rs, agent, after), Page(rs, agent, after, limit);
    if page != [] {
      NewerSplits(rs, agent, after, |page|);
      WalkIsComplete(rs, agent, page[|page| - 1].seqNo, limit);
      assert all == all[..|page|] + all[|page|..];
    }
  }

  lemma {:induction false} NewerRises(rs: seq<Record>, agent: Text, after: nat)
    requires Rising(rs)
    ensures Rising(Newer(rs, agent, after))
    decreases |rs|
  {
    if rs != [] {
      var front := Newer(rs[..|rs| - 1], agent, after);
      NewerRises(rs[..|rs| - 1], agent, after);
      forall i | 0 <= i < |front| ensures front[i].seqNo < rs[|rs| - 1].seqNo {
        NewerBelowLast(rs, agent, after, i);
      }
    }
  }

  function Cursor(after: nat, page: seq<Record>): nat {
    if page == [] then after else page[|page| - 1].seqNo
  }

  /** A walk during which the log keeps changing: page k is taken when `ns[k]`
      records of the history `h` had been appended. */
  function Pages(h: seq<Record>, ns: seq<nat>, agent: Text, after: nat, limit: nat): seq<Record>
    requires forall k :: 0 <= k < |ns| ==> ns[k] <= |h|
    decreases |ns|
  {
    if ns == [] then []
    else
      var page := Page(Retained(h[..ns[0]]), agent, after, limit);
      page + Pages(h, ns[1..], agent, Cursor(after, page), limit)
  }

  lemma PageRises(h: seq<Record>, n: nat, agent: Text, after: nat, limit: nat)
    requires Numbered(h) && n <= |h|
    ensures var page := Page(Retained(h[..n]), agent, after, limit);
            && Rising(page)
            && forall x :: x in page ==> x in h && OfAgent(x, agent) && after < x.seqNo <= Cursor(after, page)
  {
    var rs := Retained(h[..n]);
    NewerRises(rs, agent, after);
    var all, page := Newer(rs, agent, after), Page(rs, agent, after, limit);
    forall x | x in page ensures x in h && OfAgent(x, agent) && after < x.seqNo <= Cursor(after, page) {
      assert x in all;
      NewerSelects(rs, agent, after, x);
    }
  }

  /** However appends and trims fall between the pages, the records returned are the
      agent's own and their numbers strictly rise from the start. */
  lemma {:induction false} PagesRise(h: seq<Record>, ns: seq<nat>, agent: Text, after: nat, limit: nat)
    requires Numbered(h) && forall k :: 0 <= k < |ns| ==> ns[k] <= |h|
    ensures var all := Pages(h, ns, agent, after, limit);
            Rising(all) && forall x :: x in all ==> x in h && OfAgent(x, agent) && x.seqNo > after
    decreases |ns|
  {
    if ns != [] {
      var page := Page(Retained(h[..ns[0]]), agent, after, limit);
      PageRises(h, ns[0], agent, after, limit);
      PagesRise(h, ns[1..], agent, Cursor(after, page), limit);
      var rest := Pages(h, ns[1..], agent, Cursor(after, page), limit);
      assert forall i :: 0 <= i < |page| ==> page[i] in page;
      assert forall i :: 0 <= i < |rest| ==> rest[i] in rest;
    }
  }

  /** Where the walk stands after the pages at `ns`. */
  function CursorAfter(h: seq<Record>, ns: seq<nat>, agent: Text, after: nat, limit: nat): nat
    requires forall k :: 0 <= k < |ns| ==> ns[k] <= |h|
    decreases |ns|
  {
    if ns == [] then after
    else CursorAfter(h, ns[1..], agent, Cursor(after, Page(Retained(h[..ns[0]]), agent, after, limit)), limit)
  }

  lemma {:induction false} CursorAfterFirst(h: seq<Record>, ns: seq<nat>, agent: Text, after: nat, limit: nat, k: nat)
    requires k < |ns| && forall j :: 0 <= j < |ns| ==> ns[j] <= |h|
    ensures CursorAfter(h, ns[..k + 1], agent, after, limit) ==
            CursorAfter(h, ns[1..][..k], agent, Cursor(after, Page(Retained(h[..ns[0]]), agent, after, limit)), limit)
  {
    assert ns[..k + 1][1..] == ns[1..][..k];
  }

  lemma PageMissesOnlyTrimmed(h: seq<Record>, n: nat, agent: Text, after: nat, limit: nat, i: nat)
    requires Numbered(h) && n <= |h| && i < |h| && OfAgent(h[i], agent)
    requires after < h[i].seqNo <= Cursor(after, Page(Retained(h[..n]), agent, after, limit))
    ensures h[i] in Page(Retained(h[..n]), agent, after, limit) || i < n - Kept(n)
  {
    var rs := Retained(h[..n]);
    var all, page := Newer(rs, agent, after), Page(rs, agent, after, limit);
    NewerRises(rs, agent, after);
    assert page[|page| - 1] in all;
    NewerSelects(rs, agent, after, page[|page| - 1]);
    if i >= n - Kept(n) {
      assert rs[i - (n - Kept(n))] == h[i];
      NewerSelects(rs, agent, after, h[i]);
      var k :| 0 <= k < |all| && all[k] == h[i];
      assert page[k] == h[i];
    }
  }

  /** A record the walk went past without returning had already been trimmed when the
      page that went past it was taken. */
  lemma {:induction false} SkippedWereTrimmed(h: seq<Record>, ns: seq<nat>, agent: Text, after: nat, limit: nat, i: nat)
    returns (k: nat)
    requires Numbered(h) && forall k :: 0 <= k < |ns| ==> ns[k] <= |h|
    requires i < |h| && OfAgent(h[i], agent) && h[i] !in Pages(h, ns, agent, after, limit)
    requires after < h[i].seqNo <= CursorAfter(h, ns, agent, after, limit)
    ensures k < |ns| && i < ns[k] - Kept(ns[k])
    ensures CursorAfter(h, ns[..k], agent, after, limit) < h[i].seqNo
            <= CursorAfter(h, ns[..k + 1], agent, after, limit)
    decreases |ns|
  {
    var page := Page(Retained(h[..ns[0]]), agent, after, limit);
    NotInPages(h, ns, agent, after, limit, h[i]);
    if h[i].seqNo <= Cursor(after, page) {
      PageMissesOnlyTrimmed(h, ns[0], agent, after, limit, i);
      k := 0;
      CursorAfterFirst(h, ns, agent, after, limit, 0);
    } else {
      k := SkippedWereTrimmed(h, ns[1..], agent, Cursor(after, page), limit, i);
      CursorAfterFirst(h, ns, agent, after, limit, k);
      CursorAfterFirst(h, ns, agent, after, limit, k + 1);
      k := k + 1;
    }
  }

  lemma {:induction false} NotInPages(h: seq<Record>, ns: seq<nat>, agent: Text, after: nat, limit: nat, x: Record)
    requires ns != [] && forall j :: 0 <= j < |ns| ==> ns[j] <= |h|
    ensures var page := Page(Retained(h[..ns[0]]), agent, after, limit);
            x in Pages(h, ns, agent, after, limit) <==>
            x in page || x in Pages(h, ns[1..], agent, Cursor(after, page), limit)
  {
  }

  // ------------------------------------------------------------------- handlers

  function ByAgent(rs: seq<Record>, agent: Text): seq<Record>
    decreases |rs|
  {
    if rs == [] then []
    else
      var front, last := ByAgent(rs[..|rs| - 1], agent), rs[|rs| - 1];
      if OfAgent(last, agent) then front + [last] else front
  }

  lemma {:induction false} NewerOfAgent(rs: seq<Record>, agent: Text, after: nat)
    ensures Newer(ByAgent(rs, agent), [], after) == Newer(rs, agent, after)
    decreases |rs|
  {
    if rs != [] {
      var front, last := rs[..|rs| - 1], rs[|rs| - 1];
      NewerOfAgent(front, agent, after);
      if OfAgent(last, agent) {
        assert ByAgent(rs, agent)[..|ByAgent(front, agent)|] == ByAgent(front, agent);
      }
    }
  }

  lemma {:induction false} ByAgentSelects(rs: seq<Record>, agent: Text, x: Record)
    ensures x in ByAgent(rs, agent) <==> x in rs && (agent != [] ==> x.agent == Some(agent))
    decreases |rs|
  {
    if rs != [] {
      ByAgentSelects(rs[..|rs| - 1], agent, x);
      assert rs == rs[..|rs| - 1] + [rs[|rs| - 1]];
    }
  }

  lemma {:induction false} ByAgentRises(rs: seq<Record>, agent: Text)
    requires Rising(rs)
    ensures Rising(ByAgent(rs, agent))
    decreases |rs|
  {
    if rs != [] {
      var front := ByAgent(rs[..|rs| - 1], agent);
      ByAgentRises(rs[..|rs| - 1], agent);
      forall i | 0 <= i < |front| ensures front[i].seqNo < rs[|rs| - 1].seqNo {
        ByAgentSelects(rs[..|rs| - 1], agent, front[i]);
        var j :| 0 <= j < |rs| - 1 && rs[j] == front[i];
      }
    }
  }

  /** The newest `limit` records. */
  function Newest(rs: seq<Record>, limit: nat): seq<Record> {
    if |rs| > limit then rs[|rs| - limit..] else rs
  }

  /** What a `llm.usage.recent` request asks for. An `after_seq` that is present but
      is no sequence number asks for an empty page. */
  datatype Query = Query(agent: Text, limit: nat, after: After)
  datatype After = Absent | Bad | From(seqNo: nat)

  function QueryOf(p: Option<Payload>): (q: Query)
    ensures 1 <= q.limit <= RECENT_MAX
  {
    if p.None? then Query([], RECENT_DEFAULT, Absent)
    else
      var agent := Lookup(p.value, "agent_id");
      var after := if "after_seq" in p.value then SeqValue(p.value["after_seq"]) else None;
      Query(if agent.Str? then agent.text else [],
            if "limit" in p.value then RecentLimit(p.value["limit"]) else RECENT_DEFAULT,
            if "after_seq" !in p.value then Absent else if after.None? then Bad else From(after.value))
  }

  // ------------------------------------------------------- what a request is answered

  /** The record is of the agent the payload names, if it names one. */
  predicate Asked(p: Option<Payload>, x: Record) {
    p.Some? && "agent_id" in p.value && p.value["agent_id"].Str? && p.value["agent_id"].text != [] ==>
      x.agent == Some(p.value["agent_id"].text)
  }

  predicate HasCursor(p: Option<Payload>) {
    p.Some? && "after_seq" in p.value
  }

  /** The page size the payload asks for. */
  function Size(p: Option<Payload>): nat {
    if p.Some? && "limit" in p.value then RecentLimit(p.value["limit"]) else 50
  }

  /** A record the request asks for: still retained, of the agent named, and past the
      cursor if there is one, which must then be a sequence number. */
  ghost predicate Wanted(h: seq<Record>, p: Option<Payload>, x: Record) {
    && x in h && x.seqNo > |h| - Kept(|h|) && Asked(p, x)
    && (HasCursor(p) ==> SeqValue(p.value["after_seq"]).Some? && x.seqNo > SeqValue(p.value["after_seq"]).value)
  }

  /** The right answer: wanted records only, in order, no more than asked for; and if one
      is left out, the page is full and has, with a cursor, only older ones, and without
      one only newer ones. */
  ghost predicate Answers(h: seq<Record>, p: Option<Payload>, page: seq<Record>) {
    && Rising(page) && |page| <= Size(p) && (forall x :: x in page ==> Wanted(h, p, x))
    && forall x :: Wanted(h, p, x) && x !in page ==>
         |page| == Size(p) && forall y :: y in page ==> if HasCursor(p) then y.seqNo < x.seqNo else x.seqNo < y.seqNo
  }

  lemma RetainedRises(h: seq<Record>)
    requires Numbered(h)
    ensures Rising(Retained(h))
  {
  }

  lemma OldestFirst(rs: seq<Record>, limit: nat, x: Record)
    requires Rising(rs) && x in rs && x !in Take(rs, limit)
    ensures |Take(rs, limit)| == limit && forall y :: y in Take(rs, limit) ==> y.seqNo < x.seqNo
  {
    var i :| 0 <= i < |rs| && rs[i] == x;
    assert forall k :: 0 <= k < |Take(rs, limit)| ==> Take(rs, limit)[k] in Take(rs, limit);
    assert i >= |Take(rs, limit)|;
  }

  lemma NewestLast(rs: seq<Record>, limit: nat, x: Record)
    requires Rising(rs) && x in rs && x !in Newest(rs, limit)
    ensures |Newest(rs, limit)| == limit && forall y :: y in Newest(rs, limit) ==> x.seqNo < y.seqNo
  {
    var i :| 0 <= i < |rs| && rs[i] == x;
    assert forall k :: 0 <= k < |Newest(rs, limit)| ==> Newest(rs, limit)[k] in Newest(rs, limit);
    assert i < |rs| - limit;
  }

  lemma AgentAsked(p: Option<Payload>, x: Record)
    ensures (QueryOf(p).agent != [] ==> x.agent == Some(QueryOf(p).agent)) <==> Asked(p, x)
  {
  }

  lemma CursorPageAnswers(h: seq<Record>, p: Option<Payload>, after: nat)
    requires Numbered(h) && HasCursor(p) && SeqValue(p.value["after_seq"]) == Some(after)
    ensures Answers(h, p, Page(Retained(h), QueryOf(p).agent, after, Size(p)))
  {
    var agent := QueryOf(p).agent;
    var all, page := Newer(Retained(h), agent, after), Page(Retained(h), agent, after, Size(p));
    RetainedRises(h);
    NewerRises(Retained(h), agent, after);
    forall x ensures x in all <==> Wanted(h, p, x) {
      NewerSelects(Retained(h), agent, after, x);
      RetainedAreTheNewest(h, x);
      AgentAsked(p, x);
    }
    assert forall x :: x in page ==> x in all;
    forall x | Wanted(h, p, x) && x !in page
      ensures |page| == Size(p) && forall y :: y in page ==> y.seqNo < x.seqNo
    {
      OldestFirst(all, Size(p), x);
    }
  }

  lemma NewestPageAnswers(h: seq<Record>, p: Option<Payload>)
    requires Numbered(h) && !HasCursor(p)
    ensures Answers(h, p, Newest(ByAgent(Retained(h), QueryOf(p).agent), Size(p)))
  {
    var all := ByAgent(Retained(h), QueryOf(p).agent);
    var page := Newest(all, Size(p));
    RetainedRises(h);
    ByAgentRises(Retained(h), QueryOf(p).agent);
    forall x ensures x in all <==> Wanted(h, p, x) {
      ByAgentSelects(Retained(h), QueryOf(p).agent, x);
      RetainedAreTheNewest(h, x);
      AgentAsked(p, x);
    }
    assert forall x :: x in page ==> x in all;
    forall x | Wanted(h, p, x) && x !in page
      ensures |page| == Size(p) && forall y :: y in page ==> x.seqNo < y.seqNo
    {
      NewestLast(all, Size(p), x);
    }
  }

  /** The answer to a request on the log of a history. */
  function RecentPage(h: seq<Record>, p: Option<Payload>): seq<Record> {
    var q := QueryOf(p);
    match q.after
    case Bad => []
    case From(s) => Page(Retained(h), q.agent, s, q.limit)
    case Absent => Newest(ByAgent(Retained(h), q.agent), q.limit)
  }

  lemma RecentPageAnswers(h: seq<Record>, p: Option<Payload>)
    requires Numbered(h)
    ensures Answers(h, p, RecentPage(h, p))
  {
    if !HasCursor(p) {
      NewestPageAnswers(h, p);
    } else if SeqValue(p.value["after_seq"]).Some? {
      CursorPageAnswers(h, p, SeqValue(p.value["after_seq"]).value);
    }
  }

  /** The log of the history so far. */
  class Log {
    var records: seq<Record>
    var lastSeq: nat
    ghost var history: seq<Record>

    /** The log holds the newest records of the history, Kept of them, numbered
        consecutively up to `lastSeq`, and only sanitised ones. */
    ghost predicate Valid()
      reads this
    {
      && lastSeq == |history| && Numbered(history) && records == Retained(history)
      && Sanitised(history)
    }

    constructor ()
      ensures Valid() && history == []
    {
      records, lastSeq, history := [], 0, [];
    }

    /** Numbers the record, appends it, and trims a log that has grown too long. */
    method Append(rec: Record)
      requires Valid() && Clean(rec)
      modifies this
      ensures Valid() && history == old(history) + [rec.(seqNo := |old(history)| + 1)]
    {
      RetainedStep(history, rec.(seqNo := |history| + 1));
      HistoryStep(history, rec.(seqNo := |history| + 1));
      lastSeq := lastSeq + 1;
      records := records + [rec.(seqNo := lastSeq)];
      if |records| > MAX_RECORDS {
        records := records[|records| - TRIM_TO..];
      }
      history := history + [rec.(seqNo := lastSeq)];
    }

    /** Accepts a record only from the network boundary and only as an object. */
    method HandleRecord(source: string, payload: Option<Payload>, parsed: Option<Stamp>, now: Stamp)
      requires Valid()
      modifies this
      ensures Valid() && old(history) <= history
      ensures |history| == |old(history)| + if source == "network-boundary" && payload.Some? then 1 else 0
      ensures |history| > |old(history)| ==> SanitizedFrom(payload.value, parsed, now, history[|history| - 1])
    {
      if source != "network-boundary" || payload.None? { return; }
      var rec := SanitizeRecord(payload.value, parsed, now);
      Append(rec);
    }

    method SelectAgent(rs: seq<Record>, agent: Text) returns (matched: seq<Record>)
      ensures matched == ByAgent(rs, agent)
    {
      matched := [];
      for i := 0 to |rs|
        invariant matched == ByAgent(rs[..i], agent)
      {
        assert rs[..i + 1][..i] == rs[..i];
        if agent == [] || rs[i].agent == Some(agent) { matched := matched + [rs[i]]; }
      }
      assert rs[..|rs|] == rs;
    }

    method SelectNewer(rs: seq<Record>, after: nat) returns (newer: seq<Record>)
      ensures newer == Newer(rs, [], after)
    {
      newer := [];
      for i := 0 to |rs|
        invariant newer == Newer(rs[..i], [], after)
      {
        assert rs[..i + 1][..i] == rs[..i];
        if rs[i].seqNo > after { newer := newer + [rs[i]]; }
      }
      assert rs[..|rs|] == rs;
    }

    /** With `after_seq` the oldest `limit` newer records, without it the newest
        `limit`, of the chosen agent; and the highest number ever given out. */
    method HandleRecent(payload: Option<Payload>) returns (page: seq<Record>, last: nat)
      requires Valid()
      ensures last == |history|
      ensures page == RecentPage(history, payload) && Answers(history, payload, page)
    {
      var q := QueryOf(payload);
      RecentPageAnswers(history, payload);
      last := lastSeq;
      var matched := SelectAgent(records, q.agent);
      match q.after
      case Bad => page := [];
      case From(s) =>
        NewerOfAgent(records, q.agent, s);
        page := SelectNewer(matched, s);
        if |page| > q.limit { page := page[..q.limit]; }
      case Absent =>
        var start := if |matched| > q.limit then |matched| - q.limit else 0;
        page := matched[start..];
    }
  }
}
