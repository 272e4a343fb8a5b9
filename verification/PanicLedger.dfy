/** What the Store's panic deduper must remember, as a function of the sightings
    alone: the recency list, the counts, the evictions and the full-stack rate. */
module PanicLedger {
  import opened Common

  type Hash = string
  type Time = int

  datatype Sighting = Sighting(hash: Hash, at: Time)

  datatype Row = Row(hash: Hash, count: nat, firstSeen: Time, lastSeen: Time, lastFull: Time)

  /** `lost` is the sum of the counts of the rows evicted so far. */
  datatype Ledger = Ledger(rows: seq<Row>, total: nat, evicted: nat, lost: nat)

  /** How many signatures are kept, and how often one may log its full stack. */
  datatype Limits = Limits(max: Positive, interval: int)

  type Positive = n: int | n >= 1 witness 1

  const BLANK := Ledger([], 0, 0, 0)

  function IndexOf(rows: seq<Row>, hash: Hash): (i: nat)
    ensures i <= |rows| && (i < |rows| ==> rows[i].hash == hash)
    ensures forall j :: 0 <= j < i ==> rows[j].hash != hash
  {
    if rows == [] || rows[0].hash == hash then 0 else 1 + IndexOf(rows[1..], hash)
  }

  /** A full stack is due: a new signature, or the last full one is old enough. */
  predicate Due(rows: seq<Row>, lim: Limits, s: Sighting) {
    var i := IndexOf(rows, s.hash);
    i == |rows| || s.at - rows[i].lastFull >= lim.interval
  }

  function Seen(row: Row, lim: Limits, at: Time): Row {
    row.(count := row.count + 1, lastSeen := at,
         lastFull := if at - row.lastFull >= lim.interval then at else row.lastFull)
  }

  /** The rows after one more sighting: its row moves to the front, or a new one is
      put there and the last one falls off a full list. */
  function RowsAfter(rows: seq<Row>, lim: Limits, s: Sighting): (r: seq<Row>)
    ensures |r| > 0 && r[0].hash == s.hash
  {
    var i := IndexOf(rows, s.hash);
    if i < |rows| then ToFront(rows[i := Seen(rows[i], lim, s.at)], i)
    else Take([Row(s.hash, 1, s.at, s.at, s.at)] + rows, lim.max)
  }

  function ToFront<T>(s: seq<T>, k: nat): (r: seq<T>)
    requires k < |s|
    ensures |r| == |s| && r[0] == s[k]
    ensures forall i :: 0 < i < |r| ==> r[i] == if i <= k then s[i - 1] else s[i]
  {
    [s[k]] + s[..k] + s[k + 1..]
  }

  predicate Evicts(rows: seq<Row>, lim: Limits, s: Sighting) {
    IndexOf(rows, s.hash) == |rows| >= lim.max
  }

  function Observe(l: Ledger, lim: Limits, s: Sighting): Ledger {
    var evicts := Evicts(l.rows, lim, s);
    Ledger(RowsAfter(l.rows, lim, s),
           l.total + 1,
           l.evicted + if evicts then 1 else 0,
           l.lost + if evicts then l.rows[|l.rows| - 1].count else 0)
  }

  function Run(h: seq<Sighting>, lim: Limits): Ledger
    decreases |h|
  {
    if h == [] then BLANK else Observe(Run(h[..|h| - 1], lim), lim, h[|h| - 1])
  }

  lemma {:induction false} RunSnoc(h: seq<Sighting>, lim: Limits, s: Sighting)
    ensures var l, l' := Run(h, lim), Run(h + [s], lim);
            && l'.rows == RowsAfter(l.rows, lim, s)
            && l'.evicted == l.evicted + if Evicts(l.rows, lim, s) then 1 else 0
  {
    assert (h + [s])[..|h|] == h;
  }

  // -------------------------------------------------------------- recency list

  function Without<T(==)>(s: seq<T>, x: T): (r: seq<T>)
    ensures forall y :: y in r ==> y in s && y != x
    ensures forall y :: y in s && y != x ==> y in r
  {
    if s == [] then [] else if s[0] == x then Without(s[1..], x) else [s[0]] + Without(s[1..], x)
  }

  /** The distinct hashes of a history, most recently seen first. */
  function Recency(h: seq<Sighting>): seq<Hash>
    decreases |h|
  {
    if h == [] then [] else [h[|h| - 1].hash] + Without(Recency(h[..|h| - 1]), h[|h| - 1].hash)
  }

  function Hashes(rows: seq<Row>): (r: seq<Hash>)
    ensures |r| == |rows| && forall i :: 0 <= i < |r| ==> r[i] == rows[i].hash
  {
    seq(|rows|, i requires 0 <= i < |rows| => rows[i].hash)
  }

  predicate Tracked(h: seq<Sighting>, lim: Limits, x: Hash) {
    x in Take(Recency(h), lim.max)
  }

  lemma {:induction false} WithoutIsSplice<T>(s: seq<T>, k: nat)
    requires k < |s| && NoDup(s)
    ensures Without(s, s[k]) == s[..k] + s[k + 1..]
  {
    if k == 0 {
      WithoutNothing(s[1..], s[0]);
    } else {
      WithoutIsSplice(s[1..], k - 1);
      assert s[..k] + s[k + 1..] == [s[0]] + (s[1..][..k - 1] + s[1..][k..]);
    }
  }

  lemma {:induction false} WithoutNothing<T>(s: seq<T>, x: T)
    requires x !in s
    ensures Without(s, x) == s
  {
    if s != [] { WithoutNothing(s[1..], x); }
  }

  /** The position of the last sighting of `x`, or -1. */
  function LastAt(h: seq<Sighting>, x: Hash): (i: int)
    ensures -1 <= i < |h| && (i >= 0 ==> h[i].hash == x)
    decreases |h|
  {
    if h == [] then -1 else if h[|h| - 1].hash == x then |h| - 1 else LastAt(h[..|h| - 1], x)
  }

  /** Ordered by last sighting, latest first. */
  ghost predicate LatestFirst(h: seq<Sighting>, s: seq<Hash>) {
    forall i, j :: 0 <= i < j < |s| ==> LastAt(h, s[i]) > LastAt(h, s[j])
  }

  lemma {:induction false} WithoutKeepsOrder(h: seq<Sighting>, s: seq<Hash>, x: Hash)
    requires LatestFirst(h, s)
    ensures LatestFirst(h, Without(s, x))
  {
    if x in s {
      var k :| 0 <= k < |s| && s[k] == x;
      WithoutIsSplice(s, k);
    } else {
      WithoutNothing(s, x);
    }
  }

  lemma LastAtOthers(h: seq<Sighting>, y: Hash)
    requires h != [] && h[|h| - 1].hash != y
    ensures LastAt(h, y) == LastAt(h[..|h| - 1], y)
  {
  }

  lemma {:induction false} PrependLatest(h: seq<Sighting>, rest: seq<Hash>)
    requires h != [] && LatestFirst(h[..|h| - 1], rest) && h[|h| - 1].hash !in rest
    ensures LatestFirst(h, [h[|h| - 1].hash] + rest)
  {
    var s := [h[|h| - 1].hash] + rest;
    forall i, j | 0 <= i < j < |s| ensures LastAt(h, s[i]) > LastAt(h, s[j]) {
      assert s[j] in rest;
      LastAtOthers(h, s[j]);
      if i > 0 {
        assert s[i] in rest;
        LastAtOthers(h, s[i]);
      }
    }
  }

  lemma {:induction false} RecencyHasAll(h: seq<Sighting>, x: Hash)
    ensures x in Recency(h) <==> LastAt(h, x) >= 0
    decreases |h|
  {
    if h != [] { RecencyHasAll(h[..|h| - 1], x); }
  }

  /** Recency(h) is the list its name promises: every hash of the history, once, in
      the order of last sightings, the latest first. */
  lemma {:induction false} RecencyIsRecency(h: seq<Sighting>)
    ensures LatestFirst(h, Recency(h)) && NoDup(Recency(h))
    ensures forall x :: x in Recency(h) <==> LastAt(h, x) >= 0
    decreases |h|
  {
    forall x ensures x in Recency(h) <==> LastAt(h, x) >= 0 { RecencyHasAll(h, x); }
    if h != [] {
      var front, x := h[..|h| - 1], h[|h| - 1].hash;
      RecencyIsRecency(front);
      WithoutKeepsOrder(front, Recency(front), x);
      PrependLatest(h, Without(Recency(front), x));
    }
    LatestFirstOnce(h, Recency(h));
  }

  lemma LatestFirstOnce(h: seq<Sighting>, s: seq<Hash>)
    requires LatestFirst(h, s)
    ensures NoDup(s)
  {
  }

  // ------------------------------------------ the ledger follows the history

  lemma {:induction false} TakeAfterHit(full: seq<Hash>, max: Positive, k: nat)
    requires NoDup(full) && k < |Take(full, max)|
    ensures Take([full[k]] + Without(full, full[k]), max) == ToFront(Take(full, max), k)
  {
    WithoutIsSplice(full, k);
  }

  lemma {:induction false} WithoutBeyond(s: seq<Hash>, x: Hash, n: nat)
    requires n <= |s| && x !in s[..n]
    ensures n <= |Without(s, x)| && Without(s, x)[..n] == s[..n]
  {
    if n > 0 {
      assert s[1..][..n - 1] == s[..n][1..];
      assert s[0] == s[..n][0];
      WithoutBeyond(s[1..], x, n - 1);
    }
  }

  lemma {:induction false} TakeAfterMiss(full: seq<Hash>, max: Positive, x: Hash)
    requires x !in Take(full, max)
    ensures Take([x] + Without(full, x), max) == Take([x] + Take(full, max), max)
  {
    if |full| < max {
      WithoutNothing(full, x);
    } else {
      assert full[..max] == Take(full, max);
      assert x !in full[..max - 1] by { assert full[..max - 1] <= full[..max]; }
      WithoutBeyond(full, x, max - 1);
    }
  }

  lemma HashesCommute(rows: seq<Row>, row: Row, k: nat)
    requires k < |rows| && row.hash == rows[k].hash
    ensures Hashes(ToFront(rows[k := row], k)) == ToFront(Hashes(rows), k)
  {
  }

  lemma HashesOfTake(rows: seq<Row>, n: nat)
    ensures Hashes(Take(rows, n)) == Take(Hashes(rows), n)
  {
  }

  lemma {:induction false} HashesOfPush(rows: seq<Row>, row: Row, n: nat)
    ensures Hashes(Take([row] + rows, n)) == Take([row.hash] + Hashes(rows), n)
  {
    assert Hashes([row] + rows) == [row.hash] + Hashes(rows);
    HashesOfTake([row] + rows, n);
  }

  lemma {:induction false} ObserveMovesToFront(l: Ledger, lim: Limits, s: Sighting, full: seq<Hash>)
    requires Hashes(l.rows) == Take(full, lim.max) && NoDup(full)
    ensures Hashes(Observe(l, lim, s).rows) == Take([s.hash] + Without(full, s.hash), lim.max)
  {
    var i := IndexOf(l.rows, s.hash);
    if i < |l.rows| {
      assert Hashes(l.rows)[i] == s.hash == full[i];
      TakeAfterHit(full, lim.max, i);
      HashesCommute(l.rows, Seen(l.rows[i], lim, s.at), i);
    } else {
      TakeAfterMiss(full, lim.max, s.hash);
      HashesOfPush(l.rows, Row(s.hash, 1, s.at, s.at, s.at), lim.max);
    }
  }

  /** The rows are the `max` most recently seen distinct hashes, most recent first. */
  lemma {:induction false} RowsAreTheMostRecent(h: seq<Sighting>, lim: Limits)
    ensures Hashes(Run(h, lim).rows) == Take(Recency(h), lim.max)
    decreases |h|
  {
    if h != [] {
      var front := h[..|h| - 1];
      RowsAreTheMostRecent(front, lim);
      RecencyIsRecency(front);
      ObserveMovesToFront(Run(front, lim), lim, h[|h| - 1], Recency(front));
    }
  }

  // ---------------------------------------------------------------- accounting

  function SumCounts(rows: seq<Row>): nat {
    if rows == [] then 0 else rows[0].count + SumCounts(rows[1..])
  }

  lemma {:induction false} SumSplit(a: seq<Row>, b: seq<Row>)
    ensures SumCounts(a + b) == SumCounts(a) + SumCounts(b)
  {
    if a == [] {
      assert a + b == b;
    } else {
      assert (a + b)[1..] == a[1..] + b;
      SumSplit(a[1..], b);
    }
  }

  /** How many sightings found their hash untracked. */
  function Insertions(h: seq<Sighting>, lim: Limits): nat
    decreases |h|
  {
    if h == [] then 0
    else
      var front, x := h[..|h| - 1], h[|h| - 1].hash;
      Insertions(front, lim) + if Tracked(front, lim, x) then 0 else 1
  }

  lemma {:induction false} SumToFront(rows: seq<Row>, row: Row, k: nat)
    requires k < |rows| && row.count == rows[k].count + 1
    ensures SumCounts(ToFront(rows[k := row], k)) == SumCounts(rows) + 1
  {
    assert rows == rows[..k] + [rows[k]] + rows[k + 1..];
    SumSplit(rows[..k] + [rows[k]], rows[k + 1..]);
    SumSplit(rows[..k], [rows[k]]);
    assert ToFront(rows[k := row], k) == [row] + rows[..k] + rows[k + 1..];
    SumSplit([row] + rows[..k], rows[k + 1..]);
    SumSplit([row], rows[..k]);
  }

  lemma {:induction false} SumCons(rows: seq<Row>, row: Row)
    ensures SumCounts([row] + rows) == row.count + SumCounts(rows)
  {
  }

  lemma {:induction false} SumDropLast(rows: seq<Row>)
    requires rows != []
    ensures SumCounts(rows[..|rows| - 1]) == SumCounts(rows) - rows[|rows| - 1].count
  {
    var n := |rows| - 1;
    assert rows == rows[..n] + [rows[n]];
    SumSplit(rows[..n], [rows[n]]);
  }

  lemma {:induction false} SumPush(rows: seq<Row>, row: Row, max: Positive)
    requires |rows| <= max
    ensures SumCounts(Take([row] + rows, max)) ==
            row.count + SumCounts(rows) - if |rows| < max then 0 else rows[|rows| - 1].count
  {
    if |rows| < max {
      SumCons(rows, row);
      assert Take([row] + rows, max) == [row] + rows;
    } else {
      SumDropLast(rows);
      SumCons(rows[..max - 1], row);
      assert Take([row] + rows, max) == [row] + rows[..max - 1];
    }
  }

  lemma {:induction false} ObserveBalances(l: Ledger, lim: Limits, s: Sighting)
    requires |l.rows| <= lim.max
    ensures var l' := Observe(l, lim, s);
            SumCounts(l'.rows) + l'.lost == SumCounts(l.rows) + l.lost + 1
  {
    var i := IndexOf(l.rows, s.hash);
    if i < |l.rows| {
      SumToFront(l.rows, Seen(l.rows[i], lim, s.at), i);
    } else {
      SumPush(l.rows, Row(s.hash, 1, s.at, s.at, s.at), lim.max);
    }
  }

  /** Every sighting is in exactly one place: the total is the tracked counts plus
      the counts lost with evicted rows, and every insertion is either still tracked
      or was evicted. */
  lemma {:induction false} NothingIsLostSilently(h: seq<Sighting>, lim: Limits)
    ensures var l := Run(h, lim);
            && l.total == |h| == SumCounts(l.rows) + l.lost
            && Insertions(h, lim) == |l.rows| + l.evicted
    decreases |h|
  {
    if h != [] {
      var front, s := h[..|h| - 1], h[|h| - 1];
      NothingIsLostSilently(front, lim);
      TrackedIsARow(front, lim, s.hash);
      ObserveBalances(Run(front, lim), lim, s);
    }
  }

  lemma {:induction false} TrackedIsARow(h: seq<Sighting>, lim: Limits, x: Hash)
    ensures Tracked(h, lim, x) <==> IndexOf(Run(h, lim).rows, x) < |Run(h, lim).rows|
    ensures |Run(h, lim).rows| <= lim.max
  {
    RowsAreTheMostRecent(h, lim);
    var rows := Run(h, lim).rows;
    var i := IndexOf(rows, x);
    if i < |rows| { assert Hashes(rows)[i] == x; }
  }

  lemma RowsFit(h: seq<Sighting>, lim: Limits)
    ensures |Run(h, lim).rows| <= lim.max
  {
    RowsAreTheMostRecent(h, lim);
  }

  function Occurrences(h: seq<Sighting>, x: Hash): nat
    decreases |h|
  {
    if h == [] then 0 else Occurrences(h[..|h| - 1], x) + if h[|h| - 1].hash == x then 1 else 0
  }

  /** After each of the sightings i + 1 .. j, `x` was tracked. */
  ghost predicate TrackedSince(h: seq<Sighting>, lim: Limits, x: Hash, i: nat, j: nat)
    requires j <= |h|
  {
    j <= i || (Tracked(h[..j], lim, x) && TrackedSince(h, lim, x, i, j - 1))
  }

  /** The sighting at `k` inserted `x`, which has stayed tracked ever since. */
  ghost predicate InsertedAt(h: seq<Sighting>, lim: Limits, x: Hash, k: nat) {
    k < |h| && h[k].hash == x && !Tracked(h[..k], lim, x) && TrackedSince(h, lim, x, k, |h|)
  }

  function RowOf(h: seq<Sighting>, lim: Limits, x: Hash): (row: Row)
    requires Tracked(h, lim, x)
    ensures row.hash == x
  {
    TrackedIsARow(h, lim, x);
    Run(h, lim).rows[IndexOf(Run(h, lim).rows, x)]
  }

  lemma {:induction false} ObserveRow(l: Ledger, lim: Limits, s: Sighting, x: Hash)
    requires NoDup(Hashes(l.rows))
    requires IndexOf(Observe(l, lim, s).rows, x) < |Observe(l, lim, s).rows| && x != s.hash
    ensures IndexOf(l.rows, x) < |l.rows|
    ensures Observe(l, lim, s).rows[IndexOf(Observe(l, lim, s).rows, x)] == l.rows[IndexOf(l.rows, x)]
  {
    var rows' := Observe(l, lim, s).rows;
    var i, j := IndexOf(l.rows, s.hash), IndexOf(rows', x);
    assert j > 0;
    if i < |l.rows| && j > i {
      IndexUnique(l.rows, x, j);
    } else {
      IndexUnique(l.rows, x, j - 1);
    }
  }

  lemma {:induction false} IndexUnique(rows: seq<Row>, x: Hash, k: nat)
    requires NoDup(Hashes(rows)) && k < |rows| && rows[k].hash == x
    ensures IndexOf(rows, x) == k
  {
  }

  /** One more sighting leaves the row of any other hash that stays tracked alone,
      and is recorded in the row of its own hash. */
  lemma {:induction false} RowAfter(h: seq<Sighting>, lim: Limits, x: Hash)
    requires h != [] && Tracked(h, lim, x)
    ensures var front, s := h[..|h| - 1], h[|h| - 1];
            if s.hash != x then Tracked(front, lim, x) && RowOf(h, lim, x) == RowOf(front, lim, x)
            else if Tracked(front, lim, x) then RowOf(h, lim, x) == Seen(RowOf(front, lim, x), lim, s.at)
            else RowOf(h, lim, x) == Row(x, 1, s.at, s.at, s.at)
  {
    var front, s := h[..|h| - 1], h[|h| - 1];
    TrackedIsARow(h, lim, x);
    TrackedIsARow(front, lim, x);
    if s.hash != x {
      RowsAreTheMostRecent(front, lim);
      RecencyIsRecency(front);
      ObserveRow(Run(front, lim), lim, s, x);
    } else {
      assert Run(h, lim).rows[0].hash == x;
    }
  }

  lemma {:induction false} OccurrencesSnoc(h: seq<Sighting>, k: nat, x: Hash)
    requires k < |h|
    ensures Occurrences(h[k..], x) == Occurrences(h[..|h| - 1][k..], x) + if h[|h| - 1].hash == x then 1 else 0
  {
    assert h[k..][..|h| - k - 1] == h[..|h| - 1][k..];
  }

  lemma {:induction false} InsertedAtSnoc(h: seq<Sighting>, lim: Limits, x: Hash, k: nat)
    requires h != [] && Tracked(h, lim, x) && InsertedAt(h[..|h| - 1], lim, x, k)
    ensures InsertedAt(h, lim, x, k)
  {
    assert h[..|h| - 1][..k] == h[..k] && h[..|h|] == h;
    TrackedSinceSnoc(h, lim, x, k, |h| - 1);
  }

  lemma {:induction false} TrackedSinceSnoc(h: seq<Sighting>, lim: Limits, x: Hash, k: nat, j: nat)
    requires j < |h| && TrackedSince(h[..|h| - 1], lim, x, k, j)
    ensures TrackedSince(h, lim, x, k, j)
    decreases j
  {
    if j > k {
      assert h[..|h| - 1][..j] == h[..j];
      TrackedSinceSnoc(h, lim, x, k, j - 1);
    }
  }

  lemma {:induction false} InsertedNow(h: seq<Sighting>, lim: Limits, x: Hash)
    requires h != [] && h[|h| - 1].hash == x && Tracked(h, lim, x) && !Tracked(h[..|h| - 1], lim, x)
    ensures InsertedAt(h, lim, x, |h| - 1) && Occurrences(h[|h| - 1..], x) == 1
  {
    assert h[..|h|] == h;
    OccurrencesSnoc(h, |h| - 1, x);
    assert h[..|h| - 1][|h| - 1..] == [];
  }

  /** A tracked count is the number of sightings since the hash was last inserted;
      the other fields are the times of that insertion and of the last sighting. */
  lemma {:induction false} CountsSinceInsertion(h: seq<Sighting>, lim: Limits, x: Hash) returns (k: nat)
    requires Tracked(h, lim, x)
    ensures InsertedAt(h, lim, x, k)
    ensures RowOf(h, lim, x).count == Occurrences(h[k..], x)
    ensures RowOf(h, lim, x).firstSeen == h[k].at
    ensures LastAt(h, x) >= k && RowOf(h, lim, x).lastSeen == h[LastAt(h, x)].at
    decreases |h|
  {
    var front := h[..|h| - 1];
    RowAfter(h, lim, x);
    if Tracked(front, lim, x) {
      k := CountsSinceInsertion(front, lim, x);
      InsertedAtSnoc(h, lim, x, k);
      OccurrencesSnoc(h, k, x);
    } else {
      k := |h| - 1;
      InsertedNow(h, lim, x);
    }
  }

  // ------------------------------------------------------ full stacks are rationed

  /** The sighting at `j` was answered with a full stack. */
  predicate FullAt(h: seq<Sighting>, lim: Limits, j: nat)
    requires j < |h|
  {
    Due(Run(h[..j], lim).rows, lim, h[j])
  }

  /** The remembered time moves exactly at full stacks of that hash. */
  lemma {:induction false} LastFullStep(h: seq<Sighting>, lim: Limits, j: nat, x: Hash)
    requires j <= |h| && Tracked(h[..j], lim, x)
    ensures j > 0
    ensures if h[j - 1].hash == x && FullAt(h, lim, j - 1) then RowOf(h[..j], lim, x).lastFull == h[j - 1].at
            else Tracked(h[..j - 1], lim, x) && RowOf(h[..j], lim, x).lastFull == RowOf(h[..j - 1], lim, x).lastFull
  {
    var p := h[..j];
    assert p[..j - 1] == h[..j - 1] && p[j - 1] == h[j - 1];
    RowAfter(p, lim, x);
    TrackedIsARow(h[..j - 1], lim, x);
  }

  /** The last of the first `j` sightings that showed `x` and was answered with a full
      stack, or -1. */
  function LastFull(h: seq<Sighting>, lim: Limits, x: Hash, j: nat): (i: int)
    requires j <= |h|
    ensures -1 <= i < j && (i >= 0 ==> h[i].hash == x)
  {
    if j == 0 then -1
    else if h[j - 1].hash == x && FullAt(h, lim, j - 1) then j - 1 else LastFull(h, lim, x, j - 1)
  }

  lemma {:induction false} LastFullIsFull(h: seq<Sighting>, lim: Limits, x: Hash, j: nat)
    requires j <= |h| && LastFull(h, lim, x, j) >= 0
    ensures FullAt(h, lim, LastFull(h, lim, x, j))
  {
    if LastFull(h, lim, x, j) < j - 1 { LastFullIsFull(h, lim, x, j - 1); }
  }

  lemma {:induction false} LastFullIsLast(h: seq<Sighting>, lim: Limits, x: Hash, j: nat, i: nat)
    requires i < j <= |h| && h[i].hash == x && FullAt(h, lim, i)
    ensures i <= LastFull(h, lim, x, j)
    decreases j
  {
    if i < j - 1 { LastFullIsLast(h, lim, x, j - 1, i); }
  }

  lemma {:induction false} LastFullOfTracked(h: seq<Sighting>, lim: Limits, x: Hash, j: nat)
    requires j <= |h| && Tracked(h[..j], lim, x)
    ensures LastFull(h, lim, x, j) >= 0 && TrackedSince(h, lim, x, LastFull(h, lim, x, j), j)
  {
    LastFullStep(h, lim, j, x);
    if LastFull(h, lim, x, j) != j - 1 { LastFullOfTracked(h, lim, x, j - 1); }
  }

  lemma {:induction false} LastFullTime(h: seq<Sighting>, lim: Limits, x: Hash, j: nat)
    requires j <= |h| && Tracked(h[..j], lim, x) && LastFull(h, lim, x, j) >= 0
    ensures RowOf(h[..j], lim, x).lastFull == h[LastFull(h, lim, x, j)].at
  {
    LastFullStep(h, lim, j, x);
    if LastFull(h, lim, x, j) != j - 1 { LastFullTime(h, lim, x, j - 1); }
  }

  /** A row remembers the time of the last full stack of its hash, which has been
      tracked since. */
  lemma LastFullIsRemembered(h: seq<Sighting>, lim: Limits, x: Hash, j: nat)
    requires j <= |h| && Tracked(h[..j], lim, x)
    ensures var i := LastFull(h, lim, x, j);
            i >= 0 && RowOf(h[..j], lim, x).lastFull == h[i].at && TrackedSince(h, lim, x, i, j)
  {
    LastFullOfTracked(h, lim, x, j);
    LastFullTime(h, lim, x, j);
  }

  lemma {:induction false} TrackedSincePrefix(h: seq<Sighting>, lim: Limits, x: Hash, i: nat, k: nat, j: nat)
    requires k <= j <= |h| && TrackedSince(h, lim, x, i, j)
    ensures TrackedSince(h, lim, x, i, k)
    decreases j
  {
    if i < k < j { TrackedSincePrefix(h, lim, x, i, k, j - 1); }
  }

  /** A full stack is logged exactly when the hash is untracked or its last full one is
      at least `interval` old. */
  lemma {:induction false} FullExactlyWhen(h: seq<Sighting>, lim: Limits, j: nat)
    requires j < |h|
    ensures var k := LastFull(h, lim, h[j].hash, j);
            FullAt(h, lim, j) <==> (Tracked(h[..j], lim, h[j].hash) ==> k >= 0 && h[j].at - h[k].at >= lim.interval)
    ensures Tracked(h[..j], lim, h[j].hash) ==> LastFull(h, lim, h[j].hash, j) >= 0
  {
    TrackedIsARow(h[..j], lim, h[j].hash);
    if Tracked(h[..j], lim, h[j].hash) { LastFullIsRemembered(h, lim, h[j].hash, j); }
  }

  /** Two full stacks for one hash that was not evicted in between are at least
      `interval` apart. */
  lemma {:induction false} FullStacksAreSpaced(h: seq<Sighting>, lim: Limits, i: nat, j: nat)
    requires lim.interval >= 0 && i < j < |h| && h[i].hash == h[j].hash && FullAt(h, lim, i) && FullAt(h, lim, j)
    requires TrackedSince(h, lim, h[i].hash, i, j)
    ensures h[j].at - h[i].at >= lim.interval
    decreases j
  {
    var x := h[i].hash;
    var k := LastFull(h, lim, x, j);
    LastFullIsLast(h, lim, x, j, i);
    FullExactlyWhen(h, lim, j);
    if i < k {
      LastFullIsFull(h, lim, x, j);
      TrackedSincePrefix(h, lim, x, i, k, j);
      FullStacksAreSpaced(h, lim, i, k);
    }
  }

  /** A stack is left out only when the same hash logged a full one less than
      `interval` ago and has been tracked since. */
  lemma {:induction false} OmittedStacksAreRecent(h: seq<Sighting>, lim: Limits, j: nat) returns (i: nat)
    requires j < |h| && !FullAt(h, lim, j)
    ensures i < j && h[i].hash == h[j].hash && FullAt(h, lim, i) && h[j].at - h[i].at < lim.interval
    ensures TrackedSince(h, lim, h[j].hash, i, j)
  {
    FullExactlyWhen(h, lim, j);
    LastFullIsRemembered(h, lim, h[j].hash, j);
    LastFullIsFull(h, lim, h[j].hash, j);
    i := LastFull(h, lim, h[j].hash, j);
  }
}
