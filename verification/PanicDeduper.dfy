/** The Store's panic deduper: a hash index and a recency list over shared, mutable
    entries. */
module PanicDeduper {
  import opened Common
  import opened PanicLedger

  class PanicSeen {
    const hash: Hash
    var count: nat
    const firstSeen: Time
    var lastSeen: Time
    var lastFull: Time

    constructor (hash: Hash, now: Time)
      ensures AsRow() == Row(hash, 1, now, now, now)
    {
      this.hash, count, firstSeen, lastSeen, lastFull := hash, 1, now, now, now;
    }

    function AsRow(): (row: Row)
      reads this
    {
      Row(hash, count, firstSeen, lastSeen, lastFull)
    }
  }

  /** The entries hold these rows, in this order. */
  ghost predicate Shows(entries: seq<PanicSeen>, rows: seq<Row>)
    reads entries
  {
    |rows| == |entries| && forall i :: 0 <= i < |rows| ==> rows[i] == entries[i].AsRow()
  }

  // ------------------------------------------------------------ sorting by count

  ghost predicate Falling(rows: seq<Row>) {
    forall i, j :: 0 <= i < j < |rows| ==> rows[i].count >= rows[j].count
  }

  /** The rows with a given count, in order. */
  function WithCount(rows: seq<Row>, n: nat): seq<Row> {
    if rows == [] then [] else (if rows[0].count == n then [rows[0]] else []) + WithCount(rows[1..], n)
  }

  /** `sorted` lists the rows by falling count, and rows with equal counts in their
      old order. */
  ghost predicate IsStableSort(sorted: seq<Row>, rows: seq<Row>) {
    Falling(sorted) && forall n: nat :: WithCount(sorted, n) == WithCount(rows, n)
  }

  function Insert(row: Row, sorted: seq<Row>): seq<Row> {
    if sorted == [] || row.count >= sorted[0].count then [row] + sorted else [sorted[0]] + Insert(row, sorted[1..])
  }

  function StableSort(rows: seq<Row>): seq<Row> {
    if rows == [] then [] else Insert(rows[0], StableSort(rows[1..]))
  }

  lemma {:induction false} InsertIsStable(row: Row, sorted: seq<Row>)
    requires Falling(sorted)
    ensures Falling(Insert(row, sorted)) && |Insert(row, sorted)| == |sorted| + 1
    ensures forall r :: r in Insert(row, sorted) ==> r == row || r in sorted
    ensures forall n: nat ::
              WithCount(Insert(row, sorted), n) == (if row.count == n then [row] else []) + WithCount(sorted, n)
  {
    if sorted != [] && row.count < sorted[0].count {
      InsertIsStable(row, sorted[1..]);
      var rest := Insert(row, sorted[1..]);
      forall j | 0 <= j < |rest| ensures sorted[0].count >= rest[j].count { assert rest[j] in rest; }
    } else {
      assert ([row] + sorted)[1..] == sorted;
    }
  }

  lemma {:induction false} StableSortIsStable(rows: seq<Row>)
    ensures IsStableSort(StableSort(rows), rows) && |StableSort(rows)| == |rows|
  {
    if rows != [] {
      StableSortIsStable(rows[1..]);
      InsertIsStable(rows[0], StableSort(rows[1..]));
    }
  }

  lemma {:induction false} CountedIffPresent(rows: seq<Row>, r: Row)
    ensures r in rows <==> r in WithCount(rows, r.count)
  {
    if rows != [] { CountedIffPresent(rows[1..], r); }
  }

  lemma HeadIsCounted(rows: seq<Row>)
    requires rows != []
    ensures |WithCount(rows, rows[0].count)| > 0 && WithCount(rows, rows[0].count)[0] == rows[0]
  {
  }

  /** There is only one stable order, so a stable library sort returns this one. */
  lemma {:induction false} StableSortIsUnique(a: seq<Row>, b: seq<Row>)
    requires Falling(a) && Falling(b) && forall n: nat :: WithCount(a, n) == WithCount(b, n)
    ensures a == b
    decreases |a|
  {
    forall r ensures r in a <==> r in b {
      CountedIffPresent(a, r);
      CountedIffPresent(b, r);
    }
    if b != [] { HeadIsCounted(b); }
    if a != [] {
      HeadIsCounted(a);
      assert a[0] in b && b[0] in a;
      assert a[0].count == b[0].count;
      forall n: nat ensures WithCount(a[1..], n) == WithCount(b[1..], n) {
        if n == a[0].count {
          assert WithCount(a[1..], n) == WithCount(a, n)[1..];
          assert WithCount(b[1..], n) == WithCount(b, n)[1..];
        } else {
          assert WithCount(a[1..], n) == WithCount(a, n) && WithCount(b[1..], n) == WithCount(b, n);
        }
      }
      StableSortIsUnique(a[1..], b[1..]);
    }
  }

  datatype Stats = Stats(total: nat, tracked: nat, evicted: nat, max: nat, byHash: seq<Row>, truncated: bool)

  // ------------------------------------------------------------ index and list

  /** The index maps exactly the hashes of the listed entries to those entries. */
  ghost predicate Indexed(lru: seq<PanicSeen>, byHash: map<Hash, PanicSeen>) {
    && (forall i :: 0 <= i < |lru| ==> lru[i].hash in byHash && byHash[lru[i].hash] == lru[i])
    && (forall x :: x in byHash ==> byHash[x] in lru && byHash[x].hash == x)
    && NoDup(lru)
  }

  lemma MoveStaysIndexed(lru: seq<PanicSeen>, byHash: map<Hash, PanicSeen>, k: nat)
    requires Indexed(lru, byHash) && k < |lru|
    ensures Indexed(ToFront(lru, k), byHash) && forall e :: e in ToFront(lru, k) ==> e in lru
  {
  }

  lemma PushStaysIndexed(lru: seq<PanicSeen>, byHash: map<Hash, PanicSeen>, e: PanicSeen)
    requires Indexed(lru, byHash) && e.hash !in byHash
    ensures Indexed([e] + lru, byHash[e.hash := e])
  {
  }

  lemma DropStaysIndexed(lru: seq<PanicSeen>, byHash: map<Hash, PanicSeen>)
    requires Indexed(lru, byHash) && lru != []
    ensures Indexed(lru[..|lru| - 1], byHash - {lru[|lru| - 1].hash})
  {
  }

  lemma EntryIsFound(lru: seq<PanicSeen>, byHash: map<Hash, PanicSeen>, rows: seq<Row>, hash: Hash)
    requires Indexed(lru, byHash) && Shows(lru, rows) && hash in byHash
    ensures IndexOf(rows, hash) < |rows| && lru[IndexOf(rows, hash)] == byHash[hash]
  {
  }

  lemma EntryIsAbsent(lru: seq<PanicSeen>, byHash: map<Hash, PanicSeen>, rows: seq<Row>, hash: Hash)
    requires Indexed(lru, byHash) && Shows(lru, rows) && hash !in byHash
    ensures IndexOf(rows, hash) == |rows|
  {
  }

  lemma ShowsToFront(lru: seq<PanicSeen>, rows: seq<Row>, k: nat)
    requires Shows(lru, rows) && k < |lru|
    ensures Shows(ToFront(lru, k), ToFront(rows, k))
  {
  }

  lemma ShowsTake(lru: seq<PanicSeen>, rows: seq<Row>, n: nat)
    requires Shows(lru, rows)
    ensures Shows(Take(lru, n), Take(rows, n))
  {
  }

  // -------------------------------------------------------------------- the class

  class Deduper {
    const limits: Limits
    var total: nat
    var evicted: nat
    var byHash: map<Hash, PanicSeen>
    var lru: seq<PanicSeen>
    ghost var history: seq<Sighting>

    /** The index finds exactly the listed entries, and list, counters and entries are
        what the history of sightings calls for. */
    ghost predicate Valid()
      reads this, lru
    {
      && Indexed(lru, byHash) && Shows(lru, Run(history, limits).rows)
      && total == |history| && evicted == Run(history, limits).evicted
    }

    constructor (max: int, interval: int)
      ensures Valid() && history == [] && limits == Limits(if max < 1 then 1 else max, interval)
    {
      limits := Limits(if max < 1 then 1 else max, interval);
      total, evicted, byHash, lru, history := 0, 0, map[], [], [];
    }

    /** Records one panic: whether its line carries the full stack, how often its
        signature was seen since it was last inserted, and the panics so far. */
    method Observe(hash: Hash, now: Time) returns (full: bool, count: nat, panics: nat)
      requires Valid()
      modifies this, lru
      ensures Valid() && history == old(history) + [Sighting(hash, now)]
      ensures forall e :: e in lru ==> e in old(lru) || fresh(e)
      ensures full == Due(Run(old(history), limits).rows, limits, Sighting(hash, now))
      ensures |Run(history, limits).rows| > 0 && Run(history, limits).rows[0].hash == hash
      ensures count == Run(history, limits).rows[0].count && panics == |history|
    {
      ghost var s, rows := Sighting(hash, now), Run(history, limits).rows;
      RowsFit(history, limits);
      RunSnoc(history, limits, s);
      full, count := Note(hash, now, rows);
      total := total + 1;
      panics := total;
      history := history + [s];
    }

    method Note(hash: Hash, now: Time, ghost rows: seq<Row>) returns (full: bool, count: nat)
      requires Indexed(lru, byHash) && Shows(lru, rows) && |rows| <= limits.max
      modifies this`evicted, this`byHash, this`lru, lru
      ensures Indexed(lru, byHash) && forall e :: e in lru ==> e in old(lru) || fresh(e)
      ensures Shows(lru, RowsAfter(rows, limits, Sighting(hash, now)))
      ensures evicted == old(evicted) + if Evicts(rows, limits, Sighting(hash, now)) then 1 else 0
      ensures full == Due(rows, limits, Sighting(hash, now))
      ensures count == RowsAfter(rows, limits, Sighting(hash, now))[0].count
    {
      if hash in byHash {
        full, count := Repeat(hash, now, rows);
      } else {
        Insert(hash, now, rows);
        full, count := true, 1;
      }
    }

    /** A tracked signature again: its entry is updated in place and moved to the front. */
    method Repeat(hash: Hash, now: Time, ghost rows: seq<Row>) returns (full: bool, count: nat)
      requires Indexed(lru, byHash) && hash in byHash && Shows(lru, rows)
      modifies this`lru, lru
      ensures Indexed(lru, byHash) && forall e :: e in lru ==> e in old(lru)
      ensures IndexOf(rows, hash) < |rows| && Shows(lru, RowsAfter(rows, limits, Sighting(hash, now)))
      ensures full == (now - rows[IndexOf(rows, hash)].lastFull >= limits.interval)
      ensures count == RowsAfter(rows, limits, Sighting(hash, now))[0].count
    {
      var e := byHash[hash];
      ghost var k := IndexOf(rows, hash);
      EntryIsFound(lru, byHash, rows, hash);
      full := Touch(e, now);
      count := e.count;
      ghost var rows' := rows[k := Seen(rows[k], limits, now)];
      assert Shows(lru, rows');
      MoveStaysIndexed(lru, byHash, k);
      ShowsToFront(lru, rows', k);
      MoveToFront(e, k);
    }

    method Touch(e: PanicSeen, now: Time) returns (full: bool)
      modifies e
      ensures e.AsRow() == Seen(old(e.AsRow()), limits, now)
      ensures full == (now - old(e.lastFull) >= limits.interval)
    {
      e.count := e.count + 1;
      e.lastSeen := now;
      full := now - e.lastFull >= limits.interval;
      if full { e.lastFull := now; }
    }

    /** container/list MoveToFront on the element at position `k`. */
    method MoveToFront(e: PanicSeen, ghost k: nat)
      requires NoDup(lru) && k < |lru| && lru[k] == e
      modifies this`lru
      ensures lru == ToFront(old(lru), k)
    {
      WithoutIsSplice(lru, k);
      lru := [e] + Without(lru, e);
    }

    /** A new signature: pushed to the front, and the list trimmed. */
    method Insert(hash: Hash, now: Time, ghost rows: seq<Row>)
      requires Indexed(lru, byHash) && hash !in byHash && Shows(lru, rows) && |rows| <= limits.max
      modifies this`lru, this`byHash, this`evicted
      ensures Indexed(lru, byHash) && forall e :: e in lru ==> e in old(lru) || fresh(e)
      ensures IndexOf(rows, hash) == |rows| && Shows(lru, RowsAfter(rows, limits, Sighting(hash, now)))
      ensures RowsAfter(rows, limits, Sighting(hash, now))[0].count == 1
      ensures evicted == old(evicted) + if Evicts(rows, limits, Sighting(hash, now)) then 1 else 0
    {
      EntryIsAbsent(lru, byHash, rows, hash);
      PushFront(hash, now, rows);
      ShowsTake(lru, [Row(hash, 1, now, now, now)] + rows, limits.max);
      Evict();
    }

    method PushFront(hash: Hash, now: Time, ghost rows: seq<Row>)
      requires Indexed(lru, byHash) && hash !in byHash && Shows(lru, rows)
      modifies this`lru, this`byHash
      ensures Indexed(lru, byHash) && forall e :: e in lru ==> e in old(lru) || fresh(e)
      ensures Shows(lru, [Row(hash, 1, now, now, now)] + rows)
    {
      var e := new PanicSeen(hash, now);
      PushStaysIndexed(lru, byHash, e);
      lru := [e] + lru;
      byHash := byHash[hash := e];
    }

    /** Drops least recently seen entries until the list fits. */
    method Evict()
      requires Indexed(lru, byHash)
      modifies this`lru, this`byHash, this`evicted
      ensures Indexed(lru, byHash) && forall e :: e in lru ==> e in old(lru)
      ensures lru == Take(old(lru), limits.max)
      ensures evicted == old(evicted) + |old(lru)| - |lru|
    {
      while |lru| > limits.max
        invariant Indexed(lru, byHash) && lru <= old(lru)
        invariant |old(lru)| <= limits.max ==> lru == old(lru)
        invariant |old(lru)| > limits.max ==> |lru| >= limits.max
        invariant evicted == old(evicted) + |old(lru)| - |lru|
      {
        EvictLast();
      }
    }

    method EvictLast()
      requires Indexed(lru, byHash) && lru != []
      modifies this`lru, this`byHash, this`evicted
      ensures Indexed(lru, byHash)
      ensures lru == old(lru)[..|old(lru)| - 1] && evicted == old(evicted) + 1
    {
      DropStaysIndexed(lru, byHash);
      var last := lru[|lru| - 1];
      lru := lru[..|lru| - 1];
      byHash := byHash - {last.hash};
      evicted := evicted + 1;
    }

    method Rows() returns (rows: seq<Row>)
      ensures Shows(lru, rows)
    {
      rows := [];
      for i := 0 to |lru|
        invariant Shows(lru[..i], rows)
      {
        rows := rows + [lru[i].AsRow()];
      }
    }

    /** The counters and the first `topN` tracked entries by falling count, ties in
        order of recency. */
    method Snapshot(topN: nat) returns (st: Stats)
      requires Valid()
      ensures st.total == |history| && st.max == limits.max
      ensures st.tracked == |Run(history, limits).rows| && st.evicted == Run(history, limits).evicted
      ensures st.byHash == Take(StableSort(Run(history, limits).rows), topN)
      ensures st.truncated <==> st.tracked > topN
    {
      NothingIsLostSilently(history, limits);
      var rows := Rows();
      assert rows == Run(history, limits).rows;
      StableSortIsStable(rows);
      rows := StableSort(rows);
      st := Stats(total, |lru|, evicted, limits.max, Take(rows, topN), |rows| > topN);
    }
  }

  /** No row left out of a snapshot has a higher count than one that is in it. */
  lemma SnapshotKeepsTheTop(sorted: seq<Row>, rows: seq<Row>, topN: nat, kept: Row, dropped: Row)
    requires IsStableSort(sorted, rows) && kept in Take(sorted, topN)
    requires dropped in rows && dropped !in Take(sorted, topN)
    ensures kept.count >= dropped.count
  {
    CountedIffPresent(rows, dropped);
    CountedIffPresent(sorted, dropped);
    var j :| 0 <= j < |sorted| && sorted[j] == dropped;
    var i :| 0 <= i < |Take(sorted, topN)| && Take(sorted, topN)[i] == kept;
    assert forall k :: 0 <= k < |Take(sorted, topN)| ==> sorted[k] in Take(sorted, topN);
  }
}
