/** The Store's expiry sweeps over grants, background work and timers. */
module Expiry {
  import opened Calendar

  type Id = string

  /** An entry with a textual `expires` field, or any other (no map, no such field,
      or not a string). `body` stands for the rest of it. */
  datatype Entry = Expiring(expires: string, body: nat) | Lasting(body: nat)

  predicate Due(e: Entry, now: string) {
    e.Expiring? && Less(e.expires, now)
  }

  function Survivors(m: map<Id, Entry>, now: string): map<Id, Entry> {
    map id | id in m && !Due(m[id], now) :: m[id]
  }

  function Reported(m: map<Id, Entry>, now: string): set<Id> {
    set id | id in m && Due(m[id], now)
  }

  class Table {
    var entries: map<Id, Entry>

    /** One sweep: the due entries are deleted while the map is walked, in whatever
        order, and reported once each; all others are untouched. */
    method Reconcile(now: string) returns (expired: seq<Id>)
      modifies this
      ensures entries == Survivors(old(entries), now)
      ensures forall id :: id in expired <==> id in Reported(old(entries), now)
      ensures forall i, j :: 0 <= i < j < |expired| ==> expired[i] != expired[j]
    {
      ghost var m := entries;
      expired := [];
      var todo := entries.Keys;
      while todo != {}
        invariant forall id :: id in entries <==> id in m && (id in todo || !Due(m[id], now))
        invariant forall id :: id in entries ==> entries[id] == m[id]
        invariant forall id :: id in expired <==> id in Reported(m, now) && id !in todo
        invariant forall i, j :: 0 <= i < j < |expired| ==> expired[i] != expired[j]
        invariant todo <= m.Keys
        decreases todo
      {
        var id :| id in todo;
        assert id !in expired;
        if entries[id].Expiring? && Less(entries[id].expires, now) {
          expired := expired + [id];
          entries := entries - {id};
        }
        todo := todo - {id};
      }
    }
  }

  /** For any texts at all: a sweep reports exactly the entries whose `expires` is a proper
      prefix of its own time, or is smaller where the two first differ; entries without
      such a text it never reports. What it does not report stays as it is. */
  lemma ReportedByText(m: map<Id, Entry>, id: Id, now: string)
    ensures id in Reported(m, now) <==> id in m && m[id].Expiring? && Before(m[id].expires, now)
    ensures id in Survivors(m, now) <==> id in m && id !in Reported(m, now)
    ensures id in Survivors(m, now) ==> Survivors(m, now)[id] == m[id]
  {
    if id in m && m[id].Expiring? { LessIsBefore(m[id].expires, now); }
  }

  /** A second sweep at the same time finds nothing. */
  lemma SweepIsIdempotent(m: map<Id, Entry>, now: string)
    ensures Reported(Survivors(m, now), now) == {} && Survivors(Survivors(m, now), now) == Survivors(m, now)
  {
  }

  // ----------------------------------------------------------------------- runs

  /** What happens to a table: grants and schedules, cancellations, sweeps. */
  datatype Event = Put(id: Id, entry: Entry) | Remove(id: Id) | Sweep(now: string)

  function After(m: map<Id, Entry>, e: Event): map<Id, Entry> {
    match e
    case Put(id, entry) => m[id := entry]
    case Remove(id) => m - {id}
    case Sweep(now) => Survivors(m, now)
  }

  /** How often the sweeps of a run report `id`. */
  function Reports(m: map<Id, Entry>, es: seq<Event>, id: Id): nat
    decreases |es|
  {
    if es == [] then 0
    else (if es[0].Sweep? && id in Reported(m, es[0].now) then 1 else 0) + Reports(After(m, es[0]), es[1..], id)
  }

  /** Over any run in which `id` is not put again, it is reported at most once, and
      never if it was not there to begin with. */
  lemma {:induction false} ReportedAtMostOnce(m: map<Id, Entry>, es: seq<Event>, id: Id)
    requires forall k :: 0 <= k < |es| && es[k].Put? ==> es[k].id != id
    ensures Reports(m, es, id) <= if id in m then 1 else 0
    decreases |es|
  {
    if es != [] { ReportedAtMostOnce(After(m, es[0]), es[1..], id); }
  }

  // ----------------------------------------------------- text order as time order

  /** The instant of a wall clock `offset` minutes ahead of UTC. */
  function Instant(c: Civil, offset: int): int {
    Seconds(c) - 60 * offset
  }

  /** For expiries written in UTC, a sweep reports exactly the entries whose time lies
      strictly before the sweep's own. */
  lemma UtcSweepIsExact(m: map<Id, Entry>, id: Id, c: Civil, now: Civil)
    requires Good(c) && Good(now) && id in m && m[id].Expiring? && m[id].expires == Format(c, 0)
    ensures id in Reported(m, Format(now, 0)) <==> Instant(c, 0) < Seconds(now)
    ensures id in Survivors(m, Format(now, 0)) <==> Instant(c, 0) >= Seconds(now)
  {
    TextOrder(c, 0, now, 0);
    FieldOrderIsTimeOrder(c, now);
    assert !Less("Z", "Z");
  }

  /** The first second of year 0, before which RFC 3339 can write nothing. */
  predicate First(c: Civil) {
    c.year == 0 && c.month == 1 && c.day == 1 && c.hour == 0 && c.minute == 0 && c.second == 0
  }

  /** One second earlier. */
  function Back(c: Civil): Civil
    requires Good(c) && !First(c)
  {
    if c.second > 0 then c.(second := c.second - 1)
    else if c.minute > 0 then c.(minute := c.minute - 1, second := 59)
    else if c.hour > 0 then c.(hour := c.hour - 1, minute := 59, second := 59)
    else if c.day > 1 then Civil(c.year, c.month, c.day - 1, 23, 59, 59)
    else if c.month > 1 then Civil(c.year, c.month - 1, DaysIn(c.year, c.month - 1), 23, 59, 59)
    else Civil(c.year - 1, 12, 31, 23, 59, 59)
  }

  lemma BackIsOneSecond(c: Civil)
    requires Good(c) && !First(c)
    ensures Good(Back(c)) && Seconds(Back(c)) == Seconds(c) - 1
  {
    if c.second == 0 && c.minute == 0 && c.hour == 0 && c.day == 1 && c.month == 1 {
      assert DaysBefore(c.year - 1, 13) == DaysBefore(c.year - 1, 12) + 31;
    }
  }

  lemma ZonesSortBeforeZ(offset: int)
    requires -1440 < offset < 1440
    ensures Less(Zone(offset), "Z") <==> offset != 0
  {
  }

  /** The entry `id` expires at `c`, written `offset` minutes ahead of UTC. */
  predicate Expires(m: map<Id, Entry>, id: Id, c: Civil, offset: int) {
    Good(c) && -1440 < offset < 1440 && id in m && m[id].Expiring? && m[id].expires == Format(c, offset)
  }

  /** A sweep reads the fields, and at equal fields takes any offset for the past. */
  lemma ReportedByFields(m: map<Id, Entry>, id: Id, c: Civil, offset: int, now: Civil)
    requires Expires(m, id, c, offset) && Good(now)
    ensures id in Reported(m, Format(now, 0)) <==> Earlier(c, now) || (c == now && offset != 0)
  {
    TextOrder(c, offset, now, 0);
    ZonesSortBeforeZ(offset);
  }

  /** The sweep reports the entry exactly if its time has passed. */
  predicate Right(m: map<Id, Entry>, id: Id, c: Civil, offset: int, now: Civil)
    requires Good(now)
  {
    id in Reported(m, Format(now, 0)) <==> Instant(c, offset) < Seconds(now)
  }

  lemma RightInUtc(m: map<Id, Entry>, id: Id, c: Civil, now: Civil)
    requires Expires(m, id, c, 0) && Good(now)
    ensures Right(m, id, c, 0, now)
  {
    ReportedByFields(m, id, c, 0, now);
    FieldOrderIsTimeOrder(c, now);
  }

  lemma WrongBehindUtc(m: map<Id, Entry>, id: Id, c: Civil, offset: int)
    requires Expires(m, id, c, offset) && offset < 0
    ensures !Right(m, id, c, offset, c)
  {
    ReportedByFields(m, id, c, offset, c);
  }

  lemma WrongAheadOfUtc(m: map<Id, Entry>, id: Id, c: Civil, offset: int)
    requires Expires(m, id, c, offset) && offset > 0 && !First(c)
    ensures Good(Back(c)) && !Right(m, id, c, offset, Back(c))
  {
    BackIsOneSecond(c);
    ReportedByFields(m, id, c, offset, Back(c));
    FieldOrderIsTimeOrder(c, Back(c));
  }

  lemma FirstIsAlwaysDue(m: map<Id, Entry>, id: Id, c: Civil, offset: int, now: Civil)
    requires Expires(m, id, c, offset) && First(c) && offset > 0 && Good(now)
    ensures Right(m, id, c, offset, now)
  {
    ReportedByFields(m, id, c, offset, now);
    FieldOrderIsTimeOrder(now, c);
  }

  /** Sweeping by text order is sweeping by time, at every moment, exactly for expiries
      written with a zero offset; only an expiry at the first second of year 0, due at
      any moment, is also handled right when written ahead of UTC. */
  lemma SweepIsRightExactlyInUtc(m: map<Id, Entry>, id: Id, c: Civil, offset: int)
    requires Expires(m, id, c, offset)
    ensures (forall now :: Good(now) ==> Right(m, id, c, offset, now)) <==> offset == 0 || (offset > 0 && First(c))
  {
    if offset == 0 {
      forall now | Good(now) ensures Right(m, id, c, offset, now) { RightInUtc(m, id, c, now); }
    } else if offset < 0 {
      WrongBehindUtc(m, id, c, offset);
    } else if First(c) {
      forall now | Good(now) ensures Right(m, id, c, offset, now) { FirstIsAlwaysDue(m, id, c, offset, now); }
    } else {
      WrongAheadOfUtc(m, id, c, offset);
    }
  }
}
