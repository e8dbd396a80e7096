// The outbox table with its leases (repository/outbox.go) and one publisher's tick over it
// (awssqs/publisher.go).
module Outbox {
  import opened Base
  import opened Store
  import opened Backoff

  // ----- the table

  datatype Lease = Lease(owner: string, until: Instant)

  datatype Row = Row(event: Event, attempts: int, nextAttempt: Instant, lease: Option<Lease>, publishedAt: Option<Instant>)

  type Rows = map<Id, Row>

  predicate Keyed(rows: Rows) {
    forall id | id in rows :: rows[id].event.id == id
  }

  // A row as its event's unit of work inserts it.
  function NewRow(e: Event): Row {
    Row(e, 0, e.occurredAt, None, None)
  }

  predicate Claimable(r: Row, now: Instant) {
    r.publishedAt.None? && r.nextAttempt <= now && (r.lease.Some? ==> r.lease.value.until < now)
  }

  predicate Before(a: Row, b: Row) {
    a.nextAttempt < b.nextAttempt || (a.nextAttempt == b.nextAttempt && a.event.id < b.event.id)
  }

  // The first claimable row that no other transaction has locked, in (next_attempt_at, id) order.
  predicate FirstClaimable(rows: Rows, skipped: set<Id>, id: Id, now: Instant) {
    && id in rows && id !in skipped && Claimable(rows[id], now)
    && forall o | o in rows && o !in skipped && o != id :: Claimable(rows[o], now) ==> Before(rows[id], rows[o])
  }

  ghost function Batch(rows: Rows, skipped: set<Id>, limit: nat, now: Instant): seq<Id>
    decreases limit
  {
    if limit == 0 then []
    else if id :| FirstClaimable(rows, skipped, id, now) then [id] + Batch(rows, skipped + {id}, limit - 1, now)
    else []
  }

  function Leased(rows: Rows, ids: seq<Id>, lease: Lease): Rows {
    map id | id in rows :: if id in ids then rows[id].(lease := Some(lease)) else rows[id]
  }

  function Records(rows: Rows, ids: seq<Id>): seq<Row>
    requires forall i | 0 <= i < |ids| :: ids[i] in rows
  {
    seq(|ids|, i requires 0 <= i < |ids| => rows[ids[i]])
  }

  function Publish(rows: Rows, id: Id, now: Instant): Result<Rows> {
    if id in rows && rows[id].publishedAt.None? then Ok(rows[id := rows[id].(publishedAt := Some(now), lease := None)])
    else Err(NotFound)
  }

  function Release(rows: Rows, id: Id, attempts: int, next: Instant): Result<Rows> {
    if id in rows && rows[id].publishedAt.None?
    then Ok(rows[id := rows[id].(attempts := attempts, nextAttempt := next, lease := None)])
    else Err(NotFound)
  }

  lemma FirstIsUnique(rows: Rows, skipped: set<Id>, a: Id, b: Id, now: Instant)
    requires FirstClaimable(rows, skipped, a, now) && FirstClaimable(rows, skipped, b, now)
    ensures a == b
  {
  }

  lemma {:induction false} FirstOf(rows: Rows, due: set<Id>) returns (first: Id)
    requires Keyed(rows) && due != {} && forall o | o in due :: o in rows
    ensures first in due && forall o | o in due && o != first :: o in rows && Before(rows[first], rows[o])
  {
    var one :| one in due;
    if due == {one} {
      first := one;
    } else {
      var best := FirstOf(rows, due - {one});
      first := if Before(rows[one], rows[best]) then one else best;
      assert forall o | o in due :: o == one || o in due - {one};
    }
  }

  lemma ClaimFindsWork(rows: Rows, skipped: set<Id>, id: Id, now: Instant)
    requires Keyed(rows) && id in rows && id !in skipped && Claimable(rows[id], now)
    ensures exists first :: FirstClaimable(rows, skipped, first, now)
  {
    var due := set o | o in rows && o !in skipped && Claimable(rows[o], now);
    assert id in due;
    var first := FirstOf(rows, due);
    assert FirstClaimable(rows, skipped, first, now);
  }

  // Claimable unlocked rows, at most `limit`, in order; any such row left behind comes after a
  // full batch.
  predicate FirstRows(ids: seq<Id>, rows: Rows, skipped: set<Id>, limit: nat, now: Instant) {
    && |ids| <= limit
    && (forall i | 0 <= i < |ids| :: ids[i] in rows && ids[i] !in skipped && Claimable(rows[ids[i]], now))
    && (forall i, j | 0 <= i < j < |ids| :: Before(rows[ids[i]], rows[ids[j]]))
    && (forall id | id in rows && id !in skipped && Claimable(rows[id], now) && id !in ids ::
          |ids| == limit && forall i | 0 <= i < |ids| :: Before(rows[ids[i]], rows[id]))
  }

  lemma OneMoreRow(rows: Rows, skipped: set<Id>, first: Id, rest: seq<Id>, limit: nat, now: Instant)
    requires FirstClaimable(rows, skipped, first, now) && FirstRows(rest, rows, skipped + {first}, limit, now)
    ensures FirstRows([first] + rest, rows, skipped, limit + 1, now)
  {
    var ids := [first] + rest;
    assert forall i | 0 < i < |ids| :: ids[i] == rest[i - 1];
    forall id | id in rows && id !in skipped && Claimable(rows[id], now) && id !in ids
      ensures |ids| == limit + 1 && forall i | 0 <= i < |ids| :: Before(rows[ids[i]], rows[id])
    {
      assert id != ids[0] && id !in rest;
    }
  }

  // A claim takes distinct claimable rows, at most `limit`, in order; and it leaves a claimable
  // unlocked row behind only when it is full of rows that come before it.
  lemma {:induction false} BatchIsTheFirst(rows: Rows, skipped: set<Id>, limit: nat, now: Instant)
    requires Keyed(rows)
    ensures FirstRows(Batch(rows, skipped, limit, now), rows, skipped, limit, now)
    decreases limit
  {
    if limit > 0 && exists id :: FirstClaimable(rows, skipped, id, now) {
      var first := Batch(rows, skipped, limit, now)[0];
      BatchIsTheFirst(rows, skipped + {first}, limit - 1, now);
      OneMoreRow(rows, skipped, first, Batch(rows, skipped + {first}, limit - 1, now), limit - 1, now);
    } else if limit > 0 {
      forall id | id in rows && id !in skipped ensures !Claimable(rows[id], now) {
        if Claimable(rows[id], now) {
          ClaimFindsWork(rows, skipped, id, now);
        }
      }
    }
  }

  // The same told on the columns: claimed rows are unpublished, due and not under a running lease,
  // ordered by next attempt and id; a row as good that is left behind comes after a full batch.
  lemma BatchExactly(rows: Rows, limit: nat, now: Instant)
    requires Keyed(rows)
    ensures var ids := Batch(rows, {}, limit, now);
            && |ids| <= limit
            && (forall i | 0 <= i < |ids| ::
                  && ids[i] in rows && rows[ids[i]].publishedAt.None? && rows[ids[i]].nextAttempt <= now
                  && (rows[ids[i]].lease.Some? ==> rows[ids[i]].lease.value.until < now))
            && (forall i, j | 0 <= i < j < |ids| ::
                  rows[ids[i]].nextAttempt < rows[ids[j]].nextAttempt
                  || (rows[ids[i]].nextAttempt == rows[ids[j]].nextAttempt && ids[i] < ids[j]))
            && (forall id | id in rows && id !in ids && rows[id].publishedAt.None? && rows[id].nextAttempt <= now
                            && (rows[id].lease.Some? ==> rows[id].lease.value.until < now) ::
                  |ids| == limit
                  && forall i | 0 <= i < |ids| ::
                       rows[ids[i]].nextAttempt < rows[id].nextAttempt
                       || (rows[ids[i]].nextAttempt == rows[id].nextAttempt && ids[i] < id))
  {
    BatchIsTheFirst(rows, {}, limit, now);
    var ids := Batch(rows, {}, limit, now);
    assert forall id | id in rows :: rows[id].event.id == id;
    forall i, j | 0 <= i < j < |ids|
      ensures rows[ids[i]].nextAttempt < rows[ids[j]].nextAttempt
              || (rows[ids[i]].nextAttempt == rows[ids[j]].nextAttempt && ids[i] < ids[j])
    {
      assert Before(rows[ids[i]], rows[ids[j]]);
    }
    forall id, i | id in rows && id !in ids && Claimable(rows[id], now) && 0 <= i < |ids|
      ensures rows[ids[i]].nextAttempt < rows[id].nextAttempt
              || (rows[ids[i]].nextAttempt == rows[id].nextAttempt && ids[i] < id)
    {
      assert Before(rows[ids[i]], rows[id]);
    }
  }

  // The database hands the claimed rows over in an order of its own.
  predicate Distinct(ids: seq<Id>) {
    forall i, j | 0 <= i < j < |ids| :: ids[i] != ids[j]
  }

  predicate Permutes(order: seq<Id>, ids: seq<Id>) {
    |order| == |ids| && Distinct(order) && (forall id | id in order :: id in ids) && (forall id | id in ids :: id in order)
  }

  function Handed(order: seq<Id>, ids: seq<Id>): seq<Id> {
    if Permutes(order, ids) then order else ids
  }

  // Whatever the order, these are the distinct claimable rows the claim selected.
  lemma HandedIsTheBatch(rows: Rows, skipped: set<Id>, limit: nat, now: Instant, order: seq<Id>)
    requires Keyed(rows)
    ensures var ids := Batch(rows, skipped, limit, now);
            var handed := Handed(order, ids);
            && |handed| == |ids| <= limit && Distinct(handed) && (forall id :: id in handed <==> id in ids)
            && (forall i | 0 <= i < |handed| :: handed[i] in rows && Claimable(rows[handed[i]], now))
  {
    BatchIsTheFirst(rows, skipped, limit, now);
    var ids := Batch(rows, skipped, limit, now);
    forall i, j | 0 <= i < j < |ids| ensures ids[i] != ids[j] {
      assert Before(rows[ids[i]], rows[ids[j]]);
    }
    forall i | 0 <= i < |Handed(order, ids)| ensures Handed(order, ids)[i] in rows && Claimable(rows[Handed(order, ids)[i]], now) {
      assert Handed(order, ids)[i] in ids;
    }
  }

  class Table {
    var rows: Rows

    constructor ()
      ensures rows == map[]
    {
      rows := map[];
    }

    // The primary key refuses a second event under the same id.
    method Append(e: Event) returns (error: Option<Error>)
      modifies this
      ensures if e.id in old(rows) then error == Some(PersistenceConflict) && rows == old(rows)
              else error == None && rows == old(rows)[e.id := NewRow(e)]
    {
      if e.id in rows {
        return Some(PersistenceConflict);
      }
      rows := rows[e.id := NewRow(e)];
      error := None;
    }

    // The rows a claim will take, one by one.
    method Candidates(limit: nat, now: Instant, skipped: set<Id>) returns (ids: seq<Id>)
      ensures ids == Batch(rows, skipped, limit, now)
    {
      var taken: set<Id> := skipped;
      ids := [];
      while |ids| < limit
        invariant |ids| <= limit
        invariant ids + Batch(rows, taken, limit - |ids|, now) == Batch(rows, skipped, limit, now)
      {
        if id :| id in rows && FirstClaimable(rows, taken, id, now) {
          forall other | FirstClaimable(rows, taken, other, now) ensures other == id {
            FirstIsUnique(rows, taken, id, other, now);
          }
          ghost var later := Batch(rows, taken + {id}, limit - |ids| - 1, now);
          assert Batch(rows, taken, limit - |ids|, now) == [id] + later && ids + ([id] + later) == (ids + [id]) + later;
          ids, taken := ids + [id], taken + {id};
        } else {
          return;
        }
      }
    }

    // The rows the claim's UPDATE returns, read one by one.
    method ReadBack(ids: seq<Id>) returns (records: seq<Row>)
      requires forall i | 0 <= i < |ids| :: ids[i] in rows
      ensures records == Records(rows, ids)
    {
      records := [];
      var i := 0;
      while i < |ids|
        invariant 0 <= i <= |ids| && |records| == i
        invariant forall k | 0 <= k < i :: records[k] == rows[ids[k]]
      {
        records := records + [rows[ids[i]]];
        i := i + 1;
      }
    }

    method Claim(owner: string, limit: nat, ttl: nat, now: Instant, skipped: set<Id>, order: seq<Id>) returns (claimed: seq<Row>)
      requires Keyed(rows)
      modifies this
      ensures var ids := Handed(order, Batch(old(rows), skipped, limit, now));
              && rows == Leased(old(rows), ids, Lease(owner, now + ttl))
              && (forall i | 0 <= i < |ids| :: ids[i] in rows) && claimed == Records(rows, ids)
    {
      HandedIsTheBatch(rows, skipped, limit, now, order);
      var candidates := Candidates(limit, now, skipped);
      var ids := Handed(order, candidates);
      rows := Leased(rows, ids, Lease(owner, now + ttl));
      claimed := ReadBack(ids);
    }

    method MarkPublished(id: Id, now: Instant) returns (error: Option<Error>)
      modifies this
      ensures match Publish(old(rows), id, now)
              case Ok(after) => error == None && rows == after
              case Err(e) => error == Some(e) && rows == old(rows)
    {
      if id !in rows || rows[id].publishedAt.Some? {
        return Some(NotFound);
      }
      rows := rows[id := rows[id].(publishedAt := Some(now), lease := None)];
      error := None;
    }

    method ReleaseWithBackoff(id: Id, attempts: int, next: Instant) returns (error: Option<Error>)
      modifies this
      ensures match Release(old(rows), id, attempts, next)
              case Ok(after) => error == None && rows == after
              case Err(e) => error == Some(e) && rows == old(rows)
    {
      if id !in rows || rows[id].publishedAt.Some? {
        return Some(NotFound);
      }
      rows := rows[id := rows[id].(attempts := attempts, nextAttempt := next, lease := None)];
      error := None;
    }
  }

  // ----- one publisher

  datatype Config = Config(batchSize: nat, leaseTtl: nat, backoffBase: nat, backoffMax: nat)

  // How one publication goes: whether the queue takes the message, whether the update that
  // follows reaches the database, and the clock when it does.
  datatype Attempt = Attempt(sends: bool, stores: bool, now: Instant)

  datatype State = State(rows: Rows, sent: seq<Event>)

  function NextAttempt(config: Config, record: Row, now: Instant): Instant {
    now + PublisherDelay(record.attempts + 1, config.backoffBase, config.backoffMax)
  }

  function Stored(rows: Rows, update: Result<Rows>, stores: bool): Rows {
    if stores && update.Ok? then update.value else rows
  }

  function AfterSend(s: State, record: Row, sends: bool): State {
    if sends then s.(sent := s.sent + [record.event]) else s
  }

  function AfterMark(s: State, record: Row, stores: bool, now: Instant): State {
    s.(rows := Stored(s.rows, Publish(s.rows, record.event.id, now), stores))
  }

  function AfterRelease(s: State, config: Config, record: Row, stores: bool, now: Instant): State {
    s.(rows := Stored(s.rows, Release(s.rows, record.event.id, record.attempts + 1, NextAttempt(config, record, now)), stores))
  }

  function Published(s: State, config: Config, record: Row, a: Attempt): State {
    var tried := AfterSend(s, record, a.sends);
    if a.sends then AfterMark(tried, record, a.stores, a.now) else AfterRelease(tried, config, record, a.stores, a.now)
  }

  predicate Succeeds(s: State, record: Row, a: Attempt) {
    a.sends && a.stores && Publish(s.rows, record.event.id, a.now).Ok?
  }

  // The records of a batch, one attempt each; a shutdown leaves the rest of the batch claimed.
  function PublishAll(s: State, config: Config, batch: seq<Row>, attempts: seq<Attempt>): State
    decreases |batch|
  {
    if batch == [] || attempts == [] then s
    else PublishAll(Published(s, config, batch[0], attempts[0]), config, batch[1..], attempts[1..])
  }

  function Successes(s: State, config: Config, batch: seq<Row>, attempts: seq<Attempt>): nat
    decreases |batch|
  {
    if batch == [] || attempts == [] then 0
    else (if Succeeds(s, batch[0], attempts[0]) then 1 else 0)
         + Successes(Published(s, config, batch[0], attempts[0]), config, batch[1..], attempts[1..])
  }

  // One attempt on a claimed event that is still unpublished, told on its row: sent and marked,
  // or not sent and released until its backoff is over; the row stays if the update is lost.
  lemma AttemptEnds(s: State, config: Config, record: Row, a: Attempt)
    requires record.event.id in s.rows && s.rows[record.event.id].publishedAt.None?
    ensures var after, id := Published(s, config, record, a), record.event.id;
            && after.sent == (if a.sends then s.sent + [record.event] else s.sent)
            && after.rows == (if !a.stores then s.rows
                              else if a.sends then s.rows[id := s.rows[id].(publishedAt := Some(a.now), lease := None)]
                              else s.rows[id := s.rows[id].(attempts := record.attempts + 1, lease := None,
                                   nextAttempt := a.now + PublisherDelay(record.attempts + 1, config.backoffBase, config.backoffMax))])
            && (Succeeds(s, record, a) <==> a.sends && a.stores)
  {
  }

  // A new event is due from the instant it occurred; a claimed one is nobody else's until its lease
  // has run out; a published one is claimed no more.
  lemma WhenClaimable(e: Event, r: Row, lease: Lease, later: Instant)
    requires r.publishedAt.None? && r.nextAttempt <= later
    ensures NewRow(e).attempts == 0 && (Claimable(NewRow(e), later) <==> e.occurredAt <= later)
    ensures Claimable(r.(lease := Some(lease)), later) <==> lease.until < later
    ensures Claimable(r.(lease := None), later) && !Claimable(r.(publishedAt := Some(later)), later)
  {
  }

  class Sender {
    var sent: seq<Event>

    constructor ()
      ensures sent == []
    {
      sent := [];
    }

    method Send(e: Event, works: bool) returns (ok: bool)
      modifies this
      ensures ok == works && sent == if works then old(sent) + [e] else old(sent)
    {
      if works {
        sent := sent + [e];
      }
      ok := works;
    }
  }

  class Publisher {
    const id: string
    const config: Config
    const table: Table
    const sender: Sender

    constructor (id: string, config: Config, table: Table, sender: Sender)
      ensures this.id == id && this.config == config && this.table == table && this.sender == sender
    {
      this.id, this.config, this.table, this.sender := id, config, table, sender;
    }

    ghost function Seen(): State
      reads table, sender
    {
      State(table.rows, sender.sent)
    }

    method PublishOne(record: Row, a: Attempt) returns (ok: bool)
      modifies table, sender
      ensures Seen() == Published(old(Seen()), config, record, a)
      ensures ok == Succeeds(old(Seen()), record, a)
    {
      var sent := sender.Send(record.event, a.sends);
      if !sent {
        ReleaseAfterFailure(record, a);
        return false;
      }
      if !a.stores {
        return false;
      }
      var error := table.MarkPublished(record.event.id, a.now);
      ok := error.None?;
    }

    method ReleaseAfterFailure(record: Row, a: Attempt)
      modifies table
      ensures Seen() == AfterRelease(old(Seen()), config, record, a.stores, a.now)
    {
      var attempts := record.attempts + 1;
      var delay := BackoffDuration(attempts, config.backoffBase, config.backoffMax);
      if a.stores {
        var error := table.ReleaseWithBackoff(record.event.id, attempts, a.now + delay);
      }
    }

    // Claim a batch, then one attempt per record; the count is of the records marked published.
    method Tick(now: Instant, skipped: set<Id>, order: seq<Id>, attempts: seq<Attempt>) returns (published: nat)
      requires Keyed(table.rows)
      modifies table, sender
      ensures var ids := Handed(order, Batch(old(table.rows), skipped, config.batchSize, now));
              var claimed := Leased(old(table.rows), ids, Lease(id, now + config.leaseTtl));
              && (forall i | 0 <= i < |ids| :: ids[i] in claimed)
              && Seen() == PublishAll(State(claimed, old(sender.sent)), config, Records(claimed, ids), attempts)
              && published == Successes(State(claimed, old(sender.sent)), config, Records(claimed, ids), attempts)
    {
      var batch := table.Claim(id, config.batchSize, config.leaseTtl, now, skipped, order);
      ghost var start := Seen();
      published := 0;
      var i := 0;
      while i < |batch|
        invariant 0 <= i <= |batch| && i <= |attempts|
        invariant PublishAll(Seen(), config, batch[i..], attempts[i..]) == PublishAll(start, config, batch, attempts)
        invariant published + Successes(Seen(), config, batch[i..], attempts[i..]) == Successes(start, config, batch, attempts)
      {
        if i == |attempts| {
          return;
        }
        assert batch[i..][0] == batch[i] && batch[i..][1..] == batch[i + 1..];
        assert attempts[i..][0] == attempts[i] && attempts[i..][1..] == attempts[i + 1..];
        var ok := PublishOne(batch[i], attempts[i]);
        if ok {
          published := published + 1;
        }
        i := i + 1;
      }
    }
  }
}
