// A publisher's tick is a run of the publishing steps, and no committed event is ever stuck.
module Delivery {
  import opened Base
  import opened Backoff
  import opened Outbox
  import opened Publishing

  function RecordSteps(owner: string, a: Attempt): seq<Step> {
    [Step(a.now, Send(owner, a.sends)), Step(a.now, if a.sends then Mark(owner, a.stores) else GiveBack(owner, a.stores))]
  }

  // The steps of one publisher going through its batch, one attempt per record.
  function WorkSteps(owner: string, attempts: seq<Attempt>): seq<Step>
    decreases |attempts|
  {
    if attempts == [] then [] else RecordSteps(owner, attempts[0]) + WorkSteps(owner, attempts[1..])
  }

  lemma AfterSending(net: Net, owner: string, a: Attempt)
    requires Keyed(net.rows) && In(net, owner, Claimed)
    ensures var sent := Next(net, Step(a.now, Send(owner, a.sends)));
            && Seen(sent) == AfterSend(Seen(net), net.workers[owner].batch[0], a.sends) && sent.config == net.config
            && sent.workers == net.workers[owner := net.workers[owner].(phase := if a.sends then Sent else SendFailed)]
  {
  }

  // One record, sent and then marked or given back, is what the publisher does with it.
  lemma OneRecord(net: Net, owner: string, a: Attempt)
    requires Keyed(net.rows) && In(net, owner, Claimed)
    ensures var batch := net.workers[owner].batch;
            var after := Run(net, RecordSteps(owner, a));
            && Seen(after) == Published(Seen(net), net.config, batch[0], a) && after.config == net.config
            && after.workers == Advance(net.workers, owner)
            && (|batch| > 1 ==> In(after, owner, Claimed) && after.workers[owner].batch == batch[1..])
  {
    var steps := RecordSteps(owner, a);
    RunTwo(net, steps[0], steps[1]);
    AfterSending(net, owner, a);
    var sent := Next(net, steps[0]);
    assert In(sent, owner, if a.sends then Sent else SendFailed);
    assert Advance(sent.workers, owner) == Advance(net.workers, owner);
  }

  // The loop over a claimed batch is the run of its steps, so everything proved of runs holds of
  // ticks; a shutdown or crash in between leaves a prefix.
  lemma {:induction false} WorkIsARun(net: Net, owner: string, attempts: seq<Attempt>)
    requires Keyed(net.rows) && In(net, owner, Claimed) && |attempts| <= |net.workers[owner].batch|
    ensures Seen(Run(net, WorkSteps(owner, attempts))) == PublishAll(Seen(net), net.config, net.workers[owner].batch, attempts)
    decreases |attempts|
  {
    if attempts != [] {
      var head := RecordSteps(owner, attempts[0]);
      OneRecord(net, owner, attempts[0]);
      RunConcat(net, head, WorkSteps(owner, attempts[1..]));
      if |attempts| > 1 {
        WorkIsARun(Run(net, head), owner, attempts[1..]);
      } else {
        assert attempts[1..] == [];
      }
    }
  }

  // ----- nothing is stuck

  // An unpublished row is claimable from some instant on, whoever claimed it and then died.
  lemma EventuallyClaimable(r: Row) returns (t: Instant)
    requires r.publishedAt.None?
    ensures forall now: Instant :: now >= t ==> Claimable(r, now)
  {
    t := if r.lease.Some? && r.lease.value.until >= r.nextAttempt then r.lease.value.until + 1 else r.nextAttempt;
  }

  predicate Marked(rows: Rows, id: Id) {
    id in rows && rows[id].publishedAt.Some?
  }

  lemma {:induction false} AllMarked(s: State, config: Config, batch: seq<Row>, attempts: seq<Attempt>, id: Id)
    requires |attempts| == |batch| && forall i | 0 <= i < |batch| :: batch[i].event.id in s.rows
    requires forall i | 0 <= i < |attempts| :: attempts[i].sends && attempts[i].stores
    requires Marked(s.rows, id) || exists i :: 0 <= i < |batch| && batch[i].event.id == id
    ensures Marked(PublishAll(s, config, batch, attempts).rows, id)
    decreases |batch|
  {
    if batch != [] {
      var next := Published(s, config, batch[0], attempts[0]);
      assert Marked(next.rows, batch[0].event.id) && next.rows.Keys == s.rows.Keys;
      if !Marked(next.rows, id) {
        var i :| 0 <= i < |batch| && batch[i].event.id == id;
        assert batch[1..][i - 1].event.id == id;
      }
      AllMarked(next, config, batch[1..], attempts[1..], id);
    }
  }

  // ----- tick after tick

  // The unpublished events.
  function Left(rows: Rows): set<Id> {
    set id | id in rows && rows[id].publishedAt.None?
  }

  // By this instant every unpublished row is claimable.
  predicate AllDue(rows: Rows, now: Instant) {
    forall id | id in Left(rows) :: Claimable(rows[id], now)
  }

  lemma {:induction false} EventuallyAllDue(rows: Rows, ids: set<Id>, clock: Instant) returns (t: Instant)
    requires ids <= Left(rows)
    ensures t >= clock && forall id, now: Instant | id in ids && now >= t :: Claimable(rows[id], now)
    decreases ids
  {
    if ids == {} {
      t := clock;
    } else {
      var id :| id in ids;
      var rest := EventuallyAllDue(rows, ids - {id}, clock);
      var own := EventuallyClaimable(rows[id]);
      t := if own > rest then own else rest;
    }
  }

  // One tick at which every send and every update works.
  function Successes(n: nat, now: Instant): seq<Attempt> {
    seq(n, i => Attempt(true, true, now))
  }

  function TickSteps(owner: string, n: nat, now: Instant): seq<Step> {
    [Step(now, Claim(owner, {}, []))] + WorkSteps(owner, Successes(n, now))
  }

  // Such a pass publishes its batch and leaves every other row as it is.
  lemma {:induction false} PassPublishes(s: State, config: Config, batch: seq<Row>, attempts: seq<Attempt>)
    requires |attempts| == |batch| && forall i | 0 <= i < |batch| :: batch[i].event.id in s.rows
    requires forall i | 0 <= i < |attempts| :: attempts[i].sends && attempts[i].stores
    ensures var after := PublishAll(s, config, batch, attempts).rows;
            && after.Keys == s.rows.Keys
            && (forall id | id in s.rows :: after[id] == s.rows[id] || (after[id].publishedAt.Some? && Held(batch, id)))
    decreases |batch|
  {
    if batch != [] {
      var next := Published(s, config, batch[0], attempts[0]);
      PassPublishes(next, config, batch[1..], attempts[1..]);
      var after := PublishAll(s, config, batch, attempts).rows;
      forall id | id in s.rows ensures after[id] == s.rows[id] || (after[id].publishedAt.Some? && Held(batch, id)) {
        if after[id] != next.rows[id] {
          var i :| 0 <= i < |batch[1..]| && batch[1..][i].event.id == id;
          assert batch[i + 1].event.id == id;
        } else if next.rows[id] != s.rows[id] {
          assert batch[0].event.id == id;
        }
      }
    }
  }

  predicate Held(batch: seq<Row>, id: Id) {
    exists i :: 0 <= i < |batch| && batch[i].event.id == id
  }

  // The claim of a tick, when every unpublished row is due: a non-empty batch of those.
  lemma TickClaims(net: Net, owner: string, now: Instant) returns (ids: seq<Id>)
    requires Keyed(net.rows) && owner !in net.workers && AllDue(net.rows, now) && Left(net.rows) != {} && net.config.batchSize >= 1
    ensures ids != [] && forall i | 0 <= i < |ids| :: ids[i] in Left(net.rows)
    ensures var until := now + net.config.leaseTtl;
            var rows := Leased(net.rows, ids, Lease(owner, until));
            Next(net, Step(now, Claim(owner, {}, []))) ==
            net.(rows := rows, workers := net.workers[owner := Busy(Records(rows, ids), until, Claimed)], clock := now)
  {
    HandedIsTheBatch(net.rows, {}, net.config.batchSize, now, []);
    BatchIsTheFirst(net.rows, {}, net.config.batchSize, now);
    ids := Handed([], Batch(net.rows, {}, net.config.batchSize, now));
    var id :| id in Left(net.rows);
    assert Claimable(net.rows[id], now);
  }

  // Leasing and then publishing some of what is left leaves less, and the rest as it was.
  lemma LessIsLeft(rows: Rows, ids: seq<Id>, lease: Lease, batch: seq<Row>, after: Rows, now: Instant)
    requires Keyed(rows) && AllDue(rows, now) && ids != [] && forall i | 0 <= i < |ids| :: ids[i] in Left(rows)
    requires batch == Records(Leased(rows, ids, lease), ids) && after.Keys == rows.Keys
    requires forall id | id in rows :: after[id] == Leased(rows, ids, lease)[id] || (after[id].publishedAt.Some? && Held(batch, id))
    requires forall i | 0 <= i < |ids| :: Marked(after, ids[i])
    ensures AllDue(after, now) && Left(after) < Left(rows)
  {
    assert ids[0] in Left(rows) && Marked(after, ids[0]) && ids[0] !in Left(after);
    assert forall id | id in ids :: Marked(after, id);
    assert forall id | id in Left(after) :: id !in ids && after[id] == rows[id];
  }

  lemma BatchMarked(s: State, config: Config, batch: seq<Row>, ids: seq<Id>, attempts: seq<Attempt>)
    requires |attempts| == |batch| == |ids| && forall i | 0 <= i < |batch| :: batch[i].event.id == ids[i] && ids[i] in s.rows
    requires forall i | 0 <= i < |attempts| :: attempts[i].sends && attempts[i].stores
    ensures forall i | 0 <= i < |ids| :: Marked(PublishAll(s, config, batch, attempts).rows, ids[i])
  {
    forall i | 0 <= i < |ids| ensures Marked(PublishAll(s, config, batch, attempts).rows, ids[i]) {
      assert batch[i].event.id == ids[i];
      AllMarked(s, config, batch, attempts, ids[i]);
    }
  }

  // One tick makes progress: fewer events are left, the publisher is idle again, and what is left
  // is still due.
  lemma TickProgress(net: Net, owner: string, now: Instant) returns (n: nat)
    requires Keyed(net.rows) && owner !in net.workers && AllDue(net.rows, now) && Left(net.rows) != {} && net.config.batchSize >= 1
    ensures var after := Run(net, TickSteps(owner, n, now));
            && after.workers == net.workers && after.config == net.config && AllDue(after.rows, now)
            && Left(after.rows) < Left(net.rows) && after.rows.Keys == net.rows.Keys
  {
    var ids := TickClaims(net, owner, now);
    var claim := [Step(now, Claim(owner, {}, []))];
    var held := Next(net, claim[0]);
    assert Run(net, claim) == Run(held, claim[1..]) == held;
    n := |ids|;
    PassProgress(net, held, owner, ids, now);
    RunConcat(net, claim, WorkSteps(owner, Successes(n, now)));
  }

  // A pass over the whole batch, every call working.
  lemma PassRuns(held: Net, owner: string, n: nat, now: Instant)
    requires Keyed(held.rows) && In(held, owner, Claimed) && |held.workers[owner].batch| == n
    ensures var after := Run(held, WorkSteps(owner, Successes(n, now)));
            && after.rows == PublishAll(Seen(held), held.config, held.workers[owner].batch, Successes(n, now)).rows
            && after.workers == held.workers - {owner} && after.config == held.config
  {
    var attempts := Successes(n, now);
    WorkIsARun(held, owner, attempts);
    WorkEnds(held, owner, attempts);
    assert Seen(Run(held, WorkSteps(owner, attempts))) == PublishAll(Seen(held), held.config, held.workers[owner].batch, attempts);
  }

  lemma PassLeavesLess(net: Net, held: Net, owner: string, ids: seq<Id>, now: Instant)
    requires Keyed(net.rows) && AllDue(net.rows, now) && owner in held.workers
    requires ids != [] && forall i | 0 <= i < |ids| :: ids[i] in Left(net.rows)
    requires var lease := Lease(owner, now + net.config.leaseTtl);
             held.rows == Leased(net.rows, ids, lease) && held.workers[owner].batch == Records(Leased(net.rows, ids, lease), ids)
    ensures var after := PublishAll(Seen(held), held.config, held.workers[owner].batch, Successes(|ids|, now)).rows;
            AllDue(after, now) && Left(after) < Left(net.rows) && after.Keys == net.rows.Keys
  {
    var batch, attempts := held.workers[owner].batch, Successes(|ids|, now);
    PassPublishes(Seen(held), held.config, batch, attempts);
    BatchMarked(Seen(held), held.config, batch, ids, attempts);
    LessIsLeft(net.rows, ids, Lease(owner, now + net.config.leaseTtl), batch,
               PublishAll(Seen(held), held.config, batch, attempts).rows, now);
  }

  lemma PassProgress(net: Net, held: Net, owner: string, ids: seq<Id>, now: Instant)
    requires Keyed(net.rows) && owner !in net.workers && AllDue(net.rows, now)
    requires ids != [] && forall i | 0 <= i < |ids| :: ids[i] in Left(net.rows)
    requires var until := now + net.config.leaseTtl;
             var rows := Leased(net.rows, ids, Lease(owner, until));
             held == net.(rows := rows, workers := net.workers[owner := Busy(Records(rows, ids), until, Claimed)], clock := now)
    ensures var after := Run(held, WorkSteps(owner, Successes(|ids|, now)));
            && after.workers == net.workers && after.config == net.config && AllDue(after.rows, now)
            && Left(after.rows) < Left(net.rows) && after.rows.Keys == net.rows.Keys
  {
    PassRuns(held, owner, |ids|, now);
    PassLeavesLess(net, held, owner, ids, now);
    assert held.workers - {owner} == net.workers;
  }

  // After as many attempts as records the publisher is idle, and nobody else was touched.
  lemma {:induction false} WorkEnds(net: Net, owner: string, attempts: seq<Attempt>)
    requires Keyed(net.rows) && In(net, owner, Claimed) && |attempts| == |net.workers[owner].batch|
    ensures var after := Run(net, WorkSteps(owner, attempts)); after.workers == net.workers - {owner} && after.config == net.config
    decreases |attempts|
  {
    var head := RecordSteps(owner, attempts[0]);
    OneRecord(net, owner, attempts[0]);
    RunConcat(net, head, WorkSteps(owner, attempts[1..]));
    if |attempts| > 1 {
      WorkEnds(Run(net, head), owner, attempts[1..]);
      assert Advance(net.workers, owner) - {owner} == net.workers - {owner};
    } else {
      assert attempts[1..] == [];
    }
  }

  // The steps of one publisher alone, none before the clock.
  predicate Paced(steps: seq<Step>, owner: string, now: Instant) {
    forall i | 0 <= i < |steps| ::
      steps[i].now == now && match steps[i].act
                             case Claim(o, skipped, _) => o == owner && skipped == {}
                             case Send(o, _) => o == owner
                             case Mark(o, _) => o == owner
                             case _ => false
  }

  lemma {:induction false} WorkIsPaced(owner: string, n: nat, now: Instant)
    ensures Paced(WorkSteps(owner, Successes(n, now)), owner, now)
  {
    if n > 0 {
      assert Successes(n, now)[1..] == Successes(n - 1, now);
      WorkIsPaced(owner, n - 1, now);
    }
  }

  lemma {:induction false} TicksPublish(net: Net, owner: string, id: Id, now: Instant) returns (steps: seq<Step>)
    requires Keyed(net.rows) && owner !in net.workers && AllDue(net.rows, now) && net.config.batchSize >= 1 && id in net.rows
    ensures Marked(Run(net, steps).rows, id) && Paced(steps, owner, now)
    decreases Left(net.rows)
  {
    if net.rows[id].publishedAt.Some? {
      steps := [];
    } else {
      assert id in Left(net.rows);
      var n := TickProgress(net, owner, now);
      var tick := TickSteps(owner, n, now);
      var rest := TicksPublish(Run(net, tick), owner, id, now);
      RunConcat(net, tick, rest);
      WorkIsPaced(owner, n, now);
      steps := tick + rest;
    }
  }

  // From every safe state, whoever crashed with what in hand, any idle publisher can still get an
  // unpublished event out, ticking with its configured batch size from some instant on that is
  // not before the clock.
  lemma NeverStuck(net: Net, owner: string, id: Id)
    requires Safe(net) && owner !in net.workers && id in net.rows && net.rows[id].publishedAt.None? && net.config.batchSize >= 1
    ensures exists steps: seq<Step>, now: Instant ::
              && now >= net.clock && Paced(steps, owner, now)
              && Marked(Run(net, steps).rows, id) && net.rows[id].event in Run(net, steps).sent
  {
    var now := EventuallyAllDue(net.rows, Left(net.rows), net.clock);
    var steps := TicksPublish(net, owner, id, now);
    RunSafe(net, steps);
  }

  // A released event stays out of reach for the base delay doubled once for each earlier attempt,
  // up to the ceiling.
  lemma ReleaseBacksOff(s: State, config: Config, record: Row, now: Instant, later: Instant)
    requires record.event.id in s.rows && s.rows[record.event.id].publishedAt.None?
    requires 0 < config.backoffBase <= config.backoffMax
    ensures var after := AfterRelease(s, config, record, true, now).rows[record.event.id];
            && after.attempts == record.attempts + 1 && after.lease.None?
            && (record.attempts >= 0 ==> after.nextAttempt == now + DoubledUpTo(config.backoffBase, config.backoffMax, record.attempts))
            && (later < now + config.backoffBase ==> !Claimable(after, later))
            && (later >= now + config.backoffMax ==> Claimable(after, later))
  {
    BackoffsAgree(record.attempts + 1, config.backoffBase, config.backoffMax);
    RampClosedForm(config.backoffBase, config.backoffMax, Doublings(record.attempts + 1));
  }
}
