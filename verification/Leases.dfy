// What leases buy. A claim keeps every event in one pair of hands exactly when it takes nothing a
// publisher still holds, which it can only do past that publisher's lease; so with one monotone
// clock and every publisher done, or dead, before its lease ends, an event has one holder at a
// time and attempt counts never fall. Without that, they may.
module Leases {
  import opened Base
  import opened Store
  import opened Outbox
  import opened Publishing

  // The clock does not run backwards, nor past the lease of a publisher still at work.
  predicate Timely(net: Net, step: Step) {
    net.clock <= step.now && forall o | o in net.workers :: step.now <= net.workers[o].until
  }

  ghost predicate TimelyRun(net: Net, steps: seq<Step>)
    requires Keyed(net.rows)
    decreases |steps|
  {
    steps == [] || (Timely(net, steps[0]) && TimelyRun(Next(net, steps[0]), steps[1..]))
  }

  // Every record in a publisher's hands is unpublished, leased to it, and as it was claimed.
  predicate HeldBy(rows: Rows, owner: string, w: Busy) {
    && w.batch != []
    && (forall i | 0 <= i < |w.batch| ::
          var id := w.batch[i].event.id;
          id in rows && rows[id] == w.batch[i] && rows[id].publishedAt.None? && rows[id].lease == Some(Lease(owner, w.until)))
    && (forall i, j | 0 <= i < j < |w.batch| :: w.batch[i].event.id != w.batch[j].event.id)
  }

  ghost predicate Exclusive(net: Net) {
    Keyed(net.rows) && forall o | o in net.workers :: HeldBy(net.rows, o, net.workers[o])
  }

  predicate Holds(w: Busy, id: Id) {
    exists i :: 0 <= i < |w.batch| && w.batch[i].event.id == id
  }

  // Hence two publishers never hold the same event.
  lemma OneHolder(net: Net, p: string, q: string, id: Id)
    requires Exclusive(net) && p in net.workers && q in net.workers
    requires Holds(net.workers[p], id) && Holds(net.workers[q], id)
    ensures p == q
  {
  }

  predicate AttemptsRise(a: Rows, b: Rows) {
    forall id | id in a :: id in b && a[id].attempts <= b[id].attempts
  }

  // Rows of a worker are untouched.
  lemma HeldFrame(a: Rows, b: Rows, owner: string, w: Busy)
    requires HeldBy(a, owner, w)
    requires forall i | 0 <= i < |w.batch| :: w.batch[i].event.id in b && b[w.batch[i].event.id] == a[w.batch[i].event.id]
    ensures HeldBy(b, owner, w)
  {
  }

  // The rows a claim takes.
  ghost function Taken(net: Net, step: Step): seq<Id>
    requires step.act.Claim?
  {
    Handed(step.act.order, Batch(net.rows, step.act.skipped, net.config.batchSize, step.now))
  }

  // An idle publisher claims a record that another one still has in hand.
  ghost predicate Takes(net: Net, step: Step) {
    && step.act.Claim? && step.act.owner !in net.workers
    && exists o, id :: o in net.workers && Holds(net.workers[o], id) && id in Taken(net, step)
  }

  // It can only do so once the other's lease is over.
  lemma TakesOverdue(net: Net, step: Step)
    requires Exclusive(net)
    ensures Takes(net, step) <==>
            && step.act.Claim? && step.act.owner !in net.workers
            && exists o, id :: o in net.workers && net.workers[o].until < step.now && Holds(net.workers[o], id) && id in Taken(net, step)
  {
    if Takes(net, step) {
      var o, id :| o in net.workers && Holds(net.workers[o], id) && id in Taken(net, step);
      HandedIsTheBatch(net.rows, step.act.skipped, net.config.batchSize, step.now, step.act.order);
      assert HeldBy(net.rows, o, net.workers[o]);
      var k :| 0 <= k < |Taken(net, step)| && Taken(net, step)[k] == id;
      assert net.workers[o].until < step.now;
    }
  }

  lemma ClaimOfFreeRows(net: Net, step: Step)
    requires Exclusive(net) && step.act.Claim? && !Takes(net, step)
    ensures Exclusive(Next(net, step)) && AttemptsRise(net.rows, Next(net, step).rows)
  {
    var after, owner := Next(net, step), step.act.owner;
    HandedIsTheBatch(net.rows, step.act.skipped, net.config.batchSize, step.now, step.act.order);
    forall o | o in net.workers ensures HeldBy(after.rows, o, net.workers[o]) {
      assert HeldBy(net.rows, o, net.workers[o]);
      forall i | 0 <= i < |net.workers[o].batch|
        ensures var id := net.workers[o].batch[i].event.id; id in after.rows && after.rows[id] == net.rows[id]
      {
        assert Holds(net.workers[o], net.workers[o].batch[i].event.id);
        if owner !in net.workers {
          assert net.workers[o].batch[i].event.id !in Taken(net, step);
        }
      }
      HeldFrame(net.rows, after.rows, o, net.workers[o]);
    }
    if owner !in net.workers && Taken(net, step) != [] {
      NewBatchHeld(net.rows, Taken(net, step), owner, step.now + net.config.leaseTtl, step.now);
    }
  }

  // A record taken from a publisher at work is no longer leased to it.
  lemma ClaimOfHeldRow(net: Net, step: Step)
    requires Exclusive(net) && Takes(net, step)
    ensures !Exclusive(Next(net, step))
  {
    var o, id :| o in net.workers && Holds(net.workers[o], id) && id in Taken(net, step);
    var i :| 0 <= i < |net.workers[o].batch| && net.workers[o].batch[i].event.id == id;
    assert HeldBy(net.rows, o, net.workers[o]);
    var after := Next(net, step);
    assert after.workers[o] == net.workers[o] && after.rows[id].lease.value.owner == step.act.owner;
    assert !HeldBy(after.rows, o, after.workers[o]);
  }

  lemma NewBatchHeld(rows: Rows, ids: seq<Id>, owner: string, until: Instant, now: Instant)
    requires Keyed(rows) && ids != [] && forall i | 0 <= i < |ids| :: ids[i] in rows && Claimable(rows[ids[i]], now)
    requires Distinct(ids)
    ensures var after := Leased(rows, ids, Lease(owner, until));
            HeldBy(after, owner, Busy(Records(after, ids), until, Claimed))
  {
  }

  // The row of the first record changes; the others are in other hands or later in the batch.
  lemma EndExclusive(net: Net, step: Step)
    requires Exclusive(net) && (step.act.Mark? || step.act.GiveBack?)
    ensures Exclusive(Next(net, step)) && AttemptsRise(net.rows, Next(net, step).rows)
  {
    var after, owner := Next(net, step), step.act.owner;
    if In(net, owner, if step.act.Mark? then Sent else SendFailed) {
      var w := net.workers[owner];
      assert HeldBy(net.rows, owner, w);
      var first := w.batch[0].event.id;
      assert forall id | id in net.rows && id != first :: id in after.rows && after.rows[id] == net.rows[id];
      assert after.workers == Advance(net.workers, owner);
      forall o | o in after.workers ensures HeldBy(after.rows, o, after.workers[o]) {
        if o == owner {
          RestHeld(net.rows, after.rows, owner, w);
        } else {
          assert HeldBy(net.rows, o, net.workers[o]);
          HeldFrame(net.rows, after.rows, o, net.workers[o]);
        }
      }
    }
  }

  lemma RestHeld(a: Rows, b: Rows, owner: string, w: Busy)
    requires HeldBy(a, owner, w) && |w.batch| > 1
    requires forall id | id in a && id != w.batch[0].event.id :: id in b && b[id] == a[id]
    ensures HeldBy(b, owner, w.(batch := w.batch[1..], phase := Claimed))
  {
  }

  // From an exclusive state a step leads to another one exactly when it takes nothing in hand, and
  // no attempt count falls.
  lemma StepExclusive(net: Net, step: Step)
    requires Exclusive(net)
    ensures Exclusive(Next(net, step)) <==> !Takes(net, step)
    ensures AttemptsRise(net.rows, Next(net, step).rows)
  {
    match step.act
    case Commit(e) =>
      forall o | o in net.workers ensures HeldBy(Next(net, step).rows, o, net.workers[o]) {
        HeldFrame(net.rows, Next(net, step).rows, o, net.workers[o]);
      }
    case Claim(_, _, _) =>
      if Takes(net, step) {
        ClaimOfHeldRow(net, step);
      } else {
        ClaimOfFreeRows(net, step);
      }
    case Send(_, _) =>
    case Mark(_, _) => EndExclusive(net, step);
    case GiveBack(_, _) => EndExclusive(net, step);
    case Crash(_) =>
  }

  ghost predicate AlwaysExclusive(net: Net, steps: seq<Step>)
    requires Keyed(net.rows)
    decreases |steps|
  {
    Exclusive(net) && (steps == [] || AlwaysExclusive(Next(net, steps[0]), steps[1..]))
  }

  ghost predicate NeverTakes(net: Net, steps: seq<Step>)
    requires Keyed(net.rows)
    decreases |steps|
  {
    steps == [] || (!Takes(net, steps[0]) && NeverTakes(Next(net, steps[0]), steps[1..]))
  }

  // A run keeps every event in one pair of hands throughout exactly when no claim of it takes a
  // record in hand; and then no attempt count ever falls.
  lemma {:induction false} ExclusiveExactly(net: Net, steps: seq<Step>)
    requires Exclusive(net)
    ensures AlwaysExclusive(net, steps) <==> NeverTakes(net, steps)
    ensures NeverTakes(net, steps) ==> Exclusive(Run(net, steps)) && AttemptsRise(net.rows, Run(net, steps).rows)
    decreases |steps|
  {
    if steps != [] {
      StepExclusive(net, steps[0]);
      if !Takes(net, steps[0]) {
        ExclusiveExactly(Next(net, steps[0]), steps[1..]);
      }
    }
  }

  lemma {:induction false} TimelyTakesNothing(net: Net, steps: seq<Step>)
    requires Exclusive(net) && TimelyRun(net, steps)
    ensures NeverTakes(net, steps)
    decreases |steps|
  {
    if steps != [] {
      TakesOverdue(net, steps[0]);
      StepExclusive(net, steps[0]);
      TimelyTakesNothing(Next(net, steps[0]), steps[1..]);
    }
  }

  // Over every timely run: no event in two hands, and no attempt count ever falls.
  lemma RunExclusive(net: Net, steps: seq<Step>)
    requires Exclusive(net) && TimelyRun(net, steps)
    ensures Exclusive(Run(net, steps)) && AttemptsRise(net.rows, Run(net, steps).rows)
  {
    TimelyTakesNothing(net, steps);
    ExclusiveExactly(net, steps);
  }

  // ----- without the assumption

  // Giving a record back lowers the stored count exactly when others have raised it by two or more
  // since the record was read: the update matches on the id alone.
  lemma GiveBackLowersExactly(net: Net, owner: string, now: Instant)
    requires Keyed(net.rows) && In(net, owner, SendFailed)
    requires var id := net.workers[owner].batch[0].event.id; id in net.rows && net.rows[id].publishedAt.None?
    ensures var record := net.workers[owner].batch[0];
            var id := record.event.id;
            Next(net, Step(now, GiveBack(owner, true))).rows[id].attempts < net.rows[id].attempts
            <==> record.attempts + 1 < net.rows[id].attempts
  {
  }

  lemma OneRowBatch(r: Row, limit: nat, now: Instant)
    requires Claimable(r, now) && limit >= 1
    ensures Handed([], Batch(map[r.event.id := r], {}, limit, now)) == [r.event.id]
  {
    var rows, id := map[r.event.id := r], r.event.id;
    assert FirstClaimable(rows, {}, id, now);
    forall o ensures !FirstClaimable(rows, {} + {id}, o, now) {
    }
    assert Batch(rows, {} + {id}, limit - 1, now) == [];
  }

  function Round(owner: string, now: Instant): seq<Step> {
    [Step(now, Claim(owner, {}, [])), Step(now, Send(owner, false)), Step(now, GiveBack(owner, true))]
  }

  lemma ClaimsOnlyRow(net: Net, r: Row, owner: string, now: Instant)
    requires net.rows == map[r.event.id := r] && Claimable(r, now) && owner !in net.workers && net.config.batchSize >= 1
    ensures var claimed := r.(lease := Some(Lease(owner, now + net.config.leaseTtl)));
            Next(net, Round(owner, now)[0]) ==
            net.(rows := map[r.event.id := claimed], clock := now,
                 workers := net.workers[owner := Busy([claimed], now + net.config.leaseTtl, Claimed)])
  {
    OneRowBatch(r, net.config.batchSize, now);
    var claimed := r.(lease := Some(Lease(owner, now + net.config.leaseTtl)));
    assert Leased(net.rows, [r.event.id], Lease(owner, now + net.config.leaseTtl)) == map[r.event.id := claimed];
    assert Records(map[r.event.id := claimed], [r.event.id]) == [claimed];
  }

  // The only row claimed, and refused by the queue.
  function Refused(net: Net, r: Row, owner: string, now: Instant): Net {
    var claimed, until := r.(lease := Some(Lease(owner, now + net.config.leaseTtl))), now + net.config.leaseTtl;
    net.(rows := map[r.event.id := claimed], clock := now, workers := net.workers[owner := Busy([claimed], until, SendFailed)])
  }

  lemma RefusedOnlyRow(net: Net, r: Row, owner: string, now: Instant)
    requires net.rows == map[r.event.id := r] && Claimable(r, now) && owner !in net.workers && net.config.batchSize >= 1
    ensures Next(Next(net, Round(owner, now)[0]), Round(owner, now)[1]) == Refused(net, r, owner, now)
  {
    ClaimsOnlyRow(net, r, owner, now);
    assert Next(net, Round(owner, now)[0]).workers[owner].phase == Claimed;
  }

  lemma HalfRound(net: Net, r: Row, owner: string, now: Instant)
    requires net.rows == map[r.event.id := r] && Claimable(r, now) && owner !in net.workers && net.config.batchSize >= 1
    ensures Run(net, Round(owner, now)[..2]) == Refused(net, r, owner, now)
  {
    RefusedOnlyRow(net, r, owner, now);
    RunTwo(net, Round(owner, now)[0], Round(owner, now)[1]);
    assert Round(owner, now)[..2] == [Round(owner, now)[0], Round(owner, now)[1]];
  }

  function GivenBack(net: Net, r: Row, now: Instant): Net {
    net.(rows := map[r.event.id := r.(attempts := r.attempts + 1, nextAttempt := NextAttempt(net.config, r, now), lease := None)],
         clock := now)
  }

  lemma GivesBackOnlyRow(net: Net, r: Row, owner: string, now: Instant)
    requires net.rows == map[r.event.id := r] && Claimable(r, now) && owner !in net.workers && net.config.batchSize >= 1
    ensures Next(Refused(net, r, owner, now), Step(now, GiveBack(owner, true))) == GivenBack(net, r, now)
  {
    var held := Refused(net, r, owner, now);
    assert held.workers - {owner} == net.workers;
  }

  // One round of a publisher on the only row: claimed, refused by the queue, given back.
  lemma FailedRound(net: Net, r: Row, owner: string, now: Instant)
    requires net.rows == map[r.event.id := r] && Claimable(r, now) && owner !in net.workers && net.config.batchSize >= 1
    ensures Run(net, Round(owner, now)) == GivenBack(net, r, now)
  {
    RefusedOnlyRow(net, r, owner, now);
    GivesBackOnlyRow(net, r, owner, now);
    RunThree(net, Round(owner, now)[0], Round(owner, now)[1], Round(owner, now)[2]);
  }

  predicate TwoHolders(net: Net, id: Id) {
    exists p, q :: p in net.workers && q in net.workers && p != q && Holds(net.workers[p], id) && Holds(net.workers[q], id)
  }

  // When the second publisher's two rounds take place: past the first one's lease, and again once
  // the backoff is over.
  function Second(config: Config, e: Event): Instant {
    e.occurredAt + config.leaseTtl + 1
  }

  function Third(config: Config, e: Event): Instant {
    NextAttempt(config, NewRow(e), Second(config, e))
  }

  // "a" stalled with the only event in hand, and its lease is over.
  predicate Stalled(net: Net, config: Config, r: Row) {
    && net.rows == map[r.event.id := r] && Claimable(r, Second(config, r.event)) && r.attempts == 0 && net.config == config
    && net.workers.Keys == {"a"} && net.workers["a"].phase == SendFailed
    && |net.workers["a"].batch| == 1 && net.workers["a"].batch[0].event == r.event && net.workers["a"].batch[0].attempts == 0
  }

  lemma StallReached(config: Config, e: Event)
    requires config.batchSize >= 1
    ensures exists steps: seq<Step>, r: Row :: r.event == e && Stalled(Run(Init(config), steps), config, r)
  {
    var begin, t := [Step(e.occurredAt, Commit(e))], e.occurredAt;
    var start := Next(Init(config), begin[0]);
    assert Run(Init(config), begin) == Run(start, begin[1..]) == start;
    HalfRound(start, NewRow(e), "a", t);
    RunConcat(Init(config), begin, Round("a", t)[..2]);
    assert Stalled(Run(Init(config), begin + Round("a", t)[..2]), config, NewRow(e).(lease := Some(Lease("a", t + config.leaseTtl))));
  }

  lemma Overtaken(net: Net, config: Config, r: Row)
    requires Stalled(net, config, r) && config.batchSize >= 1
    ensures TwoHolders(Run(net, Round("b", Second(config, r.event))[..2]), r.event.id)
  {
    var t := Second(config, r.event);
    HalfRound(net, r, "b", t);
    var both := Run(net, Round("b", t)[..2]);
    assert both.workers["a"].batch[0].event.id == r.event.id && both.workers["b"].batch[0].event.id == r.event.id;
    assert Holds(both.workers["a"], r.event.id) && Holds(both.workers["b"], r.event.id);
  }

  function TwoRounds(config: Config, e: Event): seq<Step> {
    Round("b", Second(config, e)) + Round("b", Third(config, e))
  }

  lemma CountedTwice(net: Net, config: Config, r: Row)
    requires Stalled(net, config, r) && config.batchSize >= 1
    ensures var after := Run(net, TwoRounds(config, r.event));
            && after.rows.Keys == {r.event.id} && after.rows[r.event.id].attempts == 2
            && after.rows[r.event.id].publishedAt.None? && after.workers == net.workers
  {
    var t2, t3 := Second(config, r.event), Third(config, r.event);
    FailedRound(net, r, "b", t2);
    var once := GivenBack(net, r, t2);
    FailedRound(once, once.rows[r.event.id], "b", t3);
    RunConcat(net, Round("b", t2), Round("b", t3));
  }

  predicate Lowers(net: Net, after: Net, id: Id) {
    id in net.rows && id in after.rows && after.rows[id].attempts < net.rows[id].attempts
  }

  lemma LateReleaseLowers(net: Net, config: Config, r: Row)
    requires Stalled(net, config, r) && config.batchSize >= 1
    ensures var twice := Run(net, TwoRounds(config, r.event));
            Lowers(twice, Next(twice, Step(Third(config, r.event), GiveBack("a", true))), r.event.id)
  {
    CountedTwice(net, config, r);
    GiveBackLowersExactly(Run(net, TwoRounds(config, r.event)), "a", Third(config, r.event));
  }

  lemma TwoHoldersReached(config: Config, e: Event)
    requires config.batchSize >= 1
    ensures exists steps: seq<Step> :: TwoHolders(Run(Init(config), steps), e.id)
  {
    StallReached(config, e);
    var steps: seq<Step>, r: Row :| r.event == e && Stalled(Run(Init(config), steps), config, r);
    Overtaken(Run(Init(config), steps), config, r);
    RunConcat(Init(config), steps, Round("b", Second(config, e))[..2]);
    assert TwoHolders(Run(Init(config), steps + Round("b", Second(config, e))[..2]), e.id);
  }

  lemma FallingCountReached(config: Config, e: Event)
    requires config.batchSize >= 1
    ensures exists steps: seq<Step>, last: Step :: Lowers(Run(Init(config), steps), Next(Run(Init(config), steps), last), e.id)
  {
    StallReached(config, e);
    var steps: seq<Step>, r: Row :| r.event == e && Stalled(Run(Init(config), steps), config, r);
    LateReleaseLowers(Run(Init(config), steps), config, r);
    RunConcat(Init(config), steps, TwoRounds(config, e));
    var all := steps + TwoRounds(config, e);
    assert Lowers(Run(Init(config), all), Next(Run(Init(config), all), Step(Third(config, e), GiveBack("a", true))), e.id);
  }

  // Under every configuration and for every event, a publisher that stalls past its lease makes
  // this possible: another one takes the event over, fails twice, and the late release of the
  // first sets the count back from two to one.
  lemma StalledPublisher(config: Config, e: Event)
    requires config.batchSize >= 1
    ensures exists steps: seq<Step> :: TwoHolders(Run(Init(config), steps), e.id)
    ensures exists steps: seq<Step>, last: Step :: Lowers(Run(Init(config), steps), Next(Run(Init(config), steps), last), e.id)
  {
    TwoHoldersReached(config, e);
    FallingCountReached(config, e);
  }
}
