// Several publishers over one outbox: claims, sends, marks, releases and crashes interleave.
module Publishing {
  import opened Base
  import opened Store
  import opened Outbox

  // A publisher at work on the first record of its batch.
  datatype Phase = Claimed | Sent | SendFailed

  datatype Busy = Busy(batch: seq<Row>, until: Instant, phase: Phase)

  // `workers` holds the publishers with a batch in hand; `clock` is the instant of the last step.
  datatype Net = Net(config: Config, rows: Rows, sent: seq<Event>, workers: map<string, Busy>, clock: Instant)

  datatype Act =
    | Commit(e: Event)
    | Claim(owner: string, skipped: set<Id>, order: seq<Id>)
    | Send(owner: string, works: bool)
    | Mark(owner: string, stores: bool)
    | GiveBack(owner: string, stores: bool)
    | Crash(owner: string)

  datatype Step = Step(now: Instant, act: Act)

  function Init(config: Config): Net {
    Net(config, map[], [], map[], 0)
  }

  predicate In(net: Net, owner: string, phase: Phase) {
    owner in net.workers && net.workers[owner].phase == phase && net.workers[owner].batch != []
  }

  // On to the next record of the batch, if there is one.
  function Advance(workers: map<string, Busy>, owner: string): map<string, Busy>
    requires owner in workers && workers[owner].batch != []
  {
    if |workers[owner].batch| == 1 then workers - {owner}
    else workers[owner := workers[owner].(batch := workers[owner].batch[1..], phase := Claimed)]
  }

  function Seen(net: Net): State {
    State(net.rows, net.sent)
  }

  function With(net: Net, s: State, workers: map<string, Busy>): Net {
    net.(rows := s.rows, sent := s.sent, workers := workers)
  }

  // Acts that are not possible in a state change nothing.
  ghost function Effect(net: Net, act: Act, now: Instant): Net
    requires Keyed(net.rows)
  {
    match act
    case Commit(e) => if e.id in net.rows then net else net.(rows := net.rows[e.id := NewRow(e)])
    case Claim(owner, skipped, order) =>
      HandedIsTheBatch(net.rows, skipped, net.config.batchSize, now, order);
      var ids := Handed(order, Batch(net.rows, skipped, net.config.batchSize, now));
      if owner in net.workers || ids == [] then net
      else
        var until := now + net.config.leaseTtl;
        var rows := Leased(net.rows, ids, Lease(owner, until));
        net.(rows := rows, workers := net.workers[owner := Busy(Records(rows, ids), until, Claimed)])
    case Send(owner, works) =>
      if !In(net, owner, Claimed) then net
      else
        var w := net.workers[owner];
        With(net, AfterSend(Seen(net), w.batch[0], works),
             net.workers[owner := w.(phase := if works then Sent else SendFailed)])
    case Mark(owner, stores) =>
      if !In(net, owner, Sent) then net
      else With(net, AfterMark(Seen(net), net.workers[owner].batch[0], stores, now), Advance(net.workers, owner))
    case GiveBack(owner, stores) =>
      if !In(net, owner, SendFailed) then net
      else With(net, AfterRelease(Seen(net), net.config, net.workers[owner].batch[0], stores, now), Advance(net.workers, owner))
    case Crash(owner) => net.(workers := net.workers - {owner})
  }

  ghost function Next(net: Net, step: Step): (after: Net)
    requires Keyed(net.rows)
    ensures Keyed(after.rows)
  {
    Effect(net, step.act, step.now).(clock := step.now)
  }

  ghost function Run(net: Net, steps: seq<Step>): (after: Net)
    requires Keyed(net.rows)
    ensures Keyed(after.rows)
    decreases |steps|
  {
    if steps == [] then net else Run(Next(net, steps[0]), steps[1..])
  }

  // ----- safety, whatever the clocks say

  predicate OnRecord(rows: Rows, e: Event) {
    e.id in rows && rows[e.id].event == e
  }

  predicate WorkerSafe(net: Net, w: Busy) {
    && w.batch != []
    && (forall i | 0 <= i < |w.batch| :: OnRecord(net.rows, w.batch[i].event))
    && (w.phase == Sent ==> w.batch[0].event in net.sent)
  }

  ghost predicate Safe(net: Net) {
    && Keyed(net.rows)
    && (forall i | 0 <= i < |net.sent| :: OnRecord(net.rows, net.sent[i]))
    && (forall id | id in net.rows && net.rows[id].publishedAt.Some? :: net.rows[id].event in net.sent)
    && (forall o | o in net.workers :: WorkerSafe(net, net.workers[o]))
  }

  // Events keep id and payload, publications are never undone, and sends are never forgotten.
  predicate Grows(a: Net, b: Net) {
    && a.config == b.config
    && (forall id | id in a.rows :: id in b.rows && b.rows[id].event == a.rows[id].event
          && (a.rows[id].publishedAt.Some? ==> b.rows[id].publishedAt == a.rows[id].publishedAt))
    && a.sent <= b.sent
  }

  // Any update that keeps events and publications keeps the rest of what is safe.
  lemma RowsSafe(net: Net, after: Net)
    requires Safe(net) && Grows(net, after) && Keyed(after.rows)
    requires forall i | |net.sent| <= i < |after.sent| :: OnRecord(after.rows, after.sent[i])
    requires forall id | id in after.rows && after.rows[id].publishedAt.Some? ::
               after.rows[id].event in after.sent || (id in net.rows && net.rows[id].publishedAt.Some?)
    requires forall o | o in after.workers ::
               WorkerSafe(after, after.workers[o]) || (o in net.workers && after.workers[o] == net.workers[o])
    ensures Safe(after)
  {
  }

  lemma ClaimSafe(net: Net, step: Step)
    requires Safe(net) && step.act.Claim?
    ensures Safe(Next(net, step)) && Grows(net, Next(net, step))
  {
    var after := Next(net, step);
    HandedIsTheBatch(net.rows, step.act.skipped, net.config.batchSize, step.now, step.act.order);
    assert Grows(net, after);
    RowsSafe(net, after);
  }

  lemma SendSafe(net: Net, step: Step)
    requires Safe(net) && step.act.Send?
    ensures Safe(Next(net, step)) && Grows(net, Next(net, step))
  {
    var after := Next(net, step);
    if In(net, step.act.owner, Claimed) {
      assert WorkerSafe(net, net.workers[step.act.owner]);
      RowsSafe(net, after);
    }
  }

  lemma EndSafe(net: Net, step: Step)
    requires Safe(net) && (step.act.Mark? || step.act.GiveBack?)
    ensures Safe(Next(net, step)) && Grows(net, Next(net, step))
  {
    var after, owner := Next(net, step), step.act.owner;
    if In(net, owner, if step.act.Mark? then Sent else SendFailed) {
      assert WorkerSafe(net, net.workers[owner]);
      assert Grows(net, after);
      assert owner in after.workers ==> WorkerSafe(after, after.workers[owner]);
      RowsSafe(net, after);
    }
  }

  lemma StepSafe(net: Net, step: Step)
    requires Safe(net)
    ensures Safe(Next(net, step)) && Grows(net, Next(net, step))
  {
    match step.act
    case Commit(e) => RowsSafe(net, Next(net, step));
    case Claim(_, _, _) => ClaimSafe(net, step);
    case Send(_, _) => SendSafe(net, step);
    case Mark(_, _) => EndSafe(net, step);
    case GiveBack(_, _) => EndSafe(net, step);
    case Crash(_) => RowsSafe(net, Next(net, step));
  }

  // Over any run of any number of publishers, with no assumption on clocks or leases: only
  // committed events are sent, unchanged; whatever is marked published was sent; and no
  // publication is undone.
  lemma {:induction false} RunSafe(net: Net, steps: seq<Step>)
    requires Safe(net)
    ensures Safe(Run(net, steps)) && Grows(net, Run(net, steps))
    decreases |steps|
  {
    if steps != [] {
      StepSafe(net, steps[0]);
      RunSafe(Next(net, steps[0]), steps[1..]);
    }
  }

  lemma {:induction false} RunConcat(net: Net, xs: seq<Step>, ys: seq<Step>)
    requires Keyed(net.rows)
    ensures Run(net, xs + ys) == Run(Run(net, xs), ys)
    decreases |xs|
  {
    if xs == [] {
      assert xs + ys == ys;
    } else {
      assert (xs + ys)[1..] == xs[1..] + ys;
      RunConcat(Next(net, xs[0]), xs[1..], ys);
    }
  }

  lemma RunTwo(net: Net, x: Step, y: Step)
    requires Keyed(net.rows)
    ensures Run(net, [x, y]) == Next(Next(net, x), y)
  {
    assert [x, y][1..] == [y] && [y][1..] == [];
    assert Run(Next(net, x), [y]) == Run(Next(Next(net, x), y), []);
  }

  lemma RunThree(net: Net, x: Step, y: Step, z: Step)
    requires Keyed(net.rows)
    ensures Run(net, [x, y, z]) == Next(Next(Next(net, x), y), z)
  {
    assert [x, y, z][1..] == [y, z];
    RunTwo(Next(net, x), y, z);
  }
}
