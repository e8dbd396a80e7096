// How a concurrent unit ends, told on the tables and the log of commits; and that a unit with
// nobody in its way does what the same call does alone.
module Endings {
  import opened Base
  import opened Wagering
  import opened Wallets
  import opened Store
  import opened Process
  import opened Resolve
  import opened Units
  import opened Invariant
  import opened Legality
  import opened Admission
  import opened Steps
  import opened Interleaving
  import opened Isolation
  import opened Worker

  // ----- what is left behind

  // The tables a delivery sees before its decision: the committed ones with its own inbox row.
  function WithRow(db: Db, w: Work): Db {
    match w.inbox
    case None => db
    case Some((key, hash)) => db.(inbox := db.inbox[key := hash])
  }

  function KeyOf(w: Work): Option<InboxKey> {
    match w.inbox case None => None case Some((key, _)) => Some(key)
  }

  // The unit is gone; it committed these tables.
  ghost predicate Committed(s: System, after: System, u: nat, db: Db, effect: Option<Delta>)
    requires u in s.units
  {
    after == s.(db := db, units := s.units - {u}, log := s.log + [Commit(KeyOf(s.units[u]), effect)])
  }

  // The unit is gone and left no trace.
  ghost predicate RolledBack(s: System, after: System, u: nat) {
    after == s.(units := s.units - {u})
  }

  // A delivery decided against its command, for a reason no redelivery can cure, or answered from
  // the record: it commits its inbox row and nothing else.
  lemma RefusedDeliveryCommits(s: System, u: nat, ids: Ids, now: Instant)
    requires Enabled(s, Finish(u, ids, now)) && s.units[u].inbox.Some?
    requires var plan := Decision(s.policy, s.units[u], ids, now);
             plan.Reply? || (plan.Refuse? && plan.error != CommitFailed && plan.error != Infrastructure)
    ensures Committed(s, Next(s, Finish(u, ids, now)), u, WithRow(s.db, s.units[u]), None)
  {
  }

  // Over HTTP and in the worker a refusal leaves no trace, and an answer from the record commits
  // nothing new.
  lemma RefusalLeavesNoTrace(s: System, u: nat, ids: Ids, now: Instant)
    requires Enabled(s, Finish(u, ids, now)) && s.units[u].inbox.None?
    ensures Decision(s.policy, s.units[u], ids, now).Refuse? ==> RolledBack(s, Next(s, Finish(u, ids, now)), u)
    ensures Decision(s.policy, s.units[u], ids, now).Reply? ==> Committed(s, Next(s, Finish(u, ids, now)), u, s.db, None)
  {
  }

  // The statements of the writes all go through.
  ghost predicate AllAdmitted(db: Db, d: Delta) {
    RunDelta(db, d).error.None?
  }

  // Writes whose statements are all admitted are committed whole, with the inbox row of a delivery:
  // the transaction row, the events, the entry and the wallet row of a movement. Otherwise nothing
  // is.
  lemma WritesCommitWhole(s: System, u: nat, ids: Ids, now: Instant)
    requires Inv(s.db) && UnitsOk(s) && Enabled(s, Finish(u, ids, now)) && Decision(s.policy, s.units[u], ids, now).Write?
    ensures var d, after, base := Decision(s.policy, s.units[u], ids, now).delta, Next(s, Finish(u, ids, now)), WithRow(s.db, s.units[u]);
            if AllAdmitted(base, d) then
              && (d.move.Some? ==> d.move.value.entry.Ok?)
              && Committed(s, after, u,
                   base.(txs := base.txs[d.tx.info.id := d.tx], outbox := base.outbox + d.events,
                         ledger := if d.move.Some? then base.ledger + [d.move.value.entry.value] else base.ledger,
                         wallets := if d.move.Some? then base.wallets[d.move.value.wallet.id := d.move.value.wallet] else base.wallets),
                   Some(d))
            else RolledBack(s, after, u)
  {
    var w := s.units[u];
    assert WorkOk(s.db, w) && w.answer.None?;
    SnapshotOk(s.db, w);
    DecisionRunsWhole(s.policy, Snapshot(s.db, w), w, ids, now);
    WholeEnds(s, u, Decision(s.policy, w, ids, now));
  }

  lemma WholeEnds(s: System, u: nat, plan: Plan)
    requires u in s.units && plan.Write? && RunsWhole(Snapshot(s.db, s.units[u]), s.units[u].inbox.Some?, plan.delta)
    ensures var base, d, after := WithRow(s.db, s.units[u]), plan.delta, Ended(s, u, EndWith(s.db, s.units[u], plan));
            if AllAdmitted(base, d) then
              && (d.move.Some? ==> d.move.value.entry.Ok?)
              && Committed(s, after, u,
                   base.(txs := base.txs[d.tx.info.id := d.tx], outbox := base.outbox + d.events,
                         ledger := if d.move.Some? then base.ledger + [d.move.value.entry.value] else base.ledger,
                         wallets := if d.move.Some? then base.wallets[d.move.value.wallet.id := d.move.value.wallet] else base.wallets),
                   Some(d))
            else RolledBack(s, after, u)
  {
    assert Snapshot(s.db, s.units[u]) == WithRow(s.db, s.units[u]);
  }

  lemma CrashLeavesNoTrace(s: System, u: nat)
    requires Enabled(s, Crash(u))
    ensures RolledBack(s, Next(s, Crash(u)), u)
  {
  }

  // ----- a unit with nobody in its way

  ghost function Taken(s: System, step: Step): System {
    if Enabled(s, step) then Next(s, step) else s
  }

  ghost function Try(db: Db, w: Work, step: Step): Work {
    if CanAdvance(w, step) then Advance(db, w, step) else w
  }

  // The statements of a unit, in program order; those that do not apply are skipped.
  function Reads(u: nat): seq<Step> {
    [Lock(u), ReadKey(u), ReadExternal(u), ReadReference(u), ReadReverted(u)]
  }

  ghost function AllRead(db: Db, w: Work, u: nat): Work {
    Try(db, Try(db, Try(db, Try(db, Try(db, w, Lock(u)), ReadKey(u)), ReadExternal(u)), ReadReference(u)), ReadReverted(u))
  }

  // No other open unit holds the lock this one may need.
  predicate Free(s: System, u: nat, walletId: Id) {
    forall v | v in s.units && v != u && s.units[v].wallet.Some? :: s.units[v].wallet.value.id != walletId
  }

  lemma StatementTaken(s: System, u: nat, step: Step)
    requires u in s.units && step in Reads(u) && (!s.units[u].job.Unparsed? ==> Free(s, u, JobWallet(s.units[u].job)))
    ensures Taken(s, step) == s.(units := s.units[u := Try(s.db, s.units[u], step)])
  {
    if !CanAdvance(s.units[u], step) {
      assert s.units[u := s.units[u]] == s.units;
    }
  }

  lemma TryKeepsJob(db: Db, w: Work, step: Step)
    ensures Try(db, w, step).job == w.job && Try(db, w, step).inbox == w.inbox
  {
  }

  ghost function TryAll(db: Db, w: Work, steps: seq<Step>): Work
    decreases |steps|
  {
    if steps == [] then w else TryAll(db, Try(db, w, steps[0]), steps[1..])
  }

  lemma {:induction false} StatementsTaken(s: System, u: nat, steps: seq<Step>, rest: seq<Step>)
    requires u in s.units && (forall i | 0 <= i < |steps| :: steps[i] in Reads(u))
    requires !s.units[u].job.Unparsed? ==> Free(s, u, JobWallet(s.units[u].job))
    ensures Run(s, steps + rest) == Run(s.(units := s.units[u := TryAll(s.db, s.units[u], steps)]), rest)
    decreases |steps|
  {
    if steps == [] {
      assert steps + rest == rest && s.units[u := s.units[u]] == s.units;
    } else {
      var w := Try(s.db, s.units[u], steps[0]);
      var next := s.(units := s.units[u := w]);
      StatementTaken(s, u, steps[0]);
      TryKeepsJob(s.db, s.units[u], steps[0]);
      assert (steps + rest)[1..] == steps[1..] + rest && Run(s, steps + rest) == Run(Taken(s, steps[0]), steps[1..] + rest);
      StatementsTaken(next, u, steps[1..], rest);
      assert next.units[u := TryAll(s.db, w, steps[1..])] == s.units[u := TryAll(s.db, w, steps[1..])];
    }
  }

  lemma ReadsAreAll(db: Db, w: Work, u: nat)
    ensures TryAll(db, w, Reads(u)) == AllRead(db, w, u)
  {
    var w1 := Try(db, w, Lock(u));
    var w2 := Try(db, w1, ReadKey(u));
    var w3 := Try(db, w2, ReadExternal(u));
    var w4 := Try(db, w3, ReadReference(u));
    var tail := [ReadReference(u), ReadReverted(u)];
    assert Reads(u) == [Lock(u)] + ([ReadKey(u)] + ([ReadExternal(u)] + tail)) && tail == [ReadReference(u)] + ([ReadReverted(u)] + []);
    TryOne(db, w, Lock(u), [ReadKey(u)] + ([ReadExternal(u)] + tail));
    TryOne(db, w1, ReadKey(u), [ReadExternal(u)] + tail);
    TryOne(db, w2, ReadExternal(u), tail);
    TryOne(db, w3, ReadReference(u), [ReadReverted(u)] + []);
    TryOne(db, w4, ReadReverted(u), []);
  }

  lemma TryOne(db: Db, w: Work, step: Step, rest: seq<Step>)
    ensures TryAll(db, w, [step] + rest) == TryAll(db, Try(db, w, step), rest)
  {
    assert ([step] + rest)[1..] == rest;
  }

  // Having read everything from tables nobody else changed, a submission decides as it does alone.
  ghost predicate Decided(w: Work, job: Job, inbox: Option<(InboxKey, string)>, policy: Policy, ids: Ids, now: Instant, plan: Plan) {
    && Ready(w) && w.job == job && w.inbox == inbox && (w.wallet.Some? ==> w.wallet.value.balance >= 0)
    && Decision(policy, w, ids, now) == plan
  }

  lemma AnsweredStays(db: Db, w: Work, step: Step)
    requires w.answer.Some?
    ensures Try(db, w, step) == w
  {
  }

  lemma SubmissionReads(db: Db, req: Request, inbox: Option<(InboxKey, string)>, policy: Policy, u: nat, ids: Ids, now: Instant)
    requires Sound(db)
    ensures Decided(AllRead(db, Begun(Submit(req), inbox), u), Submit(req), inbox, policy, ids, now, RequestPlan(db, req, ids, now))
  {
    var w := Begun(Submit(req), inbox);
    var w1 := Try(db, w, Lock(u));
    if req.walletId in db.wallets {
      assert w1 == w.(wallet := Some(db.wallets[req.walletId]));
      LookupReads(db, req, w1, policy, u, ids, now);
    } else {
      assert w1 == Answered(w, Refuse(NotFound));
      AnsweredStays(db, w1, ReadKey(u));
      AnsweredStays(db, w1, ReadExternal(u));
      AnsweredStays(db, w1, ReadReference(u));
      AnsweredStays(db, w1, ReadReverted(u));
    }
  }

  lemma LookupReads(db: Db, req: Request, w: Work, policy: Policy, u: nat, ids: Ids, now: Instant)
    requires Sound(db) && req.walletId in db.wallets && w == Begun(Submit(req), w.inbox).(wallet := Some(db.wallets[req.walletId]))
    ensures Decided(Try(db, Try(db, Try(db, Try(db, w, ReadKey(u)), ReadExternal(u)), ReadReference(u)), ReadReverted(u)),
                    Submit(req), w.inbox, policy, ids, now, RequestPlan(db, req, ids, now))
  {
    var w3 := Try(db, Try(db, w, ReadKey(u)), ReadExternal(u));
    RecordReads(db, req, w, u);
    if ReplayPlan(db.txs, req).Some? {
      AnsweredStays(db, w3, ReadReference(u));
      AnsweredStays(db, w3, ReadReverted(u));
    } else {
      ReferenceReads(db, req, w3, policy, u, ids, now);
    }
  }

  // The two replay lookups answer what the table answers, or clear the way.
  lemma RecordReads(db: Db, req: Request, w: Work, u: nat)
    requires req.walletId in db.wallets && w == Begun(Submit(req), w.inbox).(wallet := Some(db.wallets[req.walletId]))
    ensures Try(db, Try(db, w, ReadKey(u)), ReadExternal(u)).(keyClear := true, externalClear := true)
            == w.(keyClear := true, externalClear := true, answer := ReplayPlan(db.txs, req))
    ensures ReplayPlan(db.txs, req).None? ==>
              Try(db, Try(db, w, ReadKey(u)), ReadExternal(u)) == w.(keyClear := true, externalClear := true)
  {
    var w2 := Try(db, w, ReadKey(u));
    if FindByKey(db.txs, req.cmd.provider, req.cmd.key).Some? {
      assert w2.answer.Some?;
      AnsweredStays(db, w2, ReadExternal(u));
    } else {
      assert w2 == w.(keyClear := true);
    }
  }

  // A decision depends on what it looks at alone.
  lemma SeenEnough(req: Request, w: WalletRow, a: View, b: View, ids: Ids, now: Instant)
    requires w.balance >= 0
    requires IsReversal(req.kind) && w.playerId == req.playerId && w.currency == req.amount.currency ==>
               && a.reference == b.reference
               && (a.reference.Some? && IsTerminal(a.reference.value.status)
                   && ReversalRejection(a.reference.value, req.kind, req.walletId, req.playerId, req.cmd.round, req.amount).None? ==>
                     a.reverted == b.reverted)
    ensures ApplyPlan(req, w, a, ids, now) == ApplyPlan(req, w, b, ids, now)
  {
  }

  lemma ReferenceReads(db: Db, req: Request, w: Work, policy: Policy, u: nat, ids: Ids, now: Instant)
    requires Sound(db) && req.walletId in db.wallets && w.job == Submit(req) && w.answer.None? && w.wallet == Some(db.wallets[req.walletId])
    requires w.keyClear && w.externalClear && w.reference.None? && w.reverted.None?
    ensures Decided(Try(db, Try(db, w, ReadReference(u)), ReadReverted(u)), Submit(req), w.inbox, policy, ids, now,
                    ApplyPlan(req, db.wallets[req.walletId], ViewOf(db, req.cmd.provider, req.cmd.refExternal), ids, now))
  {
    var seen := ReferenceSeen(db, w, u);
    SeenEnough(req, db.wallets[req.walletId], SeenView(seen), ViewOf(db, req.cmd.provider, req.cmd.refExternal), ids, now);
  }

  lemma ReferenceSeen(db: Db, w: Work, u: nat) returns (seen: Work)
    requires !w.job.Unparsed? && w.answer.None? && w.wallet.Some? && w.reference.None? && w.reverted.None?
    requires w.job.Submit? ==> w.keyClear && w.externalClear
    ensures seen == Try(db, Try(db, w, ReadReference(u)), ReadReverted(u)) && Ready(seen)
    ensures seen == w.(reference := seen.reference, reverted := seen.reverted)
    ensures NeedsReference(w) ==> seen.reference == Some(FindByExternalId(db.txs, JobProvider(w.job), JobReference(w.job)))
    ensures NeedsReference(w) && NeedsReverted(seen) ==>
              seen.reverted == Some(HasSuccessfulReversal(db.txs, seen.reference.value.value.info.id))
  {
    var referred := Try(db, w, ReadReference(u));
    seen := Try(db, referred, ReadReverted(u));
    if NeedsReference(w) {
      assert referred == w.(reference := Some(FindByExternalId(db.txs, JobProvider(w.job), JobReference(w.job))));
    }
  }

  lemma ResumptionSeesEnough(p: Tx, w: WalletRow, a: View, b: View, policy: Policy, ids: Ids, now: Instant)
    requires w.balance >= 0 && a.reference == b.reference
    requires a.reference.Some? && IsTerminal(a.reference.value.status)
             && ReversalRejection(a.reference.value, p.info.kind, p.info.walletId, p.info.playerId, p.info.round, p.info.amount).None? ==>
               a.reverted == b.reverted
    ensures ResumePlan(p, w, a, policy, ids, now) == ResumePlan(p, w, b, policy, ids, now)
  {
  }

  lemma ResumptionReads(db: Db, p: Tx, at: Instant, policy: Policy, u: nat, ids: Ids, now: Instant)
    requires Sound(db) && p.info.walletId in db.wallets
    ensures Decided(AllRead(db, Begun(Resumption(p, at), None), u), Resumption(p, at), None, policy, ids, now,
                    ResumeOn(db, p, policy, ids, at))
  {
    var w := Begun(Resumption(p, at), None);
    var w1 := w.(wallet := Some(db.wallets[p.info.walletId]));
    assert Try(db, Try(db, Try(db, w, Lock(u)), ReadKey(u)), ReadExternal(u)) == w1;
    var seen := ReferenceSeen(db, w1, u);
    ResumptionSeesEnough(p, db.wallets[p.info.walletId], SeenView(seen), ViewOf(db, p.info.provider, p.info.refExternal), policy, ids, at);
  }

  lemma EndsAsUnit(db: Db, w: Work, plan: Plan)
    ensures w.inbox.None? ==> EndWith(db, w, plan).db == CommitOrRollback(db, PlanExec(db, plan))
    ensures w.inbox.Some? ==>
              EndWith(db, w, plan).db == HandleCommit(db, Record(db, w.inbox.value.0, w.inbox.value.1), plan).0
  {
  }

  lemma FinishTaken(s: System, u: nat, ids: Ids, now: Instant)
    requires u in s.units && Enabled(s, Finish(u, ids, now))
    ensures var after, w := Run(s, [Finish(u, ids, now)]), s.units[u];
            && after.db == EndWith(s.db, w, Decision(s.policy, w, ids, now)).db && after.units == s.units - {u}
  {
    assert [Finish(u, ids, now)][1..] == [];
    assert Run(s, [Finish(u, ids, now)]) == Run(Next(s, Finish(u, ids, now)), []);
  }

  lemma UnitRuns(s: System, u: nat, w: Work, ids: Ids, now: Instant)
    requires u in s.units && (!s.units[u].job.Unparsed? ==> Free(s, u, JobWallet(s.units[u].job))) && w == AllRead(s.db, s.units[u], u)
    ensures Run(s, Reads(u) + [Finish(u, ids, now)]) == Run(s.(units := s.units[u := w]), [Finish(u, ids, now)])
  {
    StatementsTaken(s, u, Reads(u), [Finish(u, ids, now)]);
    ReadsAreAll(s.db, s.units[u], u);
  }

  lemma RunFrom(s: System, first: Step, rest: seq<Step>)
    ensures Run(s, [first] + rest) == Run(Taken(s, first), rest)
  {
    assert ([first] + rest)[1..] == rest;
  }

  lemma BegunReads(s: System, u: nat, begun: Work, ids: Ids, now: Instant)
    requires u !in s.units && (!begun.job.Unparsed? ==> Free(s, u, JobWallet(begun.job)))
    ensures Run(s.(units := s.units[u := begun]), Reads(u) + [Finish(u, ids, now)])
            == Run(s.(units := s.units[u := AllRead(s.db, begun, u)]), [Finish(u, ids, now)])
  {
    var open, w := s.(units := s.units[u := begun]), AllRead(s.db, begun, u);
    UnitRuns(open, u, w, ids, now);
    assert open.units[u := w] == s.units[u := w];
  }

  lemma OpenUnitEnds(s: System, u: nat, begun: Work, w: Work, ids: Ids, now: Instant, plan: Plan)
    requires u !in s.units && (!begun.job.Unparsed? ==> Free(s, u, JobWallet(begun.job))) && w == AllRead(s.db, begun, u)
    requires Decided(w, begun.job, begun.inbox, s.policy, ids, now, plan) && (begun.inbox.Some? && plan.Write? ==> Delivered(plan.delta))
    ensures var after := Run(s.(units := s.units[u := begun]), Reads(u) + [Finish(u, ids, now)]);
            after.db == EndWith(s.db, w, plan).db && after.units == s.units
  {
    BegunReads(s, u, begun, ids, now);
    ReadAndFinished(s, u, w, begun.job, begun.inbox, ids, now, plan);
  }

  // A unit begun with this work, its statements taken one after the other, then its end.
  lemma UnitAlone(s: System, first: Step, u: nat, begun: Work, ids: Ids, now: Instant, plan: Plan)
    requires u !in s.units && Taken(s, first) == s.(units := s.units[u := begun])
    requires !begun.job.Unparsed? ==> Free(s, u, JobWallet(begun.job))
    requires Decided(AllRead(s.db, begun, u), begun.job, begun.inbox, s.policy, ids, now, plan)
    requires begun.inbox.Some? && plan.Write? ==> Delivered(plan.delta)
    ensures var after := Run(s, [first] + (Reads(u) + [Finish(u, ids, now)]));
            after.db == EndWith(s.db, AllRead(s.db, begun, u), plan).db && after.units == s.units
  {
    RunFrom(s, first, Reads(u) + [Finish(u, ids, now)]);
    OpenUnitEnds(s, u, begun, AllRead(s.db, begun, u), ids, now, plan);
  }

  // The last step of a unit that read everything.
  lemma ReadAndFinished(
    s: System, u: nat, w: Work, job: Job, inbox: Option<(InboxKey, string)>, ids: Ids, now: Instant, plan: Plan)
    requires u !in s.units && Decided(w, job, inbox, s.policy, ids, now, plan)
    requires inbox.Some? && plan.Write? ==> Delivered(plan.delta)
    ensures var after := Run(s.(units := s.units[u := w]), [Finish(u, ids, now)]);
            after.db == EndWith(s.db, w, plan).db && after.units == s.units
  {
    var ready := s.(units := s.units[u := w]);
    FinishTaken(ready, u, ids, now);
    assert ready.units - {u} == s.units;
  }

  lemma {:induction false} NothingBegun(s: System, u: nat, steps: seq<Step>)
    requires u !in s.units && forall i | 0 <= i < |steps| :: steps[i] in Reads(u) || (steps[i].Finish? && steps[i].u == u)
    ensures Run(s, steps) == s
    decreases |steps|
  {
    if steps != [] {
      assert steps[0] in Reads(u) || (steps[0].Finish? && steps[0].u == u);
      NothingBegun(s, u, steps[1..]);
    }
  }

  // An HTTP call that runs while nobody else holds its wallet commits what it does alone.
  lemma HttpAlone(s: System, u: nat, c: Command, ids: Ids, now: Instant)
    requires Sound(s.db) && u !in s.units && (Parse(s.codec, c).Ok? ==> Free(s, u, Parse(s.codec, c).value.walletId))
    ensures var after := Run(s, [Http(u, c)] + (Reads(u) + [Finish(u, ids, now)]));
            after.db == ExecuteStep(s.db, s.codec, c, ids, now).0 && after.units == s.units
  {
    if Parse(s.codec, c).Ok? {
      var req := Parse(s.codec, c).value;
      var plan, begun := RequestPlan(s.db, req, ids, now), Begun(Submit(req), None);
      SubmissionReads(s.db, req, None, s.policy, u, ids, now);
      UnitAlone(s, Http(u, c), u, begun, ids, now, plan);
      EndsAsUnit(s.db, AllRead(s.db, begun, u), plan);
    } else {
      NothingBegun(s, u, Reads(u) + [Finish(u, ids, now)]);
      assert ([Http(u, c)] + (Reads(u) + [Finish(u, ids, now)]))[1..] == Reads(u) + [Finish(u, ids, now)];
    }
  }

  // A delivery that nobody else is handling, while nobody else holds its wallet.
  lemma ReceiveAlone(s: System, u: nat, m: Message, ids: Ids, now: Instant)
    requires Sound(s.db) && u !in s.units && ids.entry != 0 && ids.txEvent != 0 && ids.balanceEvent != 0
    requires ParseEnvelope(s.channel, m).Ok? ==> NobodyHolds(s, (w: Work) => HoldsKey(w, Key(s.channel, m)))
    requires ParseEnvelope(s.channel, m).Ok? && Parse(s.codec, m.data.value).Ok? ==> Free(s, u, Parse(s.codec, m.data.value).value.walletId)
    ensures var after := Run(s, [Receive(u, m)] + (Reads(u) + [Finish(u, ids, now)]));
            after.db == HandleStep(s.db, s.codec, s.channel, m, ids, now).0 && after.units == s.units
  {
    if ParseEnvelope(s.channel, m).Err? || Key(s.channel, m) in s.db.inbox {
      var steps := Reads(u) + [Finish(u, ids, now)];
      assert ([Receive(u, m)] + steps)[1..] == steps;
      NothingBegun(s, u, steps);
    } else {
      var plan := ExecutePlan(s.db, s.codec, m.data.value, ids, now);
      var begun := Begun(JobOf(s.codec, m.data.value), Some((Key(s.channel, m), PayloadHash(s.codec, m.data.value))));
      CommandReads(s.db, s.codec, m.data.value, begun.inbox, s.policy, u, ids, now);
      UnitAlone(s, Receive(u, m), u, begun, ids, now, plan);
      EndsAsUnit(s.db, AllRead(s.db, begun, u), plan);
      HandlesPlan(s.db, s.codec, s.channel, m, ids, now);
    }
  }

  lemma CommandReads(
    db: Db, codec: Codec, c: Command, inbox: Option<(InboxKey, string)>, policy: Policy, u: nat, ids: Ids, now: Instant)
    requires Sound(db) && ids.entry != 0 && ids.txEvent != 0 && ids.balanceEvent != 0
    ensures var plan, begun := ExecutePlan(db, codec, c, ids, now), Begun(JobOf(codec, c), inbox);
            && Decided(AllRead(db, begun, u), begun.job, inbox, policy, ids, now, plan)
            && (plan.Write? ==> Delivered(plan.delta))
  {
    match Parse(codec, c)
    case Err(e) => AnsweredThroughout(db, Begun(Unparsed(e), inbox), u);
    case Ok(req) =>
      SubmissionReads(db, req, inbox, policy, u, ids, now);
      if RequestPlan(db, req, ids, now).Write? {
        ArrivedIsDelivered(db, req, ids, now);
      }
  }

  lemma ConcernsDelivered(plan: Plan, info: Info, w: WalletRow, ids: Ids, now: Instant)
    requires plan.Write? && Concerns(plan, true, info, w, ids, now) && info.id != 0 && w.id != 0
    requires ids.entry != 0 && ids.txEvent != 0 && ids.balanceEvent != 0
    ensures Delivered(plan.delta)
  {
  }

  lemma ArrivedIsDelivered(db: Db, req: Request, ids: Ids, now: Instant)
    requires Sound(db) && ids.entry != 0 && ids.txEvent != 0 && ids.balanceEvent != 0
    requires RequestPlan(db, req, ids, now).Write?
    ensures Delivered(RequestPlan(db, req, ids, now).delta)
  {
    var w := db.wallets[req.walletId];
    ApplyConcerns(req, w, ViewOf(db, req.cmd.provider, req.cmd.refExternal), ids, now);
    ConcernsDelivered(RequestPlan(db, req, ids, now), InfoFor(req, ids.tx, now), w, ids, now);
  }

  lemma HandlesPlan(db: Db, codec: Codec, ch: Channel, m: Message, ids: Ids, now: Instant)
    requires Sound(db) && ParseEnvelope(ch, m).Ok? && Key(ch, m) !in db.inbox
    ensures HandleStep(db, codec, ch, m, ids, now).0 ==
            HandleCommit(db, Record(db, Key(ch, m), PayloadHash(codec, m.data.value)), ExecutePlan(db, codec, m.data.value, ids, now)).0
  {
    var recorded := Record(db, Key(ch, m), PayloadHash(codec, m.data.value));
    assert ExecutePlan(recorded, codec, m.data.value, ids, now) == ExecutePlan(db, codec, m.data.value, ids, now);
  }

  lemma AnsweredThroughout(db: Db, w: Work, u: nat)
    requires w.answer.Some?
    ensures AllRead(db, w, u) == w
  {
    AnsweredStays(db, w, Lock(u));
    AnsweredStays(db, w, ReadKey(u));
    AnsweredStays(db, w, ReadExternal(u));
    AnsweredStays(db, w, ReadReference(u));
    AnsweredStays(db, w, ReadReverted(u));
  }

  lemma ClaimTaken(s: System, u: nat, p: Tx, now: Instant)
    requires u !in s.units && IsFirst(s.db.txs, p, now) && NobodyHolds(s, (w: Work) => HoldsRow(w, p.info.id))
    ensures Taken(s, Claim(u, p.info.id, now)) == s.(units := s.units[u := Begun(Resumption(p, now), None)])
  {
  }

  lemma RoundIsResumption(db: Db, p: Tx, policy: Policy, ids: Ids, now: Instant)
    requires Sound(db) && IsFirst(db.txs, p, now)
    ensures WorkerStep(db, policy, ids, now).0 == CommitOrRollback(db, PlanExec(db, ResumeOn(db, p, policy, ids, now)))
  {
    ClaimsTheFirst(db, p, now);
  }

  // A round of the worker that claims the first due row, while nobody else holds the row or its wallet.
  lemma ClaimAlone(s: System, u: nat, p: Tx, ids: Ids, claimed: Instant, finished: Instant)
    requires Sound(s.db) && u !in s.units && p.info.walletId in s.db.wallets && IsFirst(s.db.txs, p, claimed)
    requires Free(s, u, p.info.walletId) && NobodyHolds(s, (w: Work) => HoldsRow(w, p.info.id))
    ensures var after := Run(s, [Claim(u, p.info.id, claimed)] + (Reads(u) + [Finish(u, ids, finished)]));
            after.db == WorkerStep(s.db, s.policy, ids, claimed).0 && after.units == s.units
  {
    var plan, begun := ResumeOn(s.db, p, s.policy, ids, claimed), Begun(Resumption(p, claimed), None);
    ResumptionReads(s.db, p, claimed, s.policy, u, ids, finished);
    ClaimTaken(s, u, p, claimed);
    UnitAlone(s, Claim(u, p.info.id, claimed), u, begun, ids, finished, plan);
    EndsAsUnit(s.db, AllRead(s.db, begun, u), plan);
    RoundIsResumption(s.db, p, s.policy, ids, claimed);
  }

  // ----- no deadlock

  function NextOf(w: Work, u: nat): Step {
    if CanLock(w) then Lock(u)
    else if CanReadKey(w) then ReadKey(u)
    else if CanReadExternal(w) then ReadExternal(u)
    else if CanReadReference(w) then ReadReference(u)
    else if CanReadReverted(w) then ReadReverted(u)
    else Finish(u, Ids(1, 1, 1, 2), 1)
  }

  lemma FinishPossible(s: System, u: nat)
    requires Sound(s.db) && u in s.units && WorkOk(s.db, s.units[u]) && NextOf(s.units[u], u).Finish?
    ensures Enabled(s, NextOf(s.units[u], u))
  {
    var w, ids := s.units[u], Ids(1, 1, 1, 2);
    assert LockHolds(s.db, w) && ClaimHolds(s.db, w);
    assert Ready(w) && (w.wallet.Some? ==> WalletChecks(w.wallet.value));
    if w.inbox.Some? && w.answer.None? && Decision(s.policy, w, ids, 1).Write? {
      ApplyConcerns(w.job.req, w.wallet.value, SeenView(w), ids, 1);
      ConcernsDelivered(Decision(s.policy, w, ids, 1), InfoFor(w.job.req, ids.tx, 1), w.wallet.value, ids, 1);
    }
  }

  lemma UnlockedMoves(s: System, u: nat)
    requires Sound(s.db) && u in s.units && WorkOk(s.db, s.units[u]) && !CanLock(s.units[u])
    ensures Enabled(s, NextOf(s.units[u], u))
  {
    if NextOf(s.units[u], u).Finish? {
      FinishPossible(s, u);
    }
  }

  // In every reachable state each open unit can take its next step, or waits for a wallet whose
  // holder can: units never wait for each other in a circle. And each may crash at any time.
  lemma NeverDeadlocked(s: System, u: nat)
    requires Reachable(s) && u in s.units
    ensures Enabled(s, Crash(u))
    ensures Enabled(s, NextOf(s.units[u], u))
            || (CanLock(s.units[u])
                && exists v :: v in s.units && v != u && HoldsWallet(s.units[v], JobWallet(s.units[u].job))
                               && !CanLock(s.units[v]) && Enabled(s, NextOf(s.units[v], v)))
  {
    ReachableOk(s);
    assert WorkOk(s.db, s.units[u]);
    if !CanLock(s.units[u]) {
      UnlockedMoves(s, u);
    } else if !Enabled(s, Lock(u)) {
      var v :| v in s.units && HoldsWallet(s.units[v], JobWallet(s.units[u].job));
      assert WorkOk(s.db, s.units[v]);
      UnlockedMoves(s, v);
    }
  }

  // ----- what the queue may write

  predicate AllowedProvider(ch: Channel, provider: string) {
    provider in ch.allowed && provider != ""
  }

  predicate AllowedWork(ch: Channel, w: Work) {
    w.inbox.Some? ==> w.job.Unparsed? || (w.job.Submit? && AllowedProvider(ch, w.job.req.cmd.provider))
  }

  // What a delivery committed is stored, under a provider on the list.
  ghost predicate AllowedCommit(ch: Channel, db: Db, c: Commit) {
    c.inbox.Some? && c.effect.Some? ==>
      var t := c.effect.value.tx;
      AllowedProvider(ch, t.info.provider) && t.info.id in db.txs && db.txs[t.info.id].info == t.info
  }

  ghost predicate OnlyAllowed(s: System) {
    && (forall u | u in s.units :: AllowedWork(s.channel, s.units[u]))
    && (forall i | 0 <= i < |s.log| :: AllowedCommit(s.channel, s.db, s.log[i]))
  }

  lemma ArrivalsAllowed(s: System, step: Step)
    requires OnlyAllowed(s) && Enabled(s, step) && (step.Http? || step.Receive? || step.Claim? || step.Crash?)
    ensures OnlyAllowed(Next(s, step))
  {
  }

  lemma ReadsAllowed(s: System, step: Step)
    requires Keyed(s.db) && OnlyAllowed(s) && Enabled(s, step)
    requires step.Lock? || step.ReadKey? || step.ReadExternal? || step.ReadReference? || step.ReadReverted?
    ensures OnlyAllowed(Next(s, step))
  {
    AdvanceKeeps(s.db, s.units[step.u], step);
  }

  lemma EffectAllowed(ch: Channel, policy: Policy, w: Work, ids: Ids, now: Instant)
    requires AllowedWork(ch, w) && w.inbox.Some? && Ready(w) && (w.wallet.Some? ==> w.wallet.value.balance >= 0)
    requires (w.answer.Some? ==> !w.answer.value.Write?) && (w.job.Unparsed? ==> w.answer.Some?)
    requires Decision(policy, w, ids, now).Write?
    ensures AllowedProvider(ch, Decision(policy, w, ids, now).delta.tx.info.provider)
  {
    ApplyConcerns(w.job.req, w.wallet.value, SeenView(w), ids, now);
  }

  lemma CommitsStay(ch: Channel, a: Db, b: Db, log: seq<Commit>)
    requires TxsGrow(a.txs, b.txs) && forall i | 0 <= i < |log| :: AllowedCommit(ch, a, log[i])
    ensures forall i | 0 <= i < |log| :: AllowedCommit(ch, b, log[i])
  {
  }

  lemma EndedAllowed(s: System, u: nat, plan: Plan)
    requires u in s.units && OnlyAllowed(s) && WholeOrNothing(s.db, s.units[u], plan)
    requires TxsGrow(s.db.txs, EndWith(s.db, s.units[u], plan).db.txs)
    requires s.units[u].inbox.Some? && plan.Write? ==> AllowedProvider(s.channel, plan.delta.tx.info.provider)
    ensures OnlyAllowed(Ended(s, u, EndWith(s.db, s.units[u], plan)))
  {
    CommitsStay(s.channel, s.db, EndWith(s.db, s.units[u], plan).db, s.log);
  }

  lemma FinishAllowed(s: System, u: nat, ids: Ids, now: Instant)
    requires Inv(s.db) && UnitsOk(s) && OnlyAllowed(s) && Enabled(s, Finish(u, ids, now))
    ensures OnlyAllowed(Next(s, Finish(u, ids, now)))
  {
    var w := s.units[u];
    assert WorkOk(s.db, w) && AllowedWork(s.channel, w);
    EndShape(s.policy, s.db, w, ids, now);
    EndLocal(s.policy, s.db, w, ids, now);
    if w.inbox.Some? && Decision(s.policy, w, ids, now).Write? {
      EffectAllowed(s.channel, s.policy, w, ids, now);
    }
    EndedAllowed(s, u, Decision(s.policy, w, ids, now));
  }

  lemma StepAllowed(s: System, step: Step)
    requires Inv(s.db) && UnitsOk(s) && OnlyAllowed(s) && Enabled(s, step)
    ensures OnlyAllowed(Next(s, step))
  {
    match step
    case Finish(u, ids, now) => FinishAllowed(s, u, ids, now);
    case OpenWallet(_, _, _, _, _, _) =>
      OpenOk(s, step);
      CommitsStay(s.channel, s.db, Next(s, step).db, s.log);
    case Http(_, _) => ArrivalsAllowed(s, step);
    case Receive(_, _) => ArrivalsAllowed(s, step);
    case Claim(_, _, _) => ArrivalsAllowed(s, step);
    case Crash(_) => ArrivalsAllowed(s, step);
    case _ => ReadsAllowed(s, step);
  }

  lemma {:induction false} RunAllowed(s: System, steps: seq<Step>)
    requires Inv(s.db) && UnitsOk(s) && OnlyAllowed(s)
    ensures OnlyAllowed(Run(s, steps))
    decreases |steps|
  {
    if steps != [] {
      var next := if Enabled(s, steps[0]) then Next(s, steps[0]) else s;
      if Enabled(s, steps[0]) {
        StepOk(s, steps[0]);
        StepAllowed(s, steps[0]);
      }
      RunAllowed(next, steps[1..]);
    }
  }

  // Over any run, whatever a delivery committed besides its inbox row is stored under a provider
  // on the channel's list.
  lemma QueueRowsAreAllowed(s: System, i: nat)
    requires Reachable(s) && i < |s.log| && s.log[i].inbox.Some? && s.log[i].effect.Some?
    ensures var t := s.log[i].effect.value.tx;
            && t.info.id in s.db.txs && s.db.txs[t.info.id].info == t.info
            && t.info.provider in s.channel.allowed && t.info.provider != ""
  {
    var site: Site, steps: seq<Step> :| s == Run(Init(site), steps);
    EmptyIsInv();
    RunAllowed(Init(site), steps);
    assert AllowedCommit(s.channel, s.db, s.log[i]);
  }
}
