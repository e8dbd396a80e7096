// The worker on the tables: which row a round takes, when, and what becomes of it.
module Worker {
  import opened Base
  import opened MoneyModel
  import opened Wagering
  import opened Wallets
  import opened Store
  import opened Process
  import opened Resolve
  import opened Backoff
  import opened Units
  import opened Invariant
  import opened Legality
  import opened Admission
  import opened Outcomes
  import opened Steps
  import opened Texts
  import opened Effects
  import opened Swings
  import Messages
  import opened Replay
  import I = Interleaving
  import opened Isolation

  // ----- which row, and when

  predicate IsDue(t: Tx, now: Instant) {
    t.status == PendingReference && t.nextRetry.Some? && t.nextRetry.value <= now
  }

  // A stored row that waits for its reference and whose retry time has come; none such comes
  // before it in (next_retry_at, id).
  predicate IsFirst(txs: map<Id, Tx>, p: Tx, now: Instant) {
    && p.info.id in txs && txs[p.info.id] == p && IsDue(p, now)
    && forall o | o in txs ::
         IsDue(txs[o], now) ==>
           p.nextRetry.value < txs[o].nextRetry.value || (p.nextRetry.value == txs[o].nextRetry.value && p.info.id <= o)
  }

  predicate NobodyIsDue(txs: map<Id, Tx>, now: Instant) {
    forall o | o in txs :: !IsDue(txs[o], now)
  }

  // A claim takes that row, and comes back empty only if there is none.
  lemma ClaimsTheFirst(db: Db, p: Tx, now: Instant)
    requires Keyed(db)
    ensures Claimed(db.txs, now) == Some(p) <==> IsFirst(db.txs, p, now)
    ensures Claimed(db.txs, now).None? <==> NobodyIsDue(db.txs, now)
  {
    ClaimFindsWork(db.txs, now);
    if IsFirst(db.txs, p, now) {
      assert FirstDue(db.txs, p.info.id, now);
    }
  }

  lemma NothingDue(db: Db, policy: Policy, ids: Ids, now: Instant)
    requires Sound(db) && NobodyIsDue(db.txs, now)
    ensures WorkerStep(db, policy, ids, now) == (db, Ok(None))
  {
    ClaimFindsWork(db.txs, now);
  }

  // ----- what a round touches

  // Rows may be added and one may be replaced; every other stays as it is.
  predicate KeepsRowsBut(a: map<Id, Tx>, b: map<Id, Tx>, id: Id) {
    forall o | o in a && o != id :: o in b && b[o] == a[o]
  }

  predicate KeepsRows(a: map<Id, Tx>, b: map<Id, Tx>) {
    forall o | o in a :: o in b && b[o] == a[o]
  }

  lemma RunTouches(db: Db, d: Delta)
    ensures KeepsRowsBut(db.txs, RunDelta(db, d).db.txs, d.tx.info.id)
    ensures d.create ==> KeepsRows(db.txs, RunDelta(db, d).db.txs)
    ensures !d.create ==> RunDelta(db, d).db.txs.Keys == db.txs.Keys
  {
    var first := if d.create then InsertTx(db, d.tx) else UpdateTx(db, d.tx);
    if first.Ok? {
      match d.move
      case None => EventsKeepTxs(first.value, d.events);
      case Some(m) => EventsKeepTxs(RunMove(first.value, m).db, d.events);
    }
  }

  // A round writes to no transaction but the first due one, and to no wallet but that one's, by
  // what the row's kind and amount allow.
  lemma RoundTouches(db: Db, policy: Policy, ids: Ids, now: Instant)
    requires Sound(db) && Rows(db)
    ensures var after := WorkerStep(db, policy, ids, now).0;
            && after.txs.Keys == db.txs.Keys && after.inbox == db.inbox
            && (forall o | o in db.txs && after.txs[o] != db.txs[o] :: IsFirst(db.txs, db.txs[o], now))
            && (after.wallets == db.wallets
                || exists p: Tx :: IsFirst(db.txs, p, now)
                     && Swung(db.wallets, after.wallets, p.info.walletId, KindName(p.info.kind), p.info.amount.minor as int))
  {
    if Claimed(db.txs, now).Some? {
      var p := Claimed(db.txs, now).value;
      ClaimsTheFirst(db, p, now);
      assert RowState(p);
      var w := db.wallets[p.info.walletId];
      ResumeConcerns(p, w, ViewOf(db, p.info.provider, p.info.refExternal), policy, ids, now);
      ResumeSwings(p, w, ViewOf(db, p.info.provider, p.info.refExternal), policy, ids, now);
      ResumptionTouches(db, ResumeOn(db, p, policy, ids, now), p, w);
    }
  }

  lemma ResumptionTouches(db: Db, plan: Plan, p: Tx, w: WalletRow)
    requires Keyed(db) && p.info.id in db.txs && w.id in db.wallets && db.wallets[w.id] == w
    requires plan.Write? ==> !plan.delta.create && plan.delta.tx.info == p.info
    requires RowSwings(plan, w, KindName(p.info.kind), p.info.amount.minor as int)
    ensures var after := CommitOrRollback(db, PlanExec(db, plan));
            && after.txs.Keys == db.txs.Keys && KeepsRowsBut(db.txs, after.txs, p.info.id) && after.inbox == db.inbox
            && Swung(db.wallets, after.wallets, w.id, KindName(p.info.kind), p.info.amount.minor as int)
  {
    RunSwings(db, plan, w, KindName(p.info.kind), p.info.amount.minor as int);
    if plan.Write? {
      RunTouches(db, plan.delta);
      Messages.RunKeepsInbox(db, plan.delta);
    }
  }

  // ----- a scheduled row is left alone until its time

  predicate ScheduledFor(txs: map<Id, Tx>, id: Id, t: Instant) {
    id in txs && txs[id].status == PendingReference && txs[id].nextRetry == Some(t)
  }

  lemma OpeningKeepsRows(db: Db, w: WalletRow, ids: Ids)
    ensures KeepsRows(db.txs, OpenExec(db, w, ids).db.txs)
  {
    if InsertWallet(db, w).Ok? && w.balance != 0 && OpeningOf(w, ids).Ok? {
      var next, o := InsertWallet(db, w).value, OpeningOf(w, ids).value;
      if InsertTx(next, o.tx).Ok? && o.entry.Ok? && InsertEntry(InsertTx(next, o.tx).value, o.entry.value).Ok? {
        EventsKeepTxs(InsertEntry(InsertTx(next, o.tx).value, o.entry.value).value, o.events);
      }
    }
  }

  lemma NewRowsOnly(db: Db, plan: Plan)
    requires plan.Write? ==> plan.delta.create
    ensures KeepsRows(db.txs, PlanExec(db, plan).db.txs)
  {
    if plan.Write? {
      RunTouches(db, plan.delta);
    }
  }

  lemma RequestCreates(db: Db, req: Request, ids: Ids, now: Instant)
    requires Sound(db) && RequestPlan(db, req, ids, now).Write?
    ensures RequestPlan(db, req, ids, now).delta.create
  {
    ApplyConcerns(req, db.wallets[req.walletId], ViewOf(db, req.cmd.provider, req.cmd.refExternal), ids, now);
  }

  lemma RequestKeepsRows(db: Db, req: Request, ids: Ids, now: Instant)
    requires Sound(db)
    ensures KeepsRows(db.txs, PlanExec(db, RequestPlan(db, req, ids, now)).db.txs)
  {
    if RequestPlan(db, req, ids, now).Write? {
      RequestCreates(db, req, ids, now);
    }
    NewRowsOnly(db, RequestPlan(db, req, ids, now));
  }

  lemma RoundKeepsScheduled(db: Db, policy: Policy, id: Id, t: Instant, ids: Ids, now: Instant)
    requires Sound(db) && ScheduledFor(db.txs, id, t) && now < t
    ensures var after := WorkerStep(db, policy, ids, now).0; id in after.txs && after.txs[id] == db.txs[id]
  {
    if Claimed(db.txs, now).Some? {
      var p := Claimed(db.txs, now).value;
      ClaimsTheFirst(db, p, now);
      if p.info.walletId in db.wallets && ResumeOn(db, p, policy, ids, now).Write? {
        ResumeConcerns(p, db.wallets[p.info.walletId], ViewOf(db, p.info.provider, p.info.refExternal), policy, ids, now);
        RunTouches(db, ResumeOn(db, p, policy, ids, now).delta);
      }
    }
  }

  lemma SubmissionKeepsRows(db: Db, codec: Codec, c: Command, ids: Ids, now: Instant)
    requires Sound(db)
    ensures KeepsRows(db.txs, ExecuteStep(db, codec, c, ids, now).0.txs)
  {
    if Parse(codec, c).Ok? {
      RequestKeepsRows(db, Parse(codec, c).value, ids, now);
    }
  }

  lemma DeliveryKeepsRows(db: Db, codec: Codec, ch: Channel, m: Message, ids: Ids, now: Instant)
    requires Sound(db)
    ensures KeepsRows(db.txs, HandleStep(db, codec, ch, m, ids, now).0.txs)
  {
    if ParseEnvelope(ch, m).Ok? && Key(ch, m) !in db.inbox && Parse(codec, m.data.value).Ok? {
      var req := Parse(codec, m.data.value).value;
      NewDelivery(db, codec, ch, m, req, ids, now);
      RequestKeepsRows(Record(db, Key(ch, m), PayloadHash(codec, m.data.value)), req, ids, now);
    }
  }

  lemma OpenStepKeepsRows(
    db: Db, codec: Codec, player: string, amount: string, currency: string, walletId: Id, ids: Ids, now: Instant)
    ensures KeepsRows(db.txs, OpenStep(db, codec, player, amount, currency, walletId, ids, now).0.txs)
  {
    var row := OpenRow(codec, player, amount, currency, walletId, now);
    if row.Ok? {
      OpeningKeepsRows(db, row.value, ids);
    }
  }

  lemma PerformKeepsScheduled(setup: Setup, db: Db, op: Op, id: Id, t: Instant)
    requires Sound(db) && ScheduledFor(db.txs, id, t) && (op.Round? ==> op.now < t)
    ensures id in Perform(setup, db, op).txs && Perform(setup, db, op).txs[id] == db.txs[id]
  {
    match op
    case Submission(c, ids, now) => SubmissionKeepsRows(db, setup.codec, c, ids, now);
    case Delivery(m, ids, now) => DeliveryKeepsRows(db, setup.codec, setup.channel, m, ids, now);
    case Round(ids, now) => RoundKeepsScheduled(db, setup.policy, id, t, ids, now);
    case NewWallet(player, amount, currency, walletId, ids, now) =>
      OpenStepKeepsRows(db, setup.codec, player, amount, currency, walletId, ids, now);
  }

  // Whatever else happens, a row scheduled for an instant stays as it is through every round before it.
  lemma {:induction false} NotBeforeItsTime(setup: Setup, db: Db, ops: seq<Op>, id: Id, t: Instant)
    requires Sound(db) && ScheduledFor(db.txs, id, t) && forall i | 0 <= i < |ops| && ops[i].Round? :: ops[i].now < t
    ensures id in Play(setup, db, ops).txs && Play(setup, db, ops).txs[id] == db.txs[id]
    decreases |ops|
  {
    if ops != [] {
      PerformKeepsScheduled(setup, db, ops[0], id, t);
      NotBeforeItsTime(setup, Perform(setup, db, ops[0]), ops[1..], id, t);
    }
  }

  // The row is stored like this, and no open unit is resuming it.
  predicate Rests(s: I.System, p: Tx) {
    && p.info.id in s.db.txs && s.db.txs[p.info.id] == p
    && forall u | u in s.units :: s.units[u].job.Resumption? ==> s.units[u].job.pending.info.id != p.info.id
  }

  lemma LeftAlone(s: I.System, u: nat, p: Tx, e: I.Ending)
    requires u in s.units && Rests(s, p) && Local(s.db, e.db, s.units[u])
    ensures Rests(I.Ended(s, u, e), p)
  {
    assert !I.HoldsRow(s.units[u], p.info.id);
  }

  lemma FinishKeepsScheduled(s: I.System, u: nat, ids: Ids, now: Instant, p: Tx)
    requires Inv(s.db) && UnitsOk(s) && I.Enabled(s, I.Finish(u, ids, now)) && Rests(s, p)
    ensures Rests(I.Next(s, I.Finish(u, ids, now)), p)
  {
    assert WorkOk(s.db, s.units[u]);
    EndShape(s.policy, s.db, s.units[u], ids, now);
    EndLocal(s.policy, s.db, s.units[u], ids, now);
    LeftAlone(s, u, p, I.End(s.policy, s.db, s.units[u], ids, now));
  }

  lemma OpenKeepsScheduled(s: I.System, step: I.Step, p: Tx)
    requires Keyed(s.db) && step.OpenWallet? && Rests(s, p)
    ensures Rests(I.Next(s, step), p)
  {
    OpenAdds(s.db, s.codec, step.player, step.amount, step.currency, step.walletId, step.ids, step.now);
  }

  lemma BeginKeepsScheduled(s: I.System, step: I.Step, p: Tx)
    requires Keyed(s.db) && I.Enabled(s, step) && Rests(s, p) && (step.Claim? ==> !IsDue(p, step.now))
    requires step.Http? || step.Receive? || step.Claim? || step.Crash?
    ensures Rests(I.Next(s, step), p)
  {
  }

  lemma ReadKeepsScheduled(s: I.System, step: I.Step, p: Tx)
    requires Keyed(s.db) && I.Enabled(s, step) && Rests(s, p)
    requires step.Lock? || step.ReadKey? || step.ReadExternal? || step.ReadReference? || step.ReadReverted?
    ensures Rests(I.Next(s, step), p)
  {
    AdvanceKeeps(s.db, s.units[step.u], step);
  }

  lemma StepKeepsScheduled(s: I.System, step: I.Step, p: Tx, t: Instant)
    requires Inv(s.db) && UnitsOk(s) && I.Enabled(s, step) && Rests(s, p)
    requires p.nextRetry == Some(t) && (step.Claim? ==> step.now < t)
    ensures Rests(I.Next(s, step), p)
  {
    match step
    case Finish(u, ids, now) => FinishKeepsScheduled(s, u, ids, now, p);
    case OpenWallet(_, _, _, _, _, _) => OpenKeepsScheduled(s, step, p);
    case Http(_, _) => BeginKeepsScheduled(s, step, p);
    case Receive(_, _) => BeginKeepsScheduled(s, step, p);
    case Claim(_, _, _) => BeginKeepsScheduled(s, step, p);
    case Crash(_) => BeginKeepsScheduled(s, step, p);
    case _ => ReadKeepsScheduled(s, step, p);
  }

  predicate ClaimsBefore(steps: seq<I.Step>, t: Instant) {
    forall i | 0 <= i < |steps| && steps[i].Claim? :: steps[i].now < t
  }

  // The same when units interleave: if nobody had claimed the row, no claim before its time does.
  lemma {:induction false} NotClaimedBeforeItsTime(s: I.System, steps: seq<I.Step>, p: Tx, t: Instant)
    requires Inv(s.db) && UnitsOk(s) && Rests(s, p) && p.nextRetry == Some(t) && ClaimsBefore(steps, t)
    ensures Rests(I.Run(s, steps), p)
    decreases |steps|
  {
    if steps != [] {
      LaterClaims(steps, t);
      var next := if I.Enabled(s, steps[0]) then I.Next(s, steps[0]) else s;
      if I.Enabled(s, steps[0]) {
        StepOk(s, steps[0]);
        StepKeepsScheduled(s, steps[0], p, t);
      }
      NotClaimedBeforeItsTime(next, steps[1..], p, t);
    }
  }

  lemma LaterClaims(steps: seq<I.Step>, t: Instant)
    requires steps != [] && ClaimsBefore(steps, t)
    ensures ClaimsBefore(steps[1..], t) && (steps[0].Claim? ==> steps[0].now < t)
  {
  }

  // ----- how a round ends

  // While its reference is missing or waits itself, the row is put off until its attempts or its
  // time run out; once the reference ended, it ends as a new reversal would.
  predicate RoundEnds(
    db: Db, after: Db, r: Result<TxResult>, policy: Policy, p: Tx, reference: Option<Tx>, ids: Ids, now: Instant)
  {
    p.info.walletId in db.wallets && p.attempts >= 0 &&
    if reference.None? || reference.value.status == PendingReference then
      if p.attempts + 1 < policy.maxAttempts && now < p.info.createdAt + policy.ttl then
        && r == Ok(TxResult(p.info.id, PendingReference, None, None, false))
        && var next := now + DoubledUpTo(policy.backoffBase, policy.backoffMax, p.attempts);
           after == db.(txs := db.txs[p.info.id := p.(attempts := p.attempts + 1, updatedAt := now, nextRetry := Some(next))])
      else Denied(db, after, r, p.info.id, ReferenceNotFound)
    else
      var t := reference.value;
      Undoes(db, after, r, db.wallets[p.info.walletId], KindName(p.info.kind), t,
             t.info.walletId == p.info.walletId && t.info.playerId == p.info.playerId && t.info.round == p.info.round
             && t.info.amount == p.info.amount,
             p.info.amount.minor as int, p.info.id, ids.entry, now)
  }

  lemma WaitingRow(db: Db, p: Tx)
    requires Inv(db) && p.info.id in db.txs && db.txs[p.info.id] == p && p.status == PendingReference
    ensures Waiting(p) && p.refId.None? && p.info.id != 0 && p.info.walletId in db.wallets && p.info.walletId != 0
    ensures p.info.amount.minor > 0 && p.info.amount.currency == db.wallets[p.info.walletId].currency != ""
    ensures forall i | 0 <= i < |db.ledger| :: db.ledger[i].txId != p.info.id
  {
    assert RowState(p) && TxChecks(p) && TxForeignKeys(db, p);
    EntriesProcessed(db.txs, db.ledger);
  }

  lemma ResumptionApplies(db: Db, p: Tx, policy: Policy, ids: Ids, now: Instant)
    requires Inv(db) && p.info.id in db.txs && db.txs[p.info.id] == p && p.status == PendingReference && FreshWrites(db, ids)
    requires ResumeOn(db, p, policy, ids, now).Write?
    ensures var d := ResumeOn(db, p, policy, ids, now).delta;
            Legal(db, d) && RunDelta(db, d) == Exec(Applied(db, d), None, false)
  {
    WaitingRow(db, p);
    FreshResumption(db, p, policy, ids, now);
    ResumeKeepsInv(db, p, policy, ids, now);
    LegalRun(db, ResumeOn(db, p, policy, ids, now).delta);
  }

  lemma ResumptionShape(db: Db, p: Tx, policy: Policy, ids: Ids, now: Instant)
    requires Sound(db) && p.info.walletId in db.wallets
    ensures var plan := ResumeOn(db, p, policy, ids, now);
            && !plan.Reply? && Concerns(plan, false, p.info, db.wallets[p.info.walletId], ids, now)
  {
    ResumeConcerns(p, db.wallets[p.info.walletId], ViewOf(db, p.info.provider, p.info.refExternal), policy, ids, now);
  }

  lemma ResumptionLands(db: Db, p: Tx, policy: Policy, ids: Ids, now: Instant)
    requires Inv(db) && p.info.id in db.txs && db.txs[p.info.id] == p && p.status == PendingReference && FreshWrites(db, ids)
    ensures p.info.walletId in db.wallets && Lands(db, ResumeOn(db, p, policy, ids, now), db.wallets[p.info.walletId], ids, now)
    ensures ResumeOn(db, p, policy, ids, now).Write? ==> ResumeOn(db, p, policy, ids, now).delta.tx.info.id == p.info.id
  {
    WaitingRow(db, p);
    ResumptionShape(db, p, policy, ids, now);
    if ResumeOn(db, p, policy, ids, now).Write? {
      ResumptionApplies(db, p, policy, ids, now);
    }
  }

  // What a resumption decides, by what the tables hold.
  lemma ResumptionDecided(db: Db, p: Tx, policy: Policy, reference: Option<Tx>, ids: Ids, now: Instant)
    requires Inv(db) && p.info.id in db.txs && db.txs[p.info.id] == p && p.status == PendingReference && now != 0
    requires IsReference(db, p.info.provider, p.info.refExternal, reference) && p.info.walletId in db.wallets
    ensures var plan := ResumeOn(db, p, policy, ids, now);
            if reference.None? || reference.value.status == PendingReference then plan == WaitPlan(p, policy, ids, now)
            else
              ReversalEnds(plan, db.wallets[p.info.walletId], reference.value, p.info.kind,
                           Agrees(reference.value, p.info.walletId, p.info.playerId, p.info.round, p.info.amount),
                           HasSuccessfulReversal(db.txs, reference.value.info.id))
  {
    WaitingRow(db, p);
    ViewShows(db, p.info.provider, p.info.refExternal, reference);
    if reference.Some? {
      assert RowState(reference.value);
      if reference.value.status != PendingReference {
        ResumptionOutcome(p, db.wallets[p.info.walletId], ViewOf(db, p.info.provider, p.info.refExternal), policy, ids, now);
      }
    }
  }

  lemma PutOff(db: Db, p: Tx, policy: Policy, ids: Ids, now: Instant)
    requires p.status == PendingReference && p.attempts >= 0 && now != 0 && policy.backoffBase > 0
    requires p.attempts + 1 < policy.maxAttempts && now < p.info.createdAt + policy.ttl
    ensures var next := now + DoubledUpTo(policy.backoffBase, policy.backoffMax, p.attempts);
            WaitPlan(p, policy, ids, now) ==
            Write(Delta(false, p.(attempts := p.attempts + 1, updatedAt := now, nextRetry := Some(next)), None, []),
                  TxResult(p.info.id, PendingReference, None, None, false))
  {
    RampClosedForm(policy.backoffBase, policy.backoffMax, p.attempts);
  }

  lemma StillWaits(db: Db, p: Tx, policy: Policy, reference: Option<Tx>, w: WalletRow, ids: Ids, now: Instant)
    requires reference.None? || reference.value.status == PendingReference
    requires p.status == PendingReference && p.attempts >= 0 && now != 0 && policy.backoffBase > 0
    requires p.info.walletId in db.wallets && Lands(db, WaitPlan(p, policy, ids, now), w, ids, now)
    ensures var plan := WaitPlan(p, policy, ids, now);
            RoundEnds(db, After(db, plan), PlanReply(db, plan), policy, p, reference, ids, now)
  {
    var plan := WaitPlan(p, policy, ids, now);
    if p.attempts + 1 < policy.maxAttempts && now < p.info.createdAt + policy.ttl {
      PutOff(db, p, policy, ids, now);
    } else {
      DeniedAsDecided(db, plan, w, p.info.id, ids, ReferenceNotFound, now);
    }
  }

  lemma HasEnded(db: Db, plan: Plan, p: Tx, policy: Policy, t: Tx, w: WalletRow, ids: Ids, now: Instant)
    requires Keyed(db) && p.info.walletId in db.wallets && db.wallets[p.info.walletId] == w && w.id != 0 && Lands(db, plan, w, ids, now)
    requires plan.Write? ==> plan.delta.tx.info.id == p.info.id
    requires p.info.kind in {Refund, Rollback} && p.attempts >= 0 && t.status != PendingReference
    requires ReversalEnds(plan, w, t, p.info.kind, Agrees(t, p.info.walletId, p.info.playerId, p.info.round, p.info.amount),
                          HasSuccessfulReversal(db.txs, t.info.id))
    ensures RoundEnds(db, After(db, plan), PlanReply(db, plan), policy, p, Some(t), ids, now)
  {
    UndoesAsDecided(db, plan, w, p.info.kind, KindName(p.info.kind), t,
                    Agrees(t, p.info.walletId, p.info.playerId, p.info.round, p.info.amount), p.info.amount.minor as int,
                    p.info.id, ids, now);
  }

  // A round that finds work, under fresh identifiers.
  lemma ResumptionEnds(db: Db, policy: Policy, p: Tx, reference: Option<Tx>, ids: Ids, now: Instant)
    requires Inv(db) && IsFirst(db.txs, p, now) && IsReference(db, p.info.provider, p.info.refExternal, reference)
    requires FreshWrites(db, ids) && now != 0 && policy.backoffBase > 0
    ensures var plan := ResumeOn(db, p, policy, ids, now);
            RoundEnds(db, After(db, plan), PlanReply(db, plan), policy, p, reference, ids, now)
  {
    WaitingRow(db, p);
    ResumptionLands(db, p, policy, ids, now);
    ResumptionDecided(db, p, policy, reference, ids, now);
    var w := db.wallets[p.info.walletId];
    if reference.None? || reference.value.status == PendingReference {
      StillWaits(db, p, policy, reference, w, ids, now);
    } else {
      HasEnded(db, ResumeOn(db, p, policy, ids, now), p, policy, reference.value, w, ids, now);
    }
  }

  lemma WorkerEnds(db: Db, policy: Policy, p: Tx, reference: Option<Tx>, ids: Ids, now: Instant)
    requires Inv(db) && IsFirst(db.txs, p, now) && IsReference(db, p.info.provider, p.info.refExternal, reference)
    requires FreshWrites(db, ids) && now != 0 && policy.backoffBase > 0
    ensures var (after, r) := WorkerStep(db, policy, ids, now);
            && (r.Ok? ==> r.value.Some?)
            && RoundEnds(db, after, if r.Ok? then Ok(r.value.value) else Err(r.error), policy, p, reference, ids, now)
  {
    ClaimsTheFirst(db, p, now);
    ResumptionEnds(db, policy, p, reference, ids, now);
  }

  // ----- a tick

  // The tick met an error whose round left no trace, or found nothing due.
  ghost predicate StoppedFor(db: Db, policy: Policy, round: (Ids, Instant), error: Option<Error>)
    requires Sound(db)
  {
    if error.Some? then WorkerStep(db, policy, round.0, round.1) == (db, Err(error.value)) else NobodyIsDue(db.txs, round.1)
  }

  lemma FailedRound(db: Db, policy: Policy, round: (Ids, Instant))
    requires Sound(db)
    ensures var (after, r) := WorkerStep(db, policy, round.0, round.1);
            r.Err? || r.value.None? ==> after == db && StoppedFor(db, policy, round, if r.Err? then Some(r.error) else None)
  {
    ClaimFindsWork(db.txs, round.1);
  }

  // A tick that stops short of its rounds did so for one of the two.
  lemma {:induction false} ShortTick(db: Db, policy: Policy, rounds: seq<(Ids, Instant)>, i: nat)
    requires Sound(db) && i <= |rounds|
    ensures var tick := TickFrom(db, policy, rounds, i);
            && i <= tick.processed <= |rounds| && Sound(tick.db)
            && (tick.error.Some? ==> tick.processed < |rounds|)
            && (tick.processed < |rounds| ==> StoppedFor(tick.db, policy, rounds[tick.processed], tick.error))
    decreases |rounds| - i
  {
    if i < |rounds| {
      FailedRound(db, policy, rounds[i]);
      StepKeepsSound(db, policy, rounds[i].0, rounds[i].1);
      var (next, r) := WorkerStep(db, policy, rounds[i].0, rounds[i].1);
      if r.Ok? && r.value.Some? {
        ShortTick(next, policy, rounds, i + 1);
      }
    }
  }
}
