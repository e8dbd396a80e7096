// What becomes of a commit on a stale reference. Alone the job would have been rejected with the
// reference's code; the row that waits instead is rejected with that very code in the end,
// whatever else runs, unless the unit was the last attempt of a resumption.
module StaleFate {
  import opened Base
  import opened Wagering
  import opened Wallets
  import opened Store
  import opened Process
  import opened Resolve
  import opened Invariant
  import opened Admission
  import opened Interleaving
  import opened Isolation
  import opened Serial

  predicate LastAttempt(policy: Policy, w: Work) {
    w.job.Resumption? && Exhausted(w.job.pending, policy, w.job.claimedAt)
  }

  // A row whose settled reference rejects it: it waits, or it was rejected with that code.
  ghost predicate RowDoomed(txs: map<Id, Tx>, id: Id, reference: Tx, code: FailureCode) {
    && id in txs && reference.info.id in txs && txs[reference.info.id] == reference
    && var p := txs[id];
       && IsTerminal(reference.status) && HasExternalId(reference, p.info.provider, p.info.refExternal)
       && RowCode(p, reference) == Some(code)
       && (p.status == PendingReference || (p.status == Rejected && p.failure == Some(code)))
  }

  // No unit that resumes the row has read anything but a settled reference.
  ghost predicate ReadersSettled(units: map<nat, Work>, id: Id) {
    forall u | u in units :: HoldsRow(units[u], id) ==> SawSettled(units[u])
  }

  ghost predicate Doomed(s: System, id: Id, reference: Tx, code: FailureCode) {
    RowDoomed(s.db.txs, id, reference, code) && ReadersSettled(s.units, id)
  }

  predicate SawSettled(w: Work) {
    w.reference.Some? ==> Settled(w.reference.value)
  }

  // A unit that resumes such a row and has read its reference rejects it with the code.
  lemma DoomedDecision(s: System, u: nat, id: Id, reference: Tx, code: FailureCode, ids: Ids, now: Instant)
    requires Sound(s.db) && UnitsOk(s) && Doomed(s, id, reference, code) && u in s.units && HoldsRow(s.units[u], id)
    requires Ready(s.units[u]) && s.units[u].answer.None? && s.units[u].wallet.value.balance >= 0
    ensures Decision(s.policy, s.units[u], ids, now) == RejectPlan(false, s.units[u].job.pending, code, ids, s.units[u].job.claimedAt)
  {
    var w := s.units[u];
    assert WorkOk(s.db, w) && ClaimHolds(s.db, w) && ReadsHold(s.db, w);
    FoundIsTheOne(s.db, reference.info.id);
    FoundIsTheOne(s.db, w.reference.value.value.info.id);
  }

  lemma RowStaysDoomed(txs: map<Id, Tx>, txs': map<Id, Tx>, id: Id, reference: Tx, code: FailureCode)
    requires RowDoomed(txs, id, reference, code) && TxsGrow(txs, txs')
    requires txs'[id] == txs[id] || (txs'[id].status == Rejected && txs'[id].failure == Some(code))
    ensures RowDoomed(txs', id, reference, code)
  {
  }

  // A decision that leaves the row alone or rejects it with the code.
  ghost predicate Fated(plan: Plan, id: Id, code: FailureCode) {
    plan.Write? && !plan.delta.create && plan.delta.tx.info.id == id ==>
      plan.delta.tx.status == Rejected && plan.delta.tx.failure == Some(code)
  }

  lemma DecisionFated(s: System, u: nat, id: Id, reference: Tx, code: FailureCode, ids: Ids, now: Instant)
    requires Sound(s.db) && UnitsOk(s) && Doomed(s, id, reference, code) && u in s.units && Ready(s.units[u])
    requires s.units[u].wallet.Some? ==> s.units[u].wallet.value.balance >= 0
    ensures Fated(Decision(s.policy, s.units[u], ids, now), id, code)
  {
    var w := s.units[u];
    assert WorkOk(s.db, w);
    if w.answer.None? && Decision(s.policy, w, ids, now).Write? {
      WritesWhere(s.policy, w, ids, now);
      if HoldsRow(w, id) {
        DoomedDecision(s, u, id, reference, code, ids, now);
      }
    }
  }

  // What one end of a unit does to the row: nothing, or the rejection it is doomed to.
  lemma EndRow(db: Db, w: Work, plan: Plan, id: Id, code: FailureCode)
    requires Keyed(db) && WholeOrNothing(db, w, plan) && id in db.txs && Fated(plan, id, code)
    ensures var txs := EndWith(db, w, plan).db.txs;
            id in txs && (txs[id] == db.txs[id] || (txs[id].status == Rejected && txs[id].failure == Some(code)))
  {
  }

  lemma FinishDoomed(s: System, u: nat, id: Id, reference: Tx, code: FailureCode, ids: Ids, now: Instant)
    requires Inv(s.db) && UnitsOk(s) && Enabled(s, Finish(u, ids, now)) && Doomed(s, id, reference, code)
    ensures Doomed(Next(s, Finish(u, ids, now)), id, reference, code)
  {
    EndShape(s.policy, s.db, s.units[u], ids, now);
    DecisionFated(s, u, id, reference, code, ids, now);
    EndRow(s.db, s.units[u], Decision(s.policy, s.units[u], ids, now), id, code);
    FinishOk(s, u, ids, now);
    RowStaysDoomed(s.db.txs, Next(s, Finish(u, ids, now)).db.txs, id, reference, code);
  }

  lemma ReadDoomed(s: System, step: Step, id: Id, reference: Tx, code: FailureCode)
    requires Sound(s.db) && UnitsOk(s) && Enabled(s, step) && Doomed(s, id, reference, code)
    requires step.Lock? || step.ReadKey? || step.ReadExternal? || step.ReadReference? || step.ReadReverted?
    ensures Doomed(Next(s, step), id, reference, code)
  {
    var w := s.units[step.u];
    AdvanceKeeps(s.db, w, step);
    assert WorkOk(s.db, w);
    if HoldsRow(w, id) {
      HolderReadsSettled(s.db, w, step, id, reference, code);
    }
    ReaderReplaced(s.units, step.u, Advance(s.db, w, step), id);
  }

  lemma ReaderReplaced(units: map<nat, Work>, u: nat, w: Work, id: Id)
    requires ReadersSettled(units, id) && (HoldsRow(w, id) ==> SawSettled(w))
    ensures ReadersSettled(units[u := w], id)
  {
  }

  lemma HolderReadsSettled(db: Db, w: Work, step: Step, id: Id, reference: Tx, code: FailureCode)
    requires Sound(db) && WorkOk(db, w) && RowDoomed(db.txs, id, reference, code) && HoldsRow(w, id) && SawSettled(w)
    requires CanAdvance(w, step)
    ensures SawSettled(Advance(db, w, step))
  {
    assert ClaimHolds(db, w);
    FoundIsTheOne(db, reference.info.id);
  }

  lemma StepDoomed(s: System, step: Step, id: Id, reference: Tx, code: FailureCode)
    requires Inv(s.db) && UnitsOk(s) && Enabled(s, step) && Doomed(s, id, reference, code)
    ensures Doomed(Next(s, step), id, reference, code)
  {
    match step
    case Http(_, _) => BeginDoomed(s, step, id, reference, code);
    case Receive(_, _) => BeginDoomed(s, step, id, reference, code);
    case Claim(_, _, _) => BeginDoomed(s, step, id, reference, code);
    case Finish(u, ids, now) => FinishDoomed(s, u, id, reference, code, ids, now);
    case Crash(_) => BeginDoomed(s, step, id, reference, code);
    case OpenWallet(_, _, _, _, _, _) => OpenDoomed(s, step, id, reference, code);
    case _ => ReadDoomed(s, step, id, reference, code);
  }

  // Beginnings and crashes: no committed row moves, and a new unit has read nothing.
  lemma BeginDoomed(s: System, step: Step, id: Id, reference: Tx, code: FailureCode)
    requires Enabled(s, step) && (step.Http? || step.Receive? || step.Claim? || step.Crash?) && Doomed(s, id, reference, code)
    ensures Doomed(Next(s, step), id, reference, code)
  {
  }

  lemma OpenDoomed(s: System, step: Step, id: Id, reference: Tx, code: FailureCode)
    requires Keyed(s.db) && step.OpenWallet? && Doomed(s, id, reference, code)
    ensures Doomed(Next(s, step), id, reference, code)
  {
    OpenAdds(s.db, s.codec, step.player, step.amount, step.currency, step.walletId, step.ids, step.now);
    RowStaysDoomed(s.db.txs, Next(s, step).db.txs, id, reference, code);
  }

  lemma {:induction false} RunDoomed(s: System, steps: seq<Step>, id: Id, reference: Tx, code: FailureCode)
    requires Inv(s.db) && UnitsOk(s) && Doomed(s, id, reference, code)
    ensures Doomed(Run(s, steps), id, reference, code)
    decreases |steps|
  {
    if steps != [] {
      if Enabled(s, steps[0]) {
        StepOk(s, steps[0]);
        StepDoomed(s, steps[0], id, reference, code);
        RunDoomed(Next(s, steps[0]), steps[1..], id, reference, code);
      } else {
        RunDoomed(s, steps[1..], id, reference, code);
      }
    }
  }

  // ----- the stale commit itself

  // The reference that settled unseen.
  ghost function LateReference(db: Db, w: Work): Tx
    requires Stale(db, w)
  {
    FindByExternalId(db.txs, JobProvider(w.job), JobReference(w.job)).value
  }

  // A stale unit's row waits, unless this was its last attempt: then it is rejected for a
  // reference that was not found, which is never the code the reference gives.
  ghost predicate StaleTells(db: Db, w: Work, t: Tx, last: bool) {
    && Stale(db, w)
    && (if last then t.status == Rejected && t.failure == Some(ReferenceNotFound) else t.status == PendingReference)
    && t.info.provider == JobProvider(w.job) && t.info.refExternal == JobReference(w.job)
    && RowCode(t, LateReference(db, w)).Some? && RowCode(t, LateReference(db, w)).value in {ReferenceNotProcessed, ReferenceMismatch}
  }

  lemma StaleDecision(policy: Policy, db: Db, w: Work, ids: Ids, now: Instant)
    requires WorkOk(db, w) && Ready(w) && w.answer.None? && w.wallet.value.balance >= 0 && Stale(db, w)
    requires Decision(policy, w, ids, now).Write?
    ensures StaleTells(db, w, Decision(policy, w, ids, now).delta.tx, LastAttempt(policy, w))
  {
    StaleIsForeign(db, w);
    match w.job
    case Submit(req) => ApplyConcerns(req, w.wallet.value, SeenView(w), ids, now);
    case Resumption(p, claimedAt) => ResumeConcerns(p, w.wallet.value, SeenView(w), policy, ids, claimedAt);
  }

  // What the job would have been told alone: rejected, with the code of its reference.
  lemma AloneIsRejected(policy: Policy, db: Db, w: Work, ids: Ids, now: Instant)
    requires Sound(db) && WorkOk(db, w) && Ready(w) && w.answer.None? && w.wallet.value.balance >= 0 && Stale(db, w)
    requires Decision(policy, w, ids, now).Write? && (w.job.Submit? ==> ReplayPlan(db.txs, w.job.req).None?)
    ensures var alone, t := Alone(policy, db, w.job, ids, now), Decision(policy, w, ids, now).delta.tx;
            alone.Write? && alone.result.status == Rejected && alone.result.failure == RowCode(t, LateReference(db, w))
  {
    StaleDecision(policy, db, w, ids, now);
    assert LockHolds(db, w) && ClaimHolds(db, w);
    match w.job
    case Submit(req) =>
      ApplyConcerns(req, w.wallet.value, SeenView(w), ids, now);
      SubmissionRejected(req, w.wallet.value, SeenView(w), ViewOf(db, req.cmd.provider, req.cmd.refExternal), ids, now);
    case Resumption(p, claimedAt) =>
      ResumeConcerns(p, w.wallet.value, SeenView(w), policy, ids, claimedAt);
      ResumptionRejected(p, w.wallet.value, SeenView(w), ViewOf(db, p.info.provider, p.info.refExternal), policy, ids, claimedAt);
  }

  lemma SubmissionRejected(req: Request, w: WalletRow, seen: View, view: View, ids: Ids, now: Instant)
    requires w.balance >= 0 && IsReversal(req.kind) && w.playerId == req.playerId && w.currency == req.amount.currency
    requires !Settled(seen.reference) && Settled(view.reference) && ApplyPlan(req, w, seen, ids, now).Write?
    requires ReversalRejection(view.reference.value, req.kind, req.walletId, req.playerId, req.cmd.round, req.amount).Some?
    ensures var alone := ApplyPlan(req, w, view, ids, now);
            alone.Write? && alone.result.status == Rejected && alone.result.failure ==
              ReversalRejection(view.reference.value, req.kind, req.walletId, req.playerId, req.cmd.round, req.amount)
  {
  }

  lemma ResumptionRejected(p: Tx, w: WalletRow, seen: View, view: View, policy: Policy, ids: Ids, now: Instant)
    requires w.balance >= 0 && p.status == PendingReference
    requires !Settled(seen.reference) && Settled(view.reference) && ResumePlan(p, w, seen, policy, ids, now).Write?
    requires RowCode(p, view.reference.value).Some?
    ensures var alone := ResumePlan(p, w, view, policy, ids, now);
            alone.Write? && alone.result.status == Rejected && alone.result.failure == RowCode(p, view.reference.value)
  {
  }

  // ----- from the stale commit on

  // The row a unit writes when it commits.
  function Written(s: System, u: nat, ids: Ids, now: Instant): Tx
    requires u in s.units && Ready(s.units[u]) && (s.units[u].wallet.Some? ==> s.units[u].wallet.value.balance >= 0)
    requires Decision(s.policy, s.units[u], ids, now).Write?
  {
    Decision(s.policy, s.units[u], ids, now).delta.tx
  }

  // The commit of a unit that had something to write.
  ghost predicate Commits(s: System, u: nat, ids: Ids, now: Instant) {
    && u in s.units && Ready(s.units[u]) && s.units[u].answer.None? && s.units[u].wallet.Some? && s.units[u].wallet.value.balance >= 0
    && Decision(s.policy, s.units[u], ids, now).Write?
    && Enabled(s, Finish(u, ids, now)) && End(s.policy, s.db, s.units[u], ids, now).effect.Some?
  }

  // What a commit's writes are: the decision's, legal, and about the unit's own row and wallet.
  ghost predicate CommitsLegally(s: System, u: nat, d: Delta)
    requires u in s.units
  {
    var w := s.units[u];
    && w.wallet.Some? && !w.job.Unparsed? && WorkOk(s.db, w) && WritesOwn(w, d)
    && Legal(Snapshot(s.db, w), d) && TxAdmissible(Snapshot(s.db, w), d.tx)
  }

  lemma CommitFacts(s: System, u: nat, ids: Ids, now: Instant)
    requires Inv(s.db) && UnitsOk(s) && Commits(s, u, ids, now)
    ensures s.units[u].answer.None? && Decision(s.policy, s.units[u], ids, now).Write?
    ensures CommitsLegally(s, u, Decision(s.policy, s.units[u], ids, now).delta)
    ensures WholeOrNothing(s.db, s.units[u], Decision(s.policy, s.units[u], ids, now))
  {
    assert WorkOk(s.db, s.units[u]);
    EndShape(s.policy, s.db, s.units[u], ids, now);
    WritesWhere(s.policy, s.units[u], ids, now);
  }

  lemma CommitWrites(s: System, u: nat, ids: Ids, now: Instant)
    requires Commits(s, u, ids, now) && WholeOrNothing(s.db, s.units[u], Decision(s.policy, s.units[u], ids, now))
    ensures var t, after := Written(s, u, ids, now), Next(s, Finish(u, ids, now));
            after.db.txs == s.db.txs[t.info.id := t] && after.units == s.units - {u}
  {
    EffectWrites(s.db, s.units[u], Decision(s.policy, s.units[u], ids, now));
  }

  lemma EffectWrites(db: Db, w: Work, plan: Plan)
    requires WholeOrNothing(db, w, plan) && EndWith(db, w, plan).effect.Some?
    ensures plan.Write? && EndWith(db, w, plan).db.txs == db.txs[plan.delta.tx.info.id := plan.delta.tx]
  {
  }

  // Nobody else is resuming the row a unit just wrote.
  lemma NobodyElseHolds(s: System, u: nat, d: Delta, v: nat)
    requires Keyed(s.db) && UnitsOk(s) && u in s.units && v in s.units && u != v && s.units[u].wallet.Some? && !s.units[u].job.Unparsed?
    requires WritesOwn(s.units[u], d) && (d.create <==> d.tx.info.id !in s.db.txs)
    ensures !HoldsRow(s.units[v], d.tx.info.id)
  {
    assert Apart(s.units[u], s.units[v]) && WorkOk(s.db, s.units[v]) && ClaimHolds(s.db, s.units[v]);
  }

  lemma ReadersAfter(s: System, u: nat, d: Delta)
    requires Keyed(s.db) && UnitsOk(s) && u in s.units && s.units[u].wallet.Some? && !s.units[u].job.Unparsed?
    requires WritesOwn(s.units[u], d) && (d.create <==> d.tx.info.id !in s.db.txs)
    ensures ReadersSettled(s.units - {u}, d.tx.info.id)
  {
    forall v | v in s.units && v != u ensures !HoldsRow(s.units[v], d.tx.info.id) {
      NobodyElseHolds(s, u, d, v);
    }
  }

  lemma WaitingIsDoomed(db: Db, w: Work, d: Delta)
    requires Keyed(db) && Stale(db, w) && Legal(Snapshot(db, w), d) && d.tx.status == PendingReference
    requires d.tx.info.provider == JobProvider(w.job) && d.tx.info.refExternal == JobReference(w.job)
    requires RowCode(d.tx, LateReference(db, w)).Some?
    ensures RowDoomed(db.txs[d.tx.info.id := d.tx], d.tx.info.id, LateReference(db, w), RowCode(d.tx, LateReference(db, w)).value)
  {
    LateReferenceStays(db, w, d);
  }

  lemma LateReferenceStays(db: Db, w: Work, d: Delta)
    requires Keyed(db) && Stale(db, w) && Legal(Snapshot(db, w), d)
    ensures var r, txs := LateReference(db, w), db.txs[d.tx.info.id := d.tx];
            && IsTerminal(r.status) && HasExternalId(r, JobProvider(w.job), JobReference(w.job))
            && r.info.id in txs && txs[r.info.id] == r
  {
    var r := LateReference(db, w);
    assert exists id :: id in db.txs && db.txs[id] == r;
  }

  // The row still waits, or ended with this code.
  predicate KeepsCode(t: Tx, code: Option<FailureCode>) {
    t.status == PendingReference || (t.status == Rejected && t.failure == code)
  }

  // What a stale commit leaves: a doomed row, or the rejection of the last attempt.
  ghost predicate StaleResult(after: System, t: Tx, reference: Tx, last: bool) {
    && t.info.id in after.db.txs && after.db.txs[t.info.id] == t
    && RowCode(t, reference).Some? && RowCode(t, reference).value != ReferenceNotFound
    && (if last then t.status == Rejected && t.failure == Some(ReferenceNotFound)
        else Doomed(after, t.info.id, reference, RowCode(t, reference).value))
  }

  lemma StaleLeavesRow(s: System, u: nat, d: Delta, after: System, last: bool)
    requires Keyed(s.db) && UnitsOk(s) && u in s.units && Stale(s.db, s.units[u]) && CommitsLegally(s, u, d)
    requires after.db.txs == s.db.txs[d.tx.info.id := d.tx] && after.units == s.units - {u}
    requires StaleTells(s.db, s.units[u], d.tx, last)
    ensures StaleResult(after, d.tx, LateReference(s.db, s.units[u]), last)
  {
    ReadersAfter(s, u, d);
    if !last {
      WaitingIsDoomed(s.db, s.units[u], d);
    }
  }

  lemma StaleResultStays(after: System, t: Tx, reference: Tx, last: bool, steps: seq<Step>)
    requires Inv(after.db) && UnitsOk(after) && StaleResult(after, t, reference, last)
    ensures var later := Run(after, steps).db.txs;
            && t.info.id in later && (KeepsCode(later[t.info.id], RowCode(t, reference)) <==> !last)
            && (last ==> later[t.info.id].status == Rejected && later[t.info.id].failure == Some(ReferenceNotFound))
  {
    RunOk(after, steps);
    if !last {
      RunDoomed(after, steps, t.info.id, reference, RowCode(t, reference).value);
    }
  }

  // Committing on a stale reference keeps the code the unit would have got alone, in every later
  // state of every run, exactly when it was not the last attempt of a resumption; that one is
  // rejected as if its reference did not exist.
  lemma StaleEnds(s: System, u: nat, ids: Ids, now: Instant, steps: seq<Step>)
    requires Reachable(s) && Commits(s, u, ids, now) && Stale(s.db, s.units[u])
    ensures var w, t := s.units[u], Written(s, u, ids, now);
            var code := RowCode(t, LateReference(s.db, w));
            var later := Run(Next(s, Finish(u, ids, now)), steps).db.txs;
            && code.Some? && t.info.id in later
            && (KeepsCode(later[t.info.id], code) <==> !LastAttempt(s.policy, w))
            && (LastAttempt(s.policy, w) ==> later[t.info.id].status == Rejected && later[t.info.id].failure == Some(ReferenceNotFound))
  {
    ReachableOk(s);
    CommitFacts(s, u, ids, now);
    CommitWrites(s, u, ids, now);
    StaleDecision(s.policy, s.db, s.units[u], ids, now);
    StaleLeavesRow(s, u, Decision(s.policy, s.units[u], ids, now).delta, Next(s, Finish(u, ids, now)), LastAttempt(s.policy, s.units[u]));
    FinishOk(s, u, ids, now);
    StaleResultStays(Next(s, Finish(u, ids, now)), Written(s, u, ids, now), LateReference(s.db, s.units[u]),
                     LastAttempt(s.policy, s.units[u]), steps);
  }

  // The rejection the job gets alone, on the tables the unit commits to.
  ghost predicate RejectedAlone(policy: Policy, db: Db, w: Work, ids: Ids, now: Instant, t: Tx) {
    && Sound(Snapshot(db, w)) && !w.job.Unparsed? && Stale(db, w)
    && var alone := Alone(policy, Snapshot(db, w), w.job, ids, now);
       alone.Write? && alone.result.status == Rejected && alone.result.failure == RowCode(t, LateReference(db, w))
  }

  lemma RecordedRejection(policy: Policy, db: Db, w: Work, ids: Ids, now: Instant)
    requires Inv(db) && WorkOk(db, w) && Ready(w) && w.answer.None? && w.wallet.value.balance >= 0 && Stale(db, w)
    requires Decision(policy, w, ids, now).Write?
    requires TxAdmissible(Snapshot(db, w), Decision(policy, w, ids, now).delta.tx)
    requires w.job.Submit? ==> Decision(policy, w, ids, now).delta.tx.info.id !in db.txs
    ensures RejectedAlone(policy, db, w, ids, now, Decision(policy, w, ids, now).delta.tx)
  {
    var base, open := Snapshot(db, w), w.(inbox := None);
    SnapshotOk(db, w);
    InboxRowIsIdle(policy, w, ids, now);
    assert Stale(base, open);
    if w.job.Submit? {
      ApplyConcerns(w.job.req, w.wallet.value, SeenView(w), ids, now);
      NothingToReplay(base, w.job.req, Decision(policy, w, ids, now).delta.tx);
    }
    AloneIsRejected(policy, base, open, ids, now);
  }

  lemma NewRowIsNew(s: System, u: nat, d: Delta)
    requires u in s.units && CommitsLegally(s, u, d)
    ensures TxAdmissible(Snapshot(s.db, s.units[u]), d.tx)
    ensures s.units[u].job.Submit? ==> d.tx.info.id !in s.db.txs
  {
  }

  lemma LegalCommitRejectedAlone(s: System, u: nat, ids: Ids, now: Instant)
    requires Inv(s.db) && u in s.units && Ready(s.units[u]) && s.units[u].answer.None? && s.units[u].wallet.value.balance >= 0
    requires Stale(s.db, s.units[u]) && Decision(s.policy, s.units[u], ids, now).Write?
    requires CommitsLegally(s, u, Decision(s.policy, s.units[u], ids, now).delta)
    ensures RejectedAlone(s.policy, s.db, s.units[u], ids, now, Written(s, u, ids, now))
  {
    NewRowIsNew(s, u, Decision(s.policy, s.units[u], ids, now).delta);
    RecordedRejection(s.policy, s.db, s.units[u], ids, now);
  }

  lemma CommitRejectedAlone(s: System, u: nat, ids: Ids, now: Instant)
    requires Inv(s.db) && UnitsOk(s) && Commits(s, u, ids, now) && Stale(s.db, s.units[u])
    ensures RejectedAlone(s.policy, s.db, s.units[u], ids, now, Written(s, u, ids, now))
  {
    CommitFacts(s, u, ids, now);
    LegalCommitRejectedAlone(s, u, ids, now);
  }

  // Alone, such a unit would have rejected its row with the code of its reference.
  lemma AloneWasRejected(s: System, u: nat, ids: Ids, now: Instant)
    requires Reachable(s) && Commits(s, u, ids, now) && Stale(s.db, s.units[u])
    ensures RejectedAlone(s.policy, s.db, s.units[u], ids, now, Written(s, u, ids, now))
  {
    ReachableOk(s);
    CommitRejectedAlone(s, u, ids, now);
  }
}
