// Per-wallet atomicity: whatever runs beside it, a unit that commits writes does so as if it had
// run alone at its commit, and no update of a balance is ever lost.
module Serial {
  import opened Base
  import opened Wagering
  import opened Wallets
  import opened Store
  import opened Process
  import opened Resolve
  import opened Units
  import opened Invariant
  import opened Admission
  import opened Interleaving
  import opened Isolation

  // ----- no lost update

  // While a unit holds a wallet's lock the committed row stays the one it read, although the
  // update checks no version; and nobody else holds the same lock.
  lemma LockedRowIsCommittedRow(s: System, u: nat, v: nat)
    requires Reachable(s) && u in s.units && s.units[u].wallet.Some?
    ensures var row := s.units[u].wallet.value; row.id in s.db.wallets && s.db.wallets[row.id] == row
    ensures v in s.units && v != u ==> !HoldsWallet(s.units[v], s.units[u].wallet.value.id)
  {
    ReachableOk(s);
    assert WorkOk(s.db, s.units[u]) && LockHolds(s.db, s.units[u]);
    assert v in s.units && v != u ==> Apart(s.units[u], s.units[v]);
  }

  // Successive movements of one wallet chain: each starts from the balance the previous left.
  lemma EntriesChain(db: Db, i: nat, j: nat)
    requires Inv(db) && i < j < |db.ledger| && db.ledger[i].walletId == db.ledger[j].walletId
    requires forall k | i < k < j :: db.ledger[k].walletId != db.ledger[i].walletId
    ensures db.ledger[j].before == db.ledger[i].after
  {
    var w := db.ledger[i].walletId;
    assert EntryOk(db.txs, db.ledger, i) && EntryOk(db.txs, db.ledger, j);
    SumSkips(db.ledger, i + 1, j, w);
  }

  lemma {:induction false} SumSkips(L: seq<Entry>, i: nat, j: nat, w: Id)
    requires i <= j <= |L| && forall k | i <= k < j :: L[k].walletId != w
    ensures Sum(L[..j], w) == Sum(L[..i], w)
  {
    if i < j {
      SumSkips(L, i, j - 1, w);
      assert L[..j][..j - 1] == L[..j - 1];
    }
  }

  // A committed movement starts from the balance and version committed at that moment, which are
  // those read at the lock, and leaves the ones it computed.
  lemma NoLostUpdate(s: System, u: nat, ids: Ids, now: Instant)
    requires Reachable(s) && Enabled(s, Finish(u, ids, now))
    requires var e := End(s.policy, s.db, s.units[u], ids, now).effect; e.Some? && e.value.move.Some?
    ensures var m := End(s.policy, s.db, s.units[u], ids, now).effect.value.move.value;
            var w := m.wallet.id;
            var after := Next(s, Finish(u, ids, now)).db;
            && s.units[u].wallet.Some? && w == s.units[u].wallet.value.id && w in s.db.wallets && w in after.wallets
            && m.entry.Ok? && m.entry.value.before == s.units[u].wallet.value.balance == s.db.wallets[w].balance
            && after.wallets[w].balance == m.entry.value.after
            && after.wallets[w].balance as int == s.db.wallets[w].balance as int + Signed(m.entry.value)
            && after.wallets[w].version == s.db.wallets[w].version + 1
            && after.ledger == s.db.ledger + [m.entry.value]
  {
    ReachableOk(s);
    var w := s.units[u];
    assert WorkOk(s.db, w) && LockHolds(s.db, w);
    EndShape(s.policy, s.db, w, ids, now);
    WritesWhere(s.policy, w, ids, now);
    MoveApplied(Snapshot(s.db, w), Decision(s.policy, w, ids, now).delta);
  }

  lemma MoveApplied(db: Db, d: Delta)
    requires Keyed(db) && Legal(db, d) && d.move.Some?
    ensures var m, w, after := d.move.value, d.tx.info.walletId, Applied(db, d);
            && m.wallet.id == w && w in db.wallets && w in after.wallets && m.entry.Ok?
            && m.entry.value.before == db.wallets[w].balance && after.wallets[w].balance == m.entry.value.after
            && after.wallets[w].balance as int == db.wallets[w].balance as int + Signed(m.entry.value)
            && after.wallets[w].version == db.wallets[w].version + 1
            && after.ledger == db.ledger + [m.entry.value]
  {
  }

  // ----- one unit as if alone

  // The decision the same job takes when it runs undisturbed on one state of the tables.
  ghost function Alone(policy: Policy, db: Db, job: Job, ids: Ids, now: Instant): Plan
    requires Sound(db) && !job.Unparsed?
  {
    match job
    case Submit(req) => RequestPlan(db, req, ids, now)
    case Resumption(p, claimedAt) => ResumeOn(db, p, policy, ids, claimedAt)
  }

  predicate Settled(reference: Option<Tx>) {
    reference.Some? && IsTerminal(reference.value.status)
  }

  // The reference was missing or not terminal when it was read, and is terminal by now.
  ghost predicate Stale(db: Db, w: Work) {
    && !w.job.Unparsed? && w.reference.Some? && !Settled(w.reference.value)
    && Settled(FindByExternalId(db.txs, JobProvider(w.job), JobReference(w.job)))
  }

  // Two views that lead to the same decision.
  ghost predicate Alike(a: View, b: View, needsReverted: bool) {
    && (Settled(a.reference) <==> Settled(b.reference))
    && (Settled(a.reference) ==> a.reference == b.reference)
    && (needsReverted ==> a.reverted == b.reverted)
  }

  lemma SeenAlike(db: Db, w: Work)
    requires Sound(db) && WorkOk(db, w) && !w.job.Unparsed? && w.reference.Some? && !Stale(db, w)
    requires NeedsReverted(w) ==> w.reverted.Some?
    ensures Alike(SeenView(w), ViewOf(db, JobProvider(w.job), JobReference(w.job)), NeedsReverted(w))
  {
    if Settled(w.reference.value) {
      FoundIsTheOne(db, w.reference.value.value.info.id);
    }
  }

  lemma ReversalAlike(t: Tx, w: WalletRow, req: Request, a: View, b: View, ids: Ids, now: Instant)
    requires w.balance >= 0
    requires Alike(a, b, Settled(a.reference)
             && ReversalRejection(a.reference.value, req.kind, req.walletId, req.playerId, req.cmd.round, req.amount).None?)
    ensures ReversalPlan(t, w, req, a, ids, now) == ReversalPlan(t, w, req, b, ids, now)
  {
  }

  lemma ResumeAlike(p: Tx, w: WalletRow, a: View, b: View, policy: Policy, ids: Ids, now: Instant)
    requires w.balance >= 0
    requires Alike(a, b, Settled(a.reference)
             && ReversalRejection(a.reference.value, p.info.kind, p.info.walletId, p.info.playerId, p.info.round, p.info.amount).None?)
    ensures ResumePlan(p, w, a, policy, ids, now) == ResumePlan(p, w, b, policy, ids, now)
  {
  }

  lemma SubmissionAlone(db: Db, w: Work, ids: Ids, now: Instant)
    requires Sound(db) && WorkOk(db, w) && Ready(w) && w.answer.None? && w.job.Submit? && w.wallet.value.balance >= 0
    requires ReplayPlan(db.txs, w.job.req).None? && !Stale(db, w)
    ensures ApplyPlan(w.job.req, w.wallet.value, SeenView(w), ids, now) == RequestPlan(db, w.job.req, ids, now)
  {
    var req := w.job.req;
    var created := NewExternal(InfoFor(req, ids.tx, now));
    assert LockHolds(db, w);
    if created.Ok? && NeedsReference(w) {
      SeenAlike(db, w);
      ReversalAlike(created.value, w.wallet.value, req, SeenView(w), ViewOf(db, req.cmd.provider, req.cmd.refExternal), ids, now);
    }
  }

  lemma ResumptionAlone(policy: Policy, db: Db, w: Work, ids: Ids)
    requires Sound(db) && WorkOk(db, w) && Ready(w) && w.answer.None? && w.job.Resumption? && w.wallet.value.balance >= 0
    requires !Stale(db, w)
    ensures ResumePlan(w.job.pending, w.wallet.value, SeenView(w), policy, ids, w.job.claimedAt)
            == ResumeOn(db, w.job.pending, policy, ids, w.job.claimedAt)
  {
    var p := w.job.pending;
    assert LockHolds(db, w);
    SeenAlike(db, w);
    ResumeAlike(p, w.wallet.value, SeenView(w), ViewOf(db, p.info.provider, p.info.refExternal), policy, ids, w.job.claimedAt);
  }

  // A stale reference sits in another wallet, so alone the job would have been rejected at once.
  lemma StaleIsForeign(db: Db, w: Work)
    requires WorkOk(db, w) && Stale(db, w)
    ensures var t := FindByExternalId(db.txs, JobProvider(w.job), JobReference(w.job)).value;
            && t.info.walletId != JobWallet(w.job)
            && (w.job.Submit? ==> var req := w.job.req;
                  ReversalRejection(t, req.kind, req.walletId, req.playerId, req.cmd.round, req.amount).Some?)
            && (w.job.Resumption? ==> var p := w.job.pending;
                  ReversalRejection(t, p.info.kind, p.info.walletId, p.info.playerId, p.info.round, p.info.amount).Some?)
  {
  }

  lemma StaleSubmissionDiffers(db: Db, w: Work, ids: Ids, now: Instant)
    requires Sound(db) && WorkOk(db, w) && Ready(w) && w.answer.None? && w.job.Submit? && w.wallet.value.balance >= 0
    requires ReplayPlan(db.txs, w.job.req).None? && Stale(db, w)
    requires ApplyPlan(w.job.req, w.wallet.value, SeenView(w), ids, now).Write?
    ensures ApplyPlan(w.job.req, w.wallet.value, SeenView(w), ids, now) != RequestPlan(db, w.job.req, ids, now)
    ensures ApplyPlan(w.job.req, w.wallet.value, SeenView(w), ids, now).result.status == PendingReference
  {
    StaleIsForeign(db, w);
    assert LockHolds(db, w);
  }

  lemma StaleResumptionDiffers(policy: Policy, db: Db, w: Work, ids: Ids)
    requires Sound(db) && WorkOk(db, w) && Ready(w) && w.answer.None? && w.job.Resumption? && w.wallet.value.balance >= 0
    requires Stale(db, w)
    requires ResumePlan(w.job.pending, w.wallet.value, SeenView(w), policy, ids, w.job.claimedAt).Write?
    ensures ResumePlan(w.job.pending, w.wallet.value, SeenView(w), policy, ids, w.job.claimedAt)
            != ResumeOn(db, w.job.pending, policy, ids, w.job.claimedAt)
  {
    StaleIsForeign(db, w);
    assert LockHolds(db, w);
  }

  lemma DecisionAlone(policy: Policy, db: Db, w: Work, ids: Ids, now: Instant)
    requires Sound(db) && WorkOk(db, w) && Ready(w) && w.answer.None? && w.wallet.value.balance >= 0
    requires Decision(policy, w, ids, now).Write? && TxAdmissible(db, Decision(policy, w, ids, now).delta.tx)
    requires w.job.Submit? ==> Decision(policy, w, ids, now).delta.tx.info.id !in db.txs
    ensures Decision(policy, w, ids, now) == Alone(policy, db, w.job, ids, now) <==> !Stale(db, w)
  {
    match w.job
    case Submit(req) =>
      ApplyConcerns(req, w.wallet.value, SeenView(w), ids, now);
      NothingToReplay(db, req, Decision(policy, w, ids, now).delta.tx);
      if Stale(db, w) {
        StaleSubmissionDiffers(db, w, ids, now);
      } else {
        SubmissionAlone(db, w, ids, now);
      }
    case Resumption(_, _) =>
      if Stale(db, w) {
        StaleResumptionDiffers(policy, db, w, ids);
      } else {
        ResumptionAlone(policy, db, w, ids);
      }
  }

  // The inbox row plays no part in the comparison.
  lemma RecordedAlone(policy: Policy, db: Db, w: Work, ids: Ids, now: Instant)
    requires Inv(db) && WorkOk(db, w) && Ready(w) && w.answer.None? && w.wallet.value.balance >= 0
    requires Decision(policy, w, ids, now).Write?
    requires Legal(Snapshot(db, w), Decision(policy, w, ids, now).delta)
    requires TxAdmissible(Snapshot(db, w), Decision(policy, w, ids, now).delta.tx)
    ensures Sound(Snapshot(db, w))
    ensures Decision(policy, w, ids, now) == Alone(policy, Snapshot(db, w), w.job, ids, now) <==> !Stale(db, w)
  {
    InboxRowIsIdle(policy, w, ids, now);
    SnapshotOk(db, w);
    WritesWhere(policy, w, ids, now);
    assert Stale(db, w) <==> Stale(Snapshot(db, w), w.(inbox := None));
    DecisionAlone(policy, Snapshot(db, w), w.(inbox := None), ids, now);
  }

  lemma EffectIsRun(db: Db, w: Work, plan: Plan)
    requires EndWith(db, w, plan).effect.Some?
    ensures EndWith(db, w, plan).db == PlanExec(Snapshot(db, w), plan).db
  {
  }

  // A unit that commits writes decides exactly as if it had run alone on the tables it commits
  // to, unless its reference, in another wallet, became terminal after it was looked up.
  lemma CommitsAsIfAlone(s: System, u: nat, ids: Ids, now: Instant)
    requires Reachable(s) && Enabled(s, Finish(u, ids, now))
    requires End(s.policy, s.db, s.units[u], ids, now).effect.Some?
    ensures var w := s.units[u];
            && !w.job.Unparsed? && Sound(Snapshot(s.db, w))
            && (Decision(s.policy, w, ids, now) == Alone(s.policy, Snapshot(s.db, w), w.job, ids, now) <==> !Stale(s.db, w))
            && (!Stale(s.db, w) ==>
                  Next(s, Finish(u, ids, now)).db == PlanExec(Snapshot(s.db, w), Alone(s.policy, Snapshot(s.db, w), w.job, ids, now)).db)
            && (Stale(s.db, w) ==>
                  FindByExternalId(s.db.txs, JobProvider(w.job), JobReference(w.job)).value.info.walletId != JobWallet(w.job))
  {
    ReachableOk(s);
    var w := s.units[u];
    assert WorkOk(s.db, w);
    EndShape(s.policy, s.db, w, ids, now);
    RecordedAlone(s.policy, s.db, w, ids, now);
    EffectIsRun(s.db, w, Decision(s.policy, w, ids, now));
    if Stale(s.db, w) {
      StaleIsForeign(s.db, w);
    }
  }

  // The code with which a reference in this state rejects a reversal, if it does.
  function RowCode(p: Tx, reference: Tx): Option<FailureCode> {
    ReversalRejection(reference, p.info.kind, p.info.walletId, p.info.playerId, p.info.round, p.info.amount)
  }

  // A row that waits although its reference, in another wallet, has settled is rejected with the
  // reference's code whenever it is resumed alone, exhausted or not.
  lemma StaleSettlesTheSame(earlier: Db, later: Db, p: Tx, policy: Policy, ids: Ids, now: Instant)
    requires Sound(earlier) && Sound(later) && TxsGrow(earlier.txs, later.txs) && p.info.walletId in later.wallets
    requires Settled(FindByExternalId(earlier.txs, p.info.provider, p.info.refExternal))
    requires FindByExternalId(earlier.txs, p.info.provider, p.info.refExternal).value.info.walletId != p.info.walletId
    ensures var code := RowCode(p, FindByExternalId(earlier.txs, p.info.provider, p.info.refExternal).value);
            code.Some? && ResumeOn(later, p, policy, ids, now) == RejectPlan(false, p, code.value, ids, now)
  {
    var reference := FindByExternalId(earlier.txs, p.info.provider, p.info.refExternal).value;
    FoundIsTheOne(later, reference.info.id);
  }
}
