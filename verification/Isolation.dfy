// What holds in every reachable state of the concurrent system: the tables keep their invariant,
// what an open unit read under its locks stays true, and committed history only grows.
module Isolation {
  import opened Base
  import opened Wagering
  import opened Wallets
  import opened Store
  import opened Process
  import opened Resolve
  import opened Units
  import opened Invariant
  import opened Legality
  import opened Admission
  import opened Steps
  import opened Interleaving

  // ----- what an open unit may rely on

  // A terminal reference stays as it was read. If none was found, or it was not terminal, a
  // terminal one can since have appeared only in another wallet.
  ghost predicate ReferenceHolds(db: Db, wallet: Id, provider: string, refExternal: string, seen: Option<Tx>) {
    if seen.Some? && IsTerminal(seen.value.status) then
      && HasExternalId(seen.value, provider, refExternal)
      && seen.value.info.id in db.txs && db.txs[seen.value.info.id] == seen.value
    else
      forall id | id in db.txs :: HasExternalId(db.txs[id], provider, refExternal) && IsTerminal(db.txs[id].status)
                                  ==> db.txs[id].info.walletId != wallet
  }

  ghost predicate RevertedHolds(db: Db, wallet: Id, t: Tx, reverted: bool) {
    IsTerminal(t.status) && (t.info.walletId == wallet ==> (HasSuccessfulReversal(db.txs, t.info.id) <==> reverted))
  }

  ghost predicate LockHolds(db: Db, w: Work) {
    w.wallet.Some? ==>
      && !w.job.Unparsed? && w.wallet.value.id == JobWallet(w.job)
      && JobWallet(w.job) in db.wallets && db.wallets[JobWallet(w.job)] == w.wallet.value
  }

  ghost predicate ClaimHolds(db: Db, w: Work) {
    w.job.Resumption? ==>
      && w.inbox.None? && w.job.pending.status == PendingReference
      && w.job.pending.info.id in db.txs && db.txs[w.job.pending.info.id] == w.job.pending
  }

  ghost predicate ReadsHold(db: Db, w: Work) {
    && (w.reference.Some? ==>
          && NeedsReference(w) && !w.job.Unparsed?
          && ReferenceHolds(db, JobWallet(w.job), JobProvider(w.job), JobReference(w.job), w.reference.value))
    && (w.reverted.Some? ==>
          && w.reference.Some? && w.reference.value.Some? && !w.job.Unparsed?
          && RevertedHolds(db, JobWallet(w.job), w.reference.value.value, w.reverted.value))
  }

  ghost predicate WorkOk(db: Db, w: Work) {
    && (w.inbox.Some? ==> w.inbox.value.0 !in db.inbox)
    && (w.answer.Some? ==> !w.answer.value.Write?)
    && (w.job.Unparsed? ==> w.answer.Some?)
    && LockHolds(db, w) && ClaimHolds(db, w) && ReadsHold(db, w)
  }

  // Two units never hold the same lock.
  predicate Apart(a: Work, b: Work) {
    && !(a.wallet.Some? && b.wallet.Some? && a.wallet.value.id == b.wallet.value.id)
    && !(a.inbox.Some? && b.inbox.Some? && a.inbox.value.0 == b.inbox.value.0)
    && !(a.job.Resumption? && b.job.Resumption? && a.job.pending.info.id == b.job.pending.info.id)
  }

  ghost predicate UnitsOk(s: System) {
    && (forall u | u in s.units :: WorkOk(s.db, s.units[u]))
    && (forall u, v | u in s.units && v in s.units && u != v :: Apart(s.units[u], s.units[v]))
  }

  // ----- growth of the committed tables

  ghost predicate WalletsGrow(a: map<Id, WalletRow>, b: map<Id, WalletRow>) {
    forall w | w in a :: w in b && a[w].version <= b[w].version
      && b[w] == a[w].(balance := b[w].balance, version := b[w].version, updatedAt := b[w].updatedAt)
  }

  ghost predicate InboxGrows(a: map<InboxKey, string>, b: map<InboxKey, string>) {
    forall k | k in a :: k in b && b[k] == a[k]
  }

  ghost predicate Grows(a: Db, b: Db) {
    WalletsGrow(a.wallets, b.wallets) && TxsGrow(a.txs, b.txs) && InboxGrows(a.inbox, b.inbox)
    && a.ledger <= b.ledger && a.outbox <= b.outbox
  }

  lemma GrowsTransitively(a: Db, b: Db, c: Db)
    requires Grows(a, b) && Grows(b, c)
    ensures Grows(a, c)
  {
  }

  // Nothing about one wallet changed: neither its row nor any transaction submitted to it.
  ghost predicate QuietFor(a: Db, b: Db, wallet: Id) {
    && (wallet in a.wallets ==> wallet in b.wallets && b.wallets[wallet] == a.wallets[wallet])
    && (forall id | id in b.txs :: b.txs[id].info.walletId == wallet ==> id in a.txs && b.txs[id] == a.txs[id])
  }

  // ----- frames: commits elsewhere leave a unit's reads true

  lemma WorkFrame(a: Db, b: Db, w: Work)
    requires Grows(a, b) && Refs(b.txs) && WorkOk(a, w)
    requires w.wallet.Some? && !w.job.Unparsed? ==> QuietFor(a, b, JobWallet(w.job))
    requires w.inbox.Some? ==> w.inbox.value.0 !in b.inbox
    requires w.job.Resumption? ==> b.txs[w.job.pending.info.id] == a.txs[w.job.pending.info.id]
    ensures WorkOk(b, w)
  {
  }

  // ----- one statement of a unit

  lemma LookupHolds(db: Db, wallet: Id, provider: string, refExternal: string)
    requires Sound(db)
    ensures ReferenceHolds(db, wallet, provider, refExternal, FindByExternalId(db.txs, provider, refExternal))
  {
    var seen := FindByExternalId(db.txs, provider, refExternal);
    if seen.Some? {
      forall id | id in db.txs && HasExternalId(db.txs[id], provider, refExternal) ensures db.txs[id] == seen.value {
        FoundIsTheOne(db, id);
      }
    }
  }

  lemma LockOk(db: Db, w: Work, u: nat)
    requires Keyed(db) && WorkOk(db, w) && CanLock(w)
    ensures WorkOk(db, Advance(db, w, Lock(u)))
  {
    assert ClaimHolds(db, w) && ReadsHold(db, w);
  }

  lemma CheckOk(db: Db, w: Work, step: Step)
    requires WorkOk(db, w) && CanAdvance(w, step) && (step.ReadKey? || step.ReadExternal?)
    ensures WorkOk(db, Advance(db, w, step))
  {
    assert LockHolds(db, w) && ReadsHold(db, w);
  }

  lemma LookupOk(db: Db, w: Work, u: nat)
    requires Sound(db) && WorkOk(db, w) && CanReadReference(w)
    ensures WorkOk(db, Advance(db, w, ReadReference(u)))
  {
    assert LockHolds(db, w) && ClaimHolds(db, w) && ReadsHold(db, w);
    LookupHolds(db, JobWallet(w.job), JobProvider(w.job), JobReference(w.job));
  }

  lemma RevertedOk(db: Db, w: Work, u: nat)
    requires WorkOk(db, w) && CanReadReverted(w)
    ensures WorkOk(db, Advance(db, w, ReadReverted(u)))
  {
    assert LockHolds(db, w) && ClaimHolds(db, w) && ReadsHold(db, w);
  }

  lemma AdvanceOk(db: Db, w: Work, step: Step)
    requires Sound(db) && WorkOk(db, w) && CanAdvance(w, step)
    ensures WorkOk(db, Advance(db, w, step))
  {
    match step
    case Lock(u) => LockOk(db, w, u);
    case ReadKey(_) => CheckOk(db, w, step);
    case ReadExternal(_) => CheckOk(db, w, step);
    case ReadReference(u) => LookupOk(db, w, u);
    case ReadReverted(u) => RevertedOk(db, w, u);
  }

  // ----- the end of a unit

  ghost predicate WritesOwn(w: Work, d: Delta)
    requires !w.job.Unparsed? && w.wallet.Some?
  {
    && d.tx.info.walletId == JobWallet(w.job)
    && (d.create <==> w.job.Submit?)
    && (w.job.Resumption? ==> d.tx.info == w.job.pending.info)
    && (d.move.Some? ==> d.move.value.wallet.id == w.wallet.value.id)
  }

  lemma WritesWhere(policy: Policy, w: Work, ids: Ids, now: Instant)
    requires Ready(w) && w.answer.None? && w.wallet.value.balance >= 0
    requires Decision(policy, w, ids, now).Write?
    ensures WritesOwn(w, Decision(policy, w, ids, now).delta)
  {
    match w.job
    case Submit(req) => ApplyConcerns(req, w.wallet.value, SeenView(w), ids, now);
    case Resumption(p, claimedAt) => ResumeConcerns(p, w.wallet.value, SeenView(w), policy, ids, claimedAt);
  }

  lemma SeenViewHolds(db: Db, w: Work)
    requires WorkOk(db, w) && Ready(w) && w.answer.None?
    ensures ViewHolds(db, JobWallet(w.job), JobProvider(w.job), JobReference(w.job), SeenView(w))
  {
  }

  lemma DecisionLegal(policy: Policy, db: Db, w: Work, ids: Ids, now: Instant)
    requires Keyed(db) && Rows(db) && WorkOk(db, w) && Ready(w) && w.answer.None? && w.wallet.value.balance >= 0
    requires Runs(db, Decision(policy, w, ids, now))
    ensures Legal(db, Decision(policy, w, ids, now).delta)
  {
    RunsAreAccepted(db, Decision(policy, w, ids, now));
    SeenViewHolds(db, w);
    match w.job
    case Submit(req) => ApplyLegal(db, req, SeenView(w), ids, now);
    case Resumption(p, claimedAt) => ResumeLegal(db, p, SeenView(w), policy, ids, claimedAt);
  }

  lemma SnapshotOk(db: Db, w: Work)
    requires Inv(db) && WorkOk(db, w)
    ensures Inv(Snapshot(db, w)) && Grows(db, Snapshot(db, w))
    ensures WorkOk(Snapshot(db, w), w.(inbox := None))
  {
    if w.inbox.Some? {
      RecordKeepsInv(db, w.inbox.value.0, w.inbox.value.1);
    }
  }

  // Writes whose statements all succeed are legal, and are applied whole.
  lemma WritesApplied(policy: Policy, db: Db, w: Work, ids: Ids, now: Instant)
    requires Inv(db) && WorkOk(db, w) && Ready(w) && w.answer.None? && w.wallet.value.balance >= 0
    requires Runs(db, Decision(policy, w, ids, now))
    ensures var d := Decision(policy, w, ids, now).delta;
            Legal(db, d) && TxAdmissible(db, d.tx) && RunDelta(db, d) == Exec(Applied(db, d), None, false) && Inv(Applied(db, d))
  {
    var d := Decision(policy, w, ids, now).delta;
    DecisionLegal(policy, db, w, ids, now);
    RunIsApplied(db, d);
    RunDeltaKeepsSound(db, d);
    LegalKeepsInv(db, d);
  }

  lemma InboxRowIsIdle(policy: Policy, w: Work, ids: Ids, now: Instant)
    requires Ready(w) && (w.wallet.Some? ==> w.wallet.value.balance >= 0)
    ensures Ready(w.(inbox := None)) && Decision(policy, w.(inbox := None), ids, now) == Decision(policy, w, ids, now)
  {
  }

  // A delivery whose identifiers arrived is not stopped halfway by a swallowed error.
  lemma NotStoppedHalfway(policy: Policy, db: Db, w: Work, ids: Ids, now: Instant)
    requires Keyed(db) && WorkOk(db, w.(inbox := None)) && Ready(w) && w.answer.None? && w.wallet.value.balance >= 0
    requires Decision(policy, w, ids, now).Write? && Delivered(Decision(policy, w, ids, now).delta)
    ensures var run := RunDelta(db, Decision(policy, w, ids, now).delta); run.error.Some? ==> run.failed
  {
    WritesWhere(policy, w, ids, now);
    assert LockHolds(db, w) && ClaimHolds(db, w.(inbox := None));
    DeliveredCompletesOrRefused(db, Decision(policy, w, ids, now).delta);
  }

  // A unit either leaves everything as it was, or commits its inbox row alone, or commits its
  // inbox row and all of its writes.
  ghost predicate WholeOrNothing(db: Db, w: Work, plan: Plan) {
    var e := EndWith(db, w, plan);
    match e.effect
    case None => e.db == if e.committed then Snapshot(db, w) else db
    case Some(d) =>
      && e.committed && plan.Write? && d == plan.delta
      && Legal(Snapshot(db, w), d) && TxAdmissible(Snapshot(db, w), d.tx) && e.db == Applied(Snapshot(db, w), d)
  }

  // Statements that all succeed write legally and whole; a delivery stops only where a
  // statement was refused.
  ghost predicate RunsWhole(base: Db, delivery: bool, d: Delta) {
    var run := RunDelta(base, d);
    if run.error.None? then
      Legal(base, d) && TxAdmissible(base, d.tx) && run == Exec(Applied(base, d), None, false)
    else delivery ==> run.failed
  }

  lemma DecisionRunsWhole(policy: Policy, base: Db, w: Work, ids: Ids, now: Instant)
    requires Inv(base) && WorkOk(base, w.(inbox := None)) && Ready(w) && w.answer.None? && w.wallet.value.balance >= 0
    requires Decision(policy, w, ids, now).Write?
    requires w.inbox.Some? ==> Delivered(Decision(policy, w, ids, now).delta)
    ensures RunsWhole(base, w.inbox.Some?, Decision(policy, w, ids, now).delta)
    ensures RunDelta(base, Decision(policy, w, ids, now).delta).error.None? ==> Inv(Applied(base, Decision(policy, w, ids, now).delta))
  {
    InboxRowIsIdle(policy, w, ids, now);
    if RunDelta(base, Decision(policy, w, ids, now).delta).error.None? {
      WritesApplied(policy, base, w.(inbox := None), ids, now);
    } else if w.inbox.Some? {
      NotStoppedHalfway(policy, base, w, ids, now);
    }
  }

  lemma PlanShape(db: Db, w: Work, plan: Plan)
    requires plan.Write? ==> RunsWhole(Snapshot(db, w), w.inbox.Some?, plan.delta)
    ensures WholeOrNothing(db, w, plan)
    ensures EndWith(db, w, plan).effect.Some? ==> RunDelta(Snapshot(db, w), plan.delta).error.None?
  {
  }

  lemma EndShape(policy: Policy, db: Db, w: Work, ids: Ids, now: Instant)
    requires Inv(db) && WorkOk(db, w) && Ready(w) && (w.wallet.Some? ==> w.wallet.value.balance >= 0)
    requires w.inbox.Some? && Decision(policy, w, ids, now).Write? ==> Delivered(Decision(policy, w, ids, now).delta)
    ensures WholeOrNothing(db, w, Decision(policy, w, ids, now)) && Inv(End(policy, db, w, ids, now).db)
  {
    SnapshotOk(db, w);
    if Decision(policy, w, ids, now).Write? {
      DecisionRunsWhole(policy, Snapshot(db, w), w, ids, now);
    }
    PlanShape(db, w, Decision(policy, w, ids, now));
  }

  lemma AppliedGrows(db: Db, d: Delta)
    requires Keyed(db) && Legal(db, d)
    ensures Grows(db, Applied(db, d)) && Applied(db, d).inbox == db.inbox
    ensures forall wallet: Id | wallet != d.tx.info.walletId :: QuietFor(db, Applied(db, d), wallet)
    ensures forall id | id in db.txs && Applied(db, d).txs[id] != db.txs[id] :: !d.create && id == d.tx.info.id
  {
    GrowsByDelta(db, d);
  }

  // What one unit's end may touch: its own wallet, its own claimed row and its own inbox row.
  ghost predicate Local(a: Db, b: Db, w: Work) {
    && Grows(a, b)
    && (forall wallet: Id :: !HoldsWallet(w, wallet) ==> QuietFor(a, b, wallet))
    && (forall key | key in b.inbox && key !in a.inbox :: HoldsKey(w, key))
    && (forall id | id in a.txs && b.txs[id] != a.txs[id] :: HoldsRow(w, id))
  }

  lemma LocalAfter(db: Db, w: Work, d: Delta, after: Db)
    requires w.wallet.Some? && LockHolds(db, w) && WritesOwn(w, d)
    requires var base := Snapshot(db, w);
             && Grows(base, after) && after.inbox == base.inbox && (w.inbox.Some? ==> w.inbox.value.0 !in db.inbox)
             && (forall wallet: Id | wallet != d.tx.info.walletId :: QuietFor(base, after, wallet))
             && (forall id | id in base.txs && after.txs[id] != base.txs[id] :: !d.create && id == d.tx.info.id)
    ensures Local(db, after, w)
  {
    forall wallet: Id | !HoldsWallet(w, wallet) ensures QuietFor(db, after, wallet) {
      assert QuietFor(Snapshot(db, w), after, wallet);
    }
  }

  lemma EndLocal(policy: Policy, db: Db, w: Work, ids: Ids, now: Instant)
    requires Keyed(db) && WorkOk(db, w) && Ready(w) && (w.wallet.Some? ==> w.wallet.value.balance >= 0)
    requires WholeOrNothing(db, w, Decision(policy, w, ids, now))
    ensures Local(db, End(policy, db, w, ids, now).db, w)
  {
    var e, plan := End(policy, db, w, ids, now), Decision(policy, w, ids, now);
    if e.effect.Some? {
      WritesWhere(policy, w, ids, now);
      AppliedGrows(Snapshot(db, w), plan.delta);
      LocalAfter(db, w, plan.delta, e.db);
    }
  }

  lemma OtherWorkOk(s: System, u: nat, v: nat, db: Db)
    requires UnitsOk(s) && u in s.units && v in s.units && u != v && Refs(db.txs) && Local(s.db, db, s.units[u])
    ensures WorkOk(db, s.units[v])
  {
    assert Apart(s.units[u], s.units[v]) && WorkOk(s.db, s.units[v]);
    assert LockHolds(s.db, s.units[v]) && ClaimHolds(s.db, s.units[v]);
    WorkFrame(s.db, db, s.units[v]);
  }

  lemma FinishOk(s: System, u: nat, ids: Ids, now: Instant)
    requires Inv(s.db) && UnitsOk(s) && Enabled(s, Finish(u, ids, now))
    ensures Inv(Next(s, Finish(u, ids, now)).db) && Grows(s.db, Next(s, Finish(u, ids, now)).db)
    ensures UnitsOk(Next(s, Finish(u, ids, now)))
  {
    EndShape(s.policy, s.db, s.units[u], ids, now);
    EndLocal(s.policy, s.db, s.units[u], ids, now);
    forall v | v in s.units && v != u ensures WorkOk(Next(s, Finish(u, ids, now)).db, s.units[v]) {
      OtherWorkOk(s, u, v, Next(s, Finish(u, ids, now)).db);
    }
  }

  // ----- opening a wallet

  // Opening adds a wallet and at most its opening transaction, and changes nothing else.
  ghost predicate AddsWallet(a: Db, b: Db) {
    && Grows(a, b) && b.inbox == a.inbox
    && (forall wallet | wallet in a.wallets :: QuietFor(a, b, wallet))
    && (forall id | id in b.txs && id !in a.txs :: b.txs[id].info.kind == Opening)
    && (forall id | id in a.txs :: b.txs[id] == a.txs[id])
  }

  lemma CreditedOpeningAdds(db: Db, w: WalletRow, ids: Ids)
    requires Keyed(db) && InsertWallet(db, w).Ok? && w.balance > 0 && w.version == 1
    requires OpeningOf(w, ids).Ok? && RunOpening(InsertWallet(db, w).value, OpeningOf(w, ids).value).error.None?
    ensures AddsWallet(db, RunOpening(InsertWallet(db, w).value, OpeningOf(w, ids).value).db)
  {
    OpeningShape(db, w, OpeningOf(w, ids).value, ids);
  }

  lemma OpenAdds(
    db: Db, codec: Codec, player: string, amount: string, currency: string, walletId: Id, ids: Ids, now: Instant)
    requires Keyed(db)
    ensures AddsWallet(db, OpenStep(db, codec, player, amount, currency, walletId, ids, now).0)
  {
    var row := OpenRow(codec, player, amount, currency, walletId, now);
    if row.Ok? && OpenExec(db, row.value, ids).error.None? && row.value.balance != 0 {
      CreditedOpeningAdds(db, row.value, ids);
    }
  }

  lemma OpenOk(s: System, step: Step)
    requires Inv(s.db) && UnitsOk(s) && step.OpenWallet?
    ensures Inv(Next(s, step).db) && Grows(s.db, Next(s, step).db) && UnitsOk(Next(s, step))
  {
    var db' := Next(s, step).db;
    OpenKeepsInv(s.db, s.codec, step.player, step.amount, step.currency, step.walletId, step.ids, step.now);
    OpenAdds(s.db, s.codec, step.player, step.amount, step.currency, step.walletId, step.ids, step.now);
    forall v | v in s.units ensures WorkOk(db', s.units[v]) {
      assert WorkOk(s.db, s.units[v]) && LockHolds(s.db, s.units[v]) && ClaimHolds(s.db, s.units[v]);
      WorkFrame(s.db, db', s.units[v]);
    }
  }

  // ----- every step, every run

  lemma BeginOk(s: System, u: nat, w: Work)
    requires UnitsOk(s) && u !in s.units && WorkOk(s.db, w) && w.wallet.None?
    requires w.inbox.Some? ==> NobodyHolds(s, (x: Work) => HoldsKey(x, w.inbox.value.0))
    requires w.job.Resumption? ==> NobodyHolds(s, (x: Work) => HoldsRow(x, w.job.pending.info.id))
    ensures UnitsOk(s.(units := s.units[u := w]))
  {
  }

  // Reading changes neither the job nor the inbox row, and only a lock step takes a wallet.
  lemma AdvanceKeeps(db: Db, w: Work, step: Step)
    requires Keyed(db)
    requires CanAdvance(w, step)
    ensures var w' := Advance(db, w, step);
            && w'.job == w.job && w'.inbox == w.inbox
            && (w'.wallet == w.wallet || (step.Lock? && w'.wallet.Some? && w'.wallet.value.id == JobWallet(w.job)))
  {
  }

  lemma ReadOk(s: System, step: Step)
    requires Sound(s.db) && UnitsOk(s) && Enabled(s, step)
    requires step.Lock? || step.ReadKey? || step.ReadExternal? || step.ReadReference? || step.ReadReverted?
    ensures UnitsOk(Next(s, step)) && Next(s, step).db == s.db
  {
    var w := s.units[step.u];
    AdvanceOk(s.db, w, step);
    AdvanceKeeps(s.db, w, step);
    ReplaceOk(s, step.u, Advance(s.db, w, step));
  }

  lemma ReplaceOk(s: System, u: nat, w: Work)
    requires UnitsOk(s) && u in s.units && WorkOk(s.db, w) && w.job == s.units[u].job && w.inbox == s.units[u].inbox
    requires w.wallet == s.units[u].wallet
             || (w.wallet.Some? && NobodyHolds(s, (x: Work) => HoldsWallet(x, w.wallet.value.id)))
    ensures UnitsOk(s.(units := s.units[u := w]))
  {
    forall v | v in s.units && v != u ensures Apart(w, s.units[v]) && Apart(s.units[v], w) {
      assert Apart(s.units[u], s.units[v]);
      assert w.wallet != s.units[u].wallet ==> !HoldsWallet(s.units[v], w.wallet.value.id);
    }
  }

  lemma ArriveOk(s: System, step: Step)
    requires UnitsOk(s) && Enabled(s, step) && (step.Http? || step.Receive?)
    ensures Next(s, step).db == s.db && UnitsOk(Next(s, step))
  {
    match step
    case Http(u, c) =>
      if Parse(s.codec, c).Ok? {
        BeginOk(s, u, Begun(JobOf(s.codec, c), None));
      }
    case Receive(u, m) =>
      if ParseEnvelope(s.channel, m).Ok? && Key(s.channel, m) !in s.db.inbox {
        BeginOk(s, u, Begun(JobOf(s.codec, m.data.value), Some((Key(s.channel, m), PayloadHash(s.codec, m.data.value)))));
      }
  }

  lemma StepOk(s: System, step: Step)
    requires Inv(s.db) && UnitsOk(s) && Enabled(s, step)
    ensures Inv(Next(s, step).db) && Grows(s.db, Next(s, step).db) && UnitsOk(Next(s, step))
    ensures Next(s, step).policy == s.policy && Next(s, step).codec == s.codec && Next(s, step).channel == s.channel
  {
    match step
    case Http(_, _) => ArriveOk(s, step);
    case Receive(_, _) => ArriveOk(s, step);
    case Claim(u, row, now) => BeginOk(s, u, Begun(Resumption(s.db.txs[row], now), None));
    case Finish(u, ids, now) => FinishOk(s, u, ids, now);
    case Crash(_) =>
    case OpenWallet(_, _, _, _, _, _) => OpenOk(s, step);
    case _ => ReadOk(s, step);
  }

  // Under every interleaving of HTTP calls, deliveries, worker rounds, openings and crashes, the
  // committed tables keep their invariant, every open unit's locked reads stay true, terminal
  // rows never change, and ledger, outbox and inbox only grow.
  lemma {:induction false} RunOk(s: System, steps: seq<Step>)
    requires Inv(s.db) && UnitsOk(s)
    ensures Inv(Run(s, steps).db) && UnitsOk(Run(s, steps)) && Grows(s.db, Run(s, steps).db)
    ensures Run(s, steps).policy == s.policy && Run(s, steps).codec == s.codec && Run(s, steps).channel == s.channel
    decreases |steps|
  {
    if steps != [] {
      var next := if Enabled(s, steps[0]) then Next(s, steps[0]) else s;
      if Enabled(s, steps[0]) {
        StepOk(s, steps[0]);
      }
      RunOk(next, steps[1..]);
      GrowsTransitively(s.db, next.db, Run(s, steps).db);
    }
  }

  lemma ReachableOk(s: System)
    requires Reachable(s)
    ensures Inv(s.db) && UnitsOk(s)
  {
    var site: Site, steps: seq<Step> :| s == Run(Init(site), steps);
    EmptyIsInv();
    RunOk(Init(site), steps);
  }
}
