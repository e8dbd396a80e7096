// Counting commits over whole runs: each delivery and each submission takes effect once, and a
// pending reference is resumed a bounded number of times.
module Once {
  import opened Base
  import opened Wagering
  import opened Wallets
  import opened Store
  import opened Process
  import opened Resolve
  import opened Units
  import opened Invariant
  import opened Steps
  import opened Interleaving
  import opened Isolation

  function Count(log: seq<Commit>, p: Commit -> bool): nat {
    if log == [] then 0 else Count(log[..|log| - 1], p) + if p(log[|log| - 1]) then 1 else 0
  }

  lemma CountAppend(log: seq<Commit>, c: Commit, p: Commit -> bool)
    ensures Count(log + [c], p) == Count(log, p) + if p(c) then 1 else 0
  {
  }

  // Commits that recorded a delivery, that inserted a submission, that resumed a pending row.
  function OfDelivery(key: InboxKey): Commit -> bool {
    (c: Commit) => c.inbox == Some(key)
  }

  function OfKey(provider: string, key: string): Commit -> bool {
    (c: Commit) => c.effect.Some? && c.effect.value.create && HasKey(c.effect.value.tx, provider, key)
  }

  function OfExternalId(provider: string, externalId: string): Commit -> bool {
    (c: Commit) => c.effect.Some? && c.effect.value.create && HasExternalId(c.effect.value.tx, provider, externalId)
  }

  function OfResume(id: Id): Commit -> bool {
    (c: Commit) => c.effect.Some? && !c.effect.value.create && c.effect.value.tx.info.id == id
  }

  // ----- the counts a state accounts for

  ghost predicate DeliveriesCounted(db: Db, log: seq<Commit>) {
    forall key: InboxKey :: Count(log, OfDelivery(key)) == if key in db.inbox then 1 else 0
  }

  ghost predicate KeysCounted(txs: map<Id, Tx>, log: seq<Commit>) {
    forall provider: string, key: string ::
      Count(log, OfKey(provider, key)) == if FindByKey(txs, provider, key).Some? then 1 else 0
  }

  ghost predicate ExternalIdsCounted(txs: map<Id, Tx>, log: seq<Commit>) {
    forall provider: string, externalId: string ::
      Count(log, OfExternalId(provider, externalId)) == if FindByExternalId(txs, provider, externalId).Some? then 1 else 0
  }

  predicate ResumesFit(txs: map<Id, Tx>, id: Id, resumes: nat, max: int) {
    if id !in txs then resumes == 0
    else if txs[id].status == PendingReference then resumes == txs[id].attempts < max
    else resumes <= max
  }

  ghost predicate ResumesCounted(txs: map<Id, Tx>, log: seq<Commit>, max: int) {
    forall id: Id :: ResumesFit(txs, id, Count(log, OfResume(id)), max)
  }

  ghost predicate Counted(s: System) {
    && s.policy.maxAttempts >= 1
    && DeliveriesCounted(s.db, s.log)
    && KeysCounted(s.db.txs, s.log)
    && ExternalIdsCounted(s.db.txs, s.log)
    && ResumesCounted(s.db.txs, s.log, s.policy.maxAttempts)
  }

  // ----- one commit

  // What a resumption decides about the row it claimed: it becomes terminal, or it keeps waiting
  // with one more attempt, still below the limit.
  lemma ResumeProgress(p: Tx, w: WalletRow, view: View, policy: Policy, ids: Ids, now: Instant)
    requires w.balance >= 0 && p.status == PendingReference && ResumePlan(p, w, view, policy, ids, now).Write?
    ensures var t := ResumePlan(p, w, view, policy, ids, now).delta.tx;
            || IsTerminal(t.status)
            || (t.status == PendingReference && t.attempts == p.attempts + 1 < policy.maxAttempts)
  {
  }

  // A new submission that has to wait starts at zero attempts.
  lemma ApplyStart(req: Request, w: WalletRow, view: View, ids: Ids, now: Instant)
    requires w.balance >= 0 && ApplyPlan(req, w, view, ids, now).Write?
    ensures var t := ApplyPlan(req, w, view, ids, now).delta.tx; t.status == PendingReference ==> t.attempts == 0
  {
  }

  // The row a commit writes, compared with what was stored.
  predicate Progress(txs: map<Id, Tx>, d: Delta, max: int) {
    d.tx.status == PendingReference ==>
      if d.create then d.tx.attempts == 0
      else d.tx.info.id in txs && d.tx.attempts == txs[d.tx.info.id].attempts + 1 < max
  }

  lemma DecisionProgress(policy: Policy, db: Db, w: Work, ids: Ids, now: Instant)
    requires WorkOk(db, w) && Ready(w) && w.answer.None? && w.wallet.value.balance >= 0
    requires Decision(policy, w, ids, now).Write?
    ensures Progress(db.txs, Decision(policy, w, ids, now).delta, policy.maxAttempts)
  {
    WritesWhere(policy, w, ids, now);
    match w.job
    case Submit(req) => ApplyStart(req, w.wallet.value, SeenView(w), ids, now);
    case Resumption(p, claimedAt) => ResumeProgress(p, w.wallet.value, SeenView(w), policy, ids, claimedAt);
  }

  lemma DeliveriesAfter(db: Db, log: seq<Commit>, inbox: map<InboxKey, string>, c: Commit)
    requires DeliveriesCounted(db, log)
    requires match c.inbox
             case None => inbox == db.inbox
             case Some(key) => key !in db.inbox && inbox.Keys == db.inbox.Keys + {key}
    ensures DeliveriesCounted(db.(inbox := inbox), log + [c])
  {
  }

  // The table after writing one row: the lookups answer for it and otherwise as before.
  lemma KeysAfter(txs: map<Id, Tx>, log: seq<Commit>, d: Delta, c: Commit)
    requires KeysCounted(txs, log) && c.effect == Some(d)
    requires d.create ==> d.tx.info.id !in txs && TxUnique(txs, d.tx)
    requires !d.create ==> d.tx.info.id in txs && txs[d.tx.info.id].info == d.tx.info
    ensures KeysCounted(txs[d.tx.info.id := d.tx], log + [c])
  {
    var after := txs[d.tx.info.id := d.tx];
    forall provider: string, key: string
      ensures Count(log + [c], OfKey(provider, key)) == if FindByKey(after, provider, key).Some? then 1 else 0
    {
      CountAppend(log, c, OfKey(provider, key));
      assert after[d.tx.info.id] == d.tx;
      assert forall id | id in txs :: id in after && after[id].info == txs[id].info;
      if d.create && HasKey(d.tx, provider, key) {
        forall id | id in txs ensures !HasKey(txs[id], provider, key) {
          assert !Clash(txs[id], d.tx);
        }
      }
    }
  }

  lemma ExternalIdsAfter(txs: map<Id, Tx>, log: seq<Commit>, d: Delta, c: Commit)
    requires ExternalIdsCounted(txs, log) && c.effect == Some(d)
    requires d.create ==> d.tx.info.id !in txs && TxUnique(txs, d.tx)
    requires !d.create ==> d.tx.info.id in txs && txs[d.tx.info.id].info == d.tx.info
    ensures ExternalIdsCounted(txs[d.tx.info.id := d.tx], log + [c])
  {
    var after := txs[d.tx.info.id := d.tx];
    forall provider: string, externalId: string
      ensures Count(log + [c], OfExternalId(provider, externalId)) == if FindByExternalId(after, provider, externalId).Some? then 1 else 0
    {
      CountAppend(log, c, OfExternalId(provider, externalId));
      assert after[d.tx.info.id] == d.tx;
      assert forall id | id in txs :: id in after && after[id].info == txs[id].info;
      if d.create && HasExternalId(d.tx, provider, externalId) {
        forall id | id in txs ensures !HasExternalId(txs[id], provider, externalId) {
          assert !Clash(txs[id], d.tx);
        }
      }
    }
  }

  lemma ResumesAfter(txs: map<Id, Tx>, log: seq<Commit>, d: Delta, c: Commit, max: int)
    requires ResumesCounted(txs, log, max) && c.effect == Some(d) && max >= 1 && Progress(txs, d, max)
    requires if d.create then d.tx.info.id !in txs
             else d.tx.info.id in txs && txs[d.tx.info.id].status == PendingReference
    ensures ResumesCounted(txs[d.tx.info.id := d.tx], log + [c], max)
  {
  }

  lemma EffectCounted(s: System, d: Delta, c: Commit, inbox: map<InboxKey, string>)
    requires Counted(s) && c.effect == Some(d) && Keyed(s.db) && Legal(s.db.(inbox := inbox), d) && TxUnique(s.db.txs, d.tx)
    requires Progress(s.db.txs, d, s.policy.maxAttempts)
    requires match c.inbox
             case None => inbox == s.db.inbox
             case Some(key) => key !in s.db.inbox && inbox.Keys == s.db.inbox.Keys + {key}
    ensures Counted(s.(db := Applied(s.db.(inbox := inbox), d), log := s.log + [c]))
  {
    DeliveriesAfter(s.db, s.log, inbox, c);
    KeysAfter(s.db.txs, s.log, d, c);
    ExternalIdsAfter(s.db.txs, s.log, d, c);
    ResumesAfter(s.db.txs, s.log, d, c, s.policy.maxAttempts);
  }

  lemma QuietCommitCounted(s: System, c: Commit, inbox: map<InboxKey, string>)
    requires Counted(s) && c.effect == None
    requires match c.inbox
             case None => inbox == s.db.inbox
             case Some(key) => key !in s.db.inbox && inbox.Keys == s.db.inbox.Keys + {key}
    ensures Counted(s.(db := s.db.(inbox := inbox), log := s.log + [c]))
  {
  }

  lemma EndingCounted(s: System, u: nat, plan: Plan)
    requires Keyed(s.db) && Counted(s) && u in s.units && WholeOrNothing(s.db, s.units[u], plan)
    requires s.units[u].inbox.Some? ==> s.units[u].inbox.value.0 !in s.db.inbox
    requires plan.Write? ==> Progress(s.db.txs, plan.delta, s.policy.maxAttempts)
    ensures Counted(Ended(s, u, EndWith(s.db, s.units[u], plan)))
  {
    var w := s.units[u];
    var e := EndWith(s.db, w, plan);
    var c := Commit(if w.inbox.Some? then Some(w.inbox.value.0) else None, e.effect);
    if e.effect.Some? {
      EffectCounted(s, e.effect.value, c, Snapshot(s.db, w).inbox);
    } else if e.committed {
      QuietCommitCounted(s, c, Snapshot(s.db, w).inbox);
    }
  }

  lemma FinishCounted(s: System, u: nat, ids: Ids, now: Instant)
    requires Inv(s.db) && UnitsOk(s) && Counted(s) && Enabled(s, Finish(u, ids, now))
    ensures Counted(Next(s, Finish(u, ids, now)))
  {
    var w := s.units[u];
    assert WorkOk(s.db, w);
    EndShape(s.policy, s.db, w, ids, now);
    if Decision(s.policy, w, ids, now).Write? {
      DecisionProgress(s.policy, s.db, w, ids, now);
    }
    EndingCounted(s, u, Decision(s.policy, w, ids, now));
  }

  // Tables that gained a wallet and at most its opening, as far as the counts are concerned.
  predicate GainsOpening(txs: map<Id, Tx>, txs': map<Id, Tx>) {
    && (forall id | id in txs :: id in txs' && txs'[id] == txs[id])
    && (forall id | id in txs' && id !in txs :: !txs'[id].info.external && txs'[id].status == Processed)
  }

  lemma OpeningGains(db: Db, db': Db)
    requires AddsWallet(db, db') && Sound(db') && Rows(db')
    ensures GainsOpening(db.txs, db'.txs)
  {
  }

  lemma GainCounted(s: System, db: Db)
    requires Counted(s) && GainsOpening(s.db.txs, db.txs) && db.inbox == s.db.inbox
    ensures Counted(s.(db := db))
  {
  }

  // An opening is no submission: it has neither key nor external id and is never pending.
  lemma StepGains(
    db: Db, codec: Codec, player: string, amount: string, currency: string, walletId: Id, ids: Ids, now: Instant)
    requires Inv(db)
    ensures var after := OpenStep(db, codec, player, amount, currency, walletId, ids, now).0;
            GainsOpening(db.txs, after.txs) && after.inbox == db.inbox
  {
    OpenKeepsInv(db, codec, player, amount, currency, walletId, ids, now);
    OpenAdds(db, codec, player, amount, currency, walletId, ids, now);
    OpeningGains(db, OpenStep(db, codec, player, amount, currency, walletId, ids, now).0);
  }

  lemma OpenCounted(s: System, step: Step)
    requires Inv(s.db) && Counted(s) && step.OpenWallet?
    ensures Counted(Next(s, step))
  {
    StepGains(s.db, s.codec, step.player, step.amount, step.currency, step.walletId, step.ids, step.now);
    GainCounted(s, Next(s, step).db);
  }

  lemma {:induction false} RunCounted(s: System, steps: seq<Step>)
    requires Inv(s.db) && UnitsOk(s) && Counted(s)
    ensures Counted(Run(s, steps))
    decreases |steps|
  {
    if steps != [] {
      if Enabled(s, steps[0]) {
        StepOk(s, steps[0]);
        StepCounted(s, steps[0]);
        RunCounted(Next(s, steps[0]), steps[1..]);
      } else {
        RunCounted(s, steps[1..]);
      }
    }
  }

  lemma StepCounted(s: System, step: Step)
    requires Inv(s.db) && UnitsOk(s) && Counted(s) && Enabled(s, step)
    ensures Counted(Next(s, step))
  {
    if step.Finish? {
      FinishCounted(s, step.u, step.ids, step.now);
    } else if step.OpenWallet? {
      OpenCounted(s, step);
    } else {
      NoCommit(s, step);
    }
  }

  lemma NoCommit(s: System, step: Step)
    requires Enabled(s, step) && !step.Finish? && !step.OpenWallet?
    ensures Next(s, step).db == s.db && Next(s, step).log == s.log && Next(s, step).policy == s.policy
  {
  }

  // ----- what this means for whole runs

  // At-least-once input, exactly-once effect: over any run with any number of deliveries,
  // redeliveries and crashes, the commits that carry a delivery's inbox row number one if the
  // row is stored and none otherwise; and so for the commits that inserted a submission, looked
  // up by idempotency key or by external id.
  lemma ExactlyOnce(s: System, delivery: InboxKey, provider: string, key: string, externalId: string)
    requires Reachable(s)
    ensures Count(s.log, OfDelivery(delivery)) == if delivery in s.db.inbox then 1 else 0
    ensures Count(s.log, OfKey(provider, key)) == if FindByKey(s.db.txs, provider, key).Some? then 1 else 0
    ensures Count(s.log, OfExternalId(provider, externalId)) == if FindByExternalId(s.db.txs, provider, externalId).Some? then 1 else 0
  {
    ReachableCounted(s);
  }

  lemma ReachableCounted(s: System)
    requires Reachable(s)
    ensures Counted(s)
  {
    var site: Site, steps: seq<Step> :| s == Run(Init(site), steps);
    EmptyIsInv();
    RunCounted(Init(site), steps);
  }

  // A row is resumed by at most MaxAttempts commits over any run, and while it still waits its
  // attempt count is exactly their number and below the limit, whatever its reference points at.
  lemma ResumesAreBounded(s: System, id: Id)
    requires Reachable(s)
    ensures Count(s.log, OfResume(id)) <= s.policy.maxAttempts
    ensures id in s.db.txs && s.db.txs[id].status == PendingReference ==>
              Count(s.log, OfResume(id)) == s.db.txs[id].attempts < s.policy.maxAttempts
  {
    ReachableCounted(s);
    assert ResumesFit(s.db.txs, id, Count(s.log, OfResume(id)), s.policy.maxAttempts);
  }
}
