// Units of work running at the same time: each statement that reads or locks is its own step,
// and a crash may come between any two. Locks are held from their statement to the end of the
// unit. Writes are invisible to others before the commit, and a constraint check waits for the
// writers it may clash with, so a unit's writes are taken together, at its commit.
module Interleaving {
  import opened Base
  import opened Wagering
  import opened Wallets
  import opened Store
  import opened Process
  import opened Resolve
  import opened Units

  // ----- open units

  datatype Job =
    | Unparsed(error: Error)
    | Submit(req: Request)
    | Resumption(pending: Tx, claimedAt: Instant)

  // An open SQL transaction and everything it read so far. `answer` is set as soon as the
  // outcome is known without any write.
  datatype Work = Work(
    job: Job,
    inbox: Option<(InboxKey, string)>,
    wallet: Option<WalletRow>,
    keyClear: bool,
    externalClear: bool,
    reference: Option<Option<Tx>>,
    reverted: Option<bool>,
    answer: Option<Plan>)

  function Begun(job: Job, inbox: Option<(InboxKey, string)>): Work {
    Work(job, inbox, None, false, false, None, None, if job.Unparsed? then Some(Refuse(job.error)) else None)
  }

  function JobWallet(job: Job): Id
    requires !job.Unparsed?
  {
    match job case Submit(req) => req.walletId case Resumption(p, _) => p.info.walletId
  }

  function JobProvider(job: Job): string
    requires !job.Unparsed?
  {
    match job case Submit(req) => req.cmd.provider case Resumption(p, _) => p.info.provider
  }

  function JobReference(job: Job): string
    requires !job.Unparsed?
  {
    match job case Submit(req) => req.cmd.refExternal case Resumption(p, _) => p.info.refExternal
  }

  // The statements before the writes, in program order: wallet lock, the two replay lookups,
  // the reference, its reversals.
  predicate CanLock(w: Work) {
    w.answer.None? && !w.job.Unparsed? && w.wallet.None?
  }

  predicate CanReadKey(w: Work) {
    w.answer.None? && w.job.Submit? && w.wallet.Some? && !w.keyClear
  }

  predicate CanReadExternal(w: Work) {
    w.answer.None? && w.job.Submit? && w.wallet.Some? && w.keyClear && !w.externalClear
  }

  predicate NeedsReference(w: Work) {
    w.wallet.Some? &&
    match w.job
    case Unparsed(_) => false
    case Submit(req) =>
      w.externalClear && IsReversal(req.kind)
      && w.wallet.value.playerId == req.playerId && w.wallet.value.currency == req.amount.currency
    case Resumption(_, _) => true
  }

  predicate CanReadReference(w: Work) {
    w.answer.None? && NeedsReference(w) && w.reference.None?
  }

  predicate NeedsReverted(w: Work) {
    w.reference.Some? && w.reference.value.Some? &&
    var t := w.reference.value.value;
    IsTerminal(t.status) &&
    match w.job
    case Unparsed(_) => false
    case Submit(req) => ReversalRejection(t, req.kind, req.walletId, req.playerId, req.cmd.round, req.amount).None?
    case Resumption(p, _) =>
      ReversalRejection(t, p.info.kind, p.info.walletId, p.info.playerId, p.info.round, p.info.amount).None?
  }

  predicate CanReadReverted(w: Work) {
    w.answer.None? && NeedsReverted(w) && w.reverted.None?
  }

  // Nothing is left to read: the decision can be taken.
  predicate Ready(w: Work) {
    || w.answer.Some?
    || (&& !w.job.Unparsed? && w.wallet.Some?
        && (w.job.Submit? ==> w.keyClear && w.externalClear)
        && (NeedsReference(w) ==> w.reference.Some?)
        && (NeedsReverted(w) ==> w.reverted.Some?))
  }

  function SeenView(w: Work): View {
    View(if w.reference.Some? then w.reference.value else None, w.reverted != Some(false))
  }

  function Decision(policy: Policy, w: Work, ids: Ids, now: Instant): Plan
    requires Ready(w) && (w.wallet.Some? ==> w.wallet.value.balance >= 0)
  {
    if w.answer.Some? then w.answer.value
    else
      match w.job
      case Submit(req) => ApplyPlan(req, w.wallet.value, SeenView(w), ids, now)
      case Resumption(p, claimedAt) => ResumePlan(p, w.wallet.value, SeenView(w), policy, ids, claimedAt)
  }

  // The tables as the unit sees them before its decision: the committed ones and its inbox row.
  function Snapshot(db: Db, w: Work): Db {
    if w.inbox.Some? then Record(db, w.inbox.value.0, w.inbox.value.1) else db
  }

  // How a unit ends: the committed tables afterwards, whether it committed, and its writes.
  datatype Ending = Ending(db: Db, committed: bool, effect: Option<Delta>)

  // A delivery swallows a permanent error so that its inbox row survives; a refused statement
  // makes every commit fail.
  function EndWith(db: Db, w: Work, plan: Plan): Ending {
    var run := PlanExec(Snapshot(db, w), plan);
    var swallowed := w.inbox.Some? && run.error.Some? && IsDomainError(run.error.value);
    if run.failed || (run.error.Some? && !swallowed) then Ending(db, false, None)
    else Ending(run.db, true, if plan.Write? && run.error.None? then Some(plan.delta) else None)
  }

  function End(policy: Policy, db: Db, w: Work, ids: Ids, now: Instant): Ending
    requires Ready(w) && (w.wallet.Some? ==> w.wallet.value.balance >= 0)
  {
    EndWith(db, w, Decision(policy, w, ids, now))
  }

  // ----- the system

  datatype Commit = Commit(inbox: Option<InboxKey>, effect: Option<Delta>)

  // `log` is the history of commits; no step reads it.
  datatype System = System(policy: Policy, codec: Codec, channel: Channel, db: Db, units: map<nat, Work>, log: seq<Commit>)

  // How a service is set up: the worker's policy, the parsers, the queue it consumes.
  datatype Site = Site(policy: Policy, codec: Codec, channel: Channel)

  datatype Step =
    | Http(u: nat, c: Command)
    | Receive(u: nat, m: Message)
    | Claim(u: nat, row: Id, now: Instant)
    | Lock(u: nat)
    | ReadKey(u: nat)
    | ReadExternal(u: nat)
    | ReadReference(u: nat)
    | ReadReverted(u: nat)
    | Finish(u: nat, ids: Ids, now: Instant)
    | Crash(u: nat)
    | OpenWallet(player: string, amount: string, currency: string, walletId: Id, ids: Ids, now: Instant)

  function Init(site: Site): System {
    System(Normalized(site.policy), site.codec, site.channel, EMPTY_DB, map[], [])
  }

  function JobOf(codec: Codec, c: Command): Job {
    match Parse(codec, c)
    case Err(e) => Unparsed(e)
    case Ok(req) => Submit(req)
  }

  predicate HoldsWallet(w: Work, id: Id) {
    w.wallet.Some? && w.wallet.value.id == id
  }

  predicate HoldsKey(w: Work, key: InboxKey) {
    w.inbox.Some? && w.inbox.value.0 == key
  }

  predicate HoldsRow(w: Work, id: Id) {
    w.job.Resumption? && w.job.pending.info.id == id
  }

  predicate NobodyHolds(s: System, held: Work -> bool) {
    forall v | v in s.units :: !held(s.units[v])
  }

  // Statements that wait for a lock are enabled when it is free; a claim skips locked rows. The
  // identifiers a delivery's writes need are assumed to arrive.
  ghost predicate Enabled(s: System, step: Step) {
    match step
    case Http(u, _) => u !in s.units
    case Receive(u, m) =>
      u !in s.units && (ParseEnvelope(s.channel, m).Ok? ==> NobodyHolds(s, (w: Work) => HoldsKey(w, Key(s.channel, m))))
    case Claim(u, row, now) =>
      u !in s.units && row in s.db.txs && Due(s.db.txs[row], now) && NobodyHolds(s, (w: Work) => HoldsRow(w, row))
    case Lock(u) =>
      u in s.units && CanLock(s.units[u])
      && NobodyHolds(s, (w: Work) => HoldsWallet(w, JobWallet(s.units[u].job)))
    case ReadKey(u) => u in s.units && CanReadKey(s.units[u])
    case ReadExternal(u) => u in s.units && CanReadExternal(s.units[u])
    case ReadReference(u) => u in s.units && CanReadReference(s.units[u])
    case ReadReverted(u) => u in s.units && CanReadReverted(s.units[u])
    case Finish(u, ids, now) =>
      && u in s.units && Ready(s.units[u])
      && (s.units[u].wallet.Some? ==> s.units[u].wallet.value.balance >= 0)
      && var plan := Decision(s.policy, s.units[u], ids, now);
         (s.units[u].inbox.Some? && plan.Write? ==>
            (plan.delta.move.Some? ==> plan.delta.move.value.entry.Ok?)
            && forall i | 0 <= i < |plan.delta.events| :: plan.delta.events[i].id != 0)
    case Crash(u) => u in s.units
    case OpenWallet(_, _, _, _, _, _) => true
  }

  function Answered(w: Work, plan: Plan): Work {
    w.(answer := Some(plan))
  }

  predicate CanAdvance(w: Work, step: Step) {
    match step
    case Lock(_) => CanLock(w)
    case ReadKey(_) => CanReadKey(w)
    case ReadExternal(_) => CanReadExternal(w)
    case ReadReference(_) => CanReadReference(w)
    case ReadReverted(_) => CanReadReverted(w)
    case _ => false
  }

  // What one statement of an open unit reads or locks.
  ghost function Advance(db: Db, w: Work, step: Step): Work
    requires CanAdvance(w, step)
  {
    match step
    case Lock(_) =>
      if JobWallet(w.job) in db.wallets then w.(wallet := Some(db.wallets[JobWallet(w.job)]))
      else Answered(w, Refuse(NotFound))
    case ReadKey(_) =>
      var req := w.job.req;
      (match FindByKey(db.txs, req.cmd.provider, req.cmd.key)
       case Some(t) => Answered(w, if t.info.hash != req.hash then Refuse(IdempotencyConflict) else Reply(ReplayOf(t)))
       case None => w.(keyClear := true))
    case ReadExternal(_) =>
      var req := w.job.req;
      if FindByExternalId(db.txs, req.cmd.provider, req.cmd.externalId).Some? then Answered(w, Refuse(OperationReapplied))
      else w.(externalClear := true)
    case ReadReference(_) =>
      w.(reference := Some(FindByExternalId(db.txs, JobProvider(w.job), JobReference(w.job))))
    case ReadReverted(_) =>
      w.(reverted := Some(HasSuccessfulReversal(db.txs, w.reference.value.value.info.id)))
  }

  function Ended(s: System, u: nat, e: Ending): System
    requires u in s.units
  {
    var rest := s.(db := e.db, units := s.units - {u});
    if e.committed
    then rest.(log := s.log + [Commit(if s.units[u].inbox.Some? then Some(s.units[u].inbox.value.0) else None, e.effect)])
    else rest
  }

  ghost function Next(s: System, step: Step): System
    requires Enabled(s, step)
  {
    match step
    case Http(u, c) => if Parse(s.codec, c).Err? then s else s.(units := s.units[u := Begun(JobOf(s.codec, c), None)])
    case Receive(u, m) =>
      // A message that is no delivery, or a delivery already recorded, ends here.
      if ParseEnvelope(s.channel, m).Err? || Key(s.channel, m) in s.db.inbox then s
      else
        var c := m.data.value;
        s.(units := s.units[u := Begun(JobOf(s.codec, c), Some((Key(s.channel, m), PayloadHash(s.codec, c))))])
    case Claim(u, row, now) => s.(units := s.units[u := Begun(Resumption(s.db.txs[row], now), None)])
    case Finish(u, ids, now) => Ended(s, u, End(s.policy, s.db, s.units[u], ids, now))
    case Crash(u) => s.(units := s.units - {u})
    case OpenWallet(player, amount, currency, walletId, ids, now) =>
      s.(db := OpenStep(s.db, s.codec, player, amount, currency, walletId, ids, now).0)
    case _ => s.(units := s.units[step.u := Advance(s.db, s.units[step.u], step)])
  }

  // Steps that are not enabled do not happen.
  ghost function Run(s: System, steps: seq<Step>): System
    decreases |steps|
  {
    if steps == [] then s
    else Run(if Enabled(s, steps[0]) then Next(s, steps[0]) else s, steps[1..])
  }

  ghost predicate Reachable(s: System) {
    exists site: Site, steps: seq<Step> :: s == Run(Init(site), steps)
  }

  lemma {:induction false} RunConcat(s: System, xs: seq<Step>, ys: seq<Step>)
    ensures Run(s, xs + ys) == Run(Run(s, xs), ys)
    decreases |xs|
  {
    if xs == [] {
      assert xs + ys == ys;
    } else {
      assert (xs + ys)[1..] == xs[1..] + ys;
      RunConcat(if Enabled(s, xs[0]) then Next(s, xs[0]) else s, xs[1..], ys);
    }
  }

  lemma ReachableRun(s: System, steps: seq<Step>)
    requires Reachable(s)
    ensures Reachable(Run(s, steps))
  {
    var site: Site, before: seq<Step> :| s == Run(Init(site), before);
    RunConcat(Init(site), before, steps);
  }
}
