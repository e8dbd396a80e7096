// Package usecase, resolve_pending.go: the worker that resumes reversals whose reference was
// missing, one unit of work per claimed row.
module Resolve {
  import opened Base
  import opened Wagering
  import opened Wallets
  import opened Store
  import opened Process
  import opened Backoff

  const SECOND: nat := 1_000_000_000

  datatype Policy = Policy(maxAttempts: int, ttl: nat, backoffBase: nat, backoffMax: nat, batchSize: int)

  // Unusable settings fall back to defaults.
  function Normalized(p: Policy): (q: Policy)
    ensures q.maxAttempts >= 1 && q.ttl > 0 && q.backoffBase > 0 && q.backoffMax > 0 && q.batchSize >= 1
    ensures p.maxAttempts >= 1 && p.ttl > 0 && p.backoffBase > 0 && p.backoffMax > 0 && p.batchSize >= 1 ==> q == p
  {
    Policy(
      if p.maxAttempts < 1 then 10 else p.maxAttempts,
      if p.ttl == 0 then 300 * SECOND else p.ttl,
      if p.backoffBase == 0 then SECOND else p.backoffBase,
      if p.backoffMax == 0 then 30 * SECOND else p.backoffMax,
      if p.batchSize < 1 then 10 else p.batchSize)
  }

  // ----- the decision

  predicate Exhausted(p: Tx, policy: Policy, now: Instant) {
    p.attempts + 1 >= policy.maxAttempts || p.info.createdAt + policy.ttl <= now
  }

  function WaitPlan(p: Tx, policy: Policy, ids: Ids, now: Instant): Plan {
    if Exhausted(p, policy, now) then RejectPlan(false, p, ReferenceNotFound, ids, now)
    else
      var attempts := p.attempts + 1;
      match ScheduleReferenceRetry(p, attempts, now + ReferenceDelay(attempts, policy.backoffBase, policy.backoffMax), now)
      case Err(e) => Refuse(e)
      case Ok(waiting) =>
        Write(Delta(false, waiting, None, []), TxResult(p.info.id, PendingReference, None, None, false))
  }

  function ResumePlan(p: Tx, w: WalletRow, view: View, policy: Policy, ids: Ids, now: Instant): Plan
    requires w.balance >= 0
  {
    match view.reference
    case None => WaitPlan(p, policy, ids, now)
    case Some(reference) =>
      if !IsTerminal(reference.status) then WaitPlan(p, policy, ids, now)
      else
        match ReversalRejection(reference, p.info.kind, p.info.walletId, p.info.playerId, p.info.round, p.info.amount)
        case Some(code) => RejectPlan(false, p, code, ids, now)
        case None =>
          if view.reverted then RejectPlan(false, p, DuplicateReversal, ids, now)
          else
            match ResolveReference(p, reference.info.id, now)
            case Err(e) => Refuse(e)
            case Ok(resolved) =>
              MovePlan(false, resolved, w, ReversalDirection(reference.info.kind), p.info.amount, ids, now)
  }

  // Resuming a row against one state of the tables.
  ghost function ResumeOn(db: Db, p: Tx, policy: Policy, ids: Ids, now: Instant): Plan
    requires Sound(db)
  {
    if p.info.walletId !in db.wallets then Refuse(NotFound)
    else ResumePlan(p, db.wallets[p.info.walletId], ViewOf(db, p.info.provider, p.info.refExternal), policy, ids, now)
  }

  // ----- the claim

  predicate Due(t: Tx, now: Instant) {
    t.status == PendingReference && t.nextRetry.Some? && t.nextRetry.value <= now
  }

  predicate EarlierRetry(a: Tx, b: Tx)
    requires a.nextRetry.Some? && b.nextRetry.Some?
  {
    a.nextRetry.value < b.nextRetry.value || (a.nextRetry.value == b.nextRetry.value && a.info.id <= b.info.id)
  }

  // First due row in (next_retry_at, id) order.
  predicate FirstDue(txs: map<Id, Tx>, id: Id, now: Instant) {
    id in txs && Due(txs[id], now) && forall o | o in txs :: Due(txs[o], now) ==> EarlierRetry(txs[id], txs[o])
  }

  ghost function Claimed(txs: map<Id, Tx>, now: Instant): Option<Tx> {
    if id :| FirstDue(txs, id, now) then Some(txs[id]) else None
  }

  // A due row is never overlooked: the claim comes back empty only when nothing is due.
  lemma ClaimFindsWork(txs: map<Id, Tx>, now: Instant)
    ensures Claimed(txs, now).None? <==>
            forall id | id in txs ::
              !(txs[id].status == PendingReference && txs[id].nextRetry.Some? && txs[id].nextRetry.value <= now)
  {
    if id :| id in txs && Due(txs[id], now) {
      var due := set o | o in txs && Due(txs[o], now);
      assert id in due;
      var first := FirstOf(txs, due, now);
      assert FirstDue(txs, first, now);
    }
  }

  lemma {:induction false} FirstOf(txs: map<Id, Tx>, due: set<Id>, now: Instant) returns (first: Id)
    requires due != {}
    requires forall o | o in due :: o in txs && Due(txs[o], now)
    ensures first in due
    ensures forall o | o in due :: o in txs && Due(txs[o], now) && Due(txs[first], now) && EarlierRetry(txs[first], txs[o])
  {
    var one :| one in due;
    if due == {one} {
      first := one;
    } else {
      var rest := due - {one};
      var best := FirstOf(txs, rest, now);
      first := if EarlierRetry(txs[one], txs[best]) then one else best;
      assert forall o | o in due :: o == one || o in rest;
    }
  }

  lemma ClaimIsUnique(db: Db, a: Id, b: Id, now: Instant)
    requires Sound(db) && FirstDue(db.txs, a, now) && FirstDue(db.txs, b, now)
    ensures a == b
  {
  }

  method ClaimPending(s: Session, now: Instant) returns (r: Option<Transaction>)
    requires Sound(s.db)
    ensures match Claimed(s.db.txs, now)
            case Some(t) => r.Some? && fresh(r.value) && r.value.State() == t
            case None => r == None
  {
    if id :| id in s.db.txs && FirstDue(s.db.txs, id, now) {
      forall other | FirstDue(s.db.txs, other, now) ensures other == id {
        ClaimIsUnique(s.db, id, other, now);
      }
      var t := new Transaction(s.db.txs[id]);
      r := Some(t);
    } else {
      r := None;
    }
  }

  // ----- the use case

  lemma QuietDelta(db: Db, t: Tx)
    ensures RunDelta(db, Delta(false, t, None, [])) ==
            match UpdateTx(db, t) case Err(e) => Exec(db, Some(e), e == PersistenceConflict) case Ok(next) => Exec(next, None, false)
  {
  }

  method WaitOrExpire(s: Session, pending: Transaction, policy: Policy, ids: Ids, now: Instant) returns (r: Result<TxResult>)
    modifies s, pending
    ensures Follows(WaitPlan(old(pending.State()), policy, ids, now), old(s.db), old(s.failed), s.db, s.failed, r)
  {
    if pending.attempts + 1 >= policy.maxAttempts || pending.info.createdAt + policy.ttl <= now {
      r := PersistRejected(s, pending, ReferenceNotFound, ids, now, false);
      return;
    }
    var attempts := pending.attempts + 1;
    var delay := ReferenceBackoff(attempts, policy.backoffBase, policy.backoffMax);
    var e := pending.ScheduleRetry(attempts, now + delay, now);
    if e.Some? {
      return Err(e.value);
    }
    var row := pending.Row();
    QuietDelta(s.db, row);
    e := s.Run(UpdateTx(s.db, row));
    if e.Some? {
      return Err(e.value);
    }
    r := Ok(TxResult(pending.info.id, pending.status, None, None, false));
  }

  method Resume(s: Session, pending: Transaction, policy: Policy, ids: Ids, now: Instant) returns (r: Result<TxResult>)
    requires Sound(s.db) && pending.status == PendingReference
    modifies s, pending
    ensures Follows(ResumeOn(old(s.db), old(pending.State()), policy, ids, now), old(s.db), old(s.failed), s.db, s.failed, r)
  {
    var locked := s.LockWallet(pending.info.walletId);
    if locked.Err? {
      return Err(locked.error);
    }
    var target := locked.value;
    var found := s.LoadByExternalId(pending.info.provider, pending.info.refExternal);
    if found.None? {
      r := WaitOrExpire(s, pending, policy, ids, now);
      return;
    }
    var reference := found.value;
    if !IsTerminal(reference.status) {
      r := WaitOrExpire(s, pending, policy, ids, now);
      return;
    }
    var row := reference.Row();
    var code := ReversalRejection(row, pending.info.kind, pending.info.walletId, pending.info.playerId,
                                  pending.info.round, pending.info.amount);
    if code.Some? {
      r := PersistRejected(s, pending, code.value, ids, now, false);
      return;
    }
    var reverted := LookupReversal(s, reference.info.id);
    if reverted {
      r := PersistRejected(s, pending, DuplicateReversal, ids, now, false);
      return;
    }
    var e := pending.Resolve(reference.info.id, now);
    if e.Some? {
      return Err(e.value);
    }
    var direction := Credit;
    if reference.info.kind != Bet {
      direction := Debit;
    }
    r := MoveBalance(s, target, pending, direction, pending.info.amount, ids, now, false);
  }
}
