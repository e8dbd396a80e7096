// Every stored transaction is announced: its outcome events, in append order, tell how it got to
// the status it has.
module Announcements {
  import opened Base
  import opened MoneyModel
  import opened Wagering
  import opened Wallets
  import opened Store
  import opened Process
  import opened Resolve
  import opened Units
  import opened Invariant
  import opened Steps
  import opened Interleaving
  import opened Isolation

  predicate Concerning(e: Event, id: Id) {
    e.eventType != BalanceChanged && e.aggregateId == id
  }

  // What an outcome event says: its type and its content.
  datatype Notice = Notice(eventType: EventType, data: EventData)

  // The outcome events of one transaction.
  function Told(outbox: seq<Event>, id: Id): seq<Notice> {
    if outbox == [] then []
    else
      var last := outbox[|outbox| - 1];
      Told(outbox[..|outbox| - 1], id) + if Concerning(last, id) then [Notice(last.eventType, last.data)] else []
  }

  // What an announcement says about a transaction in a status.
  function Announcement(info: Info, status: Status, failure: Option<FailureCode>): Notice {
    Notice(if status == Processed then TransactionProcessed else if status == Rejected then TransactionRejected else TransactionPending,
           TxData(info.id, info.walletId, info.playerId, info.provider, info.externalId, info.kind, status, failure, info.amount))
  }

  function WaitingFirst(t: Tx): seq<Notice> {
    [Announcement(t.info, PendingReference, None)]
  }

  function Latest(t: Tx): seq<Notice> {
    [Announcement(t.info, t.status, t.failure)]
  }

  // A waiting row was announced as waiting, once, however often it was retried; any other was
  // announced with its status, and before that at most as waiting.
  predicate WellTold(t: Tx, told: seq<Notice>) {
    if t.status == PendingReference then told == WaitingFirst(t)
    else told == Latest(t) || (IsReversal(t.info.kind) && told == WaitingFirst(t) + Latest(t))
  }

  ghost predicate Announced(db: Db) {
    forall id: Id :: if id in db.txs then WellTold(db.txs[id], Told(db.outbox, id)) else Told(db.outbox, id) == []
  }

  // ----- the events of one unit

  // Nothing for a retry; otherwise one outcome event, and a balance event if money moved.
  predicate Announces(d: Delta) {
    if d.events == [] then !d.create && d.tx.status == PendingReference
    else
      && |d.events| <= 2 && Concerning(d.events[0], d.tx.info.id)
      && Notice(d.events[0].eventType, d.events[0].data) == Announcement(d.tx.info, d.tx.status, d.tx.failure)
      && (!d.create ==> d.tx.status != PendingReference)
      && (|d.events| == 2 ==> d.events[1].eventType == BalanceChanged)
  }

  predicate TellsOutcome(plan: Plan) {
    plan.Write? ==> Announces(plan.delta)
  }

  lemma MoveTells(create: bool, t: Tx, w: WalletRow, direction: Direction, amount: Money, ids: Ids, now: Instant)
    requires w.balance >= 0 && t.failure.None?
    ensures TellsOutcome(MovePlan(create, t, w, direction, amount, ids, now))
  {
  }

  lemma RejectTells(create: bool, t: Tx, code: FailureCode, ids: Ids, now: Instant)
    ensures TellsOutcome(RejectPlan(create, t, code, ids, now))
  {
  }

  lemma ReversalTells(t: Tx, w: WalletRow, req: Request, view: View, ids: Ids, now: Instant)
    requires w.balance >= 0 && t.failure.None?
    ensures TellsOutcome(ReversalPlan(t, w, req, view, ids, now))
  {
    if view.reference.Some? && IsTerminal(view.reference.value.status) {
      var reference := view.reference.value;
      var code := ReversalRejection(reference, req.kind, req.walletId, req.playerId, req.cmd.round, req.amount);
      RejectTells(true, t, if code.Some? then code.value else DuplicateReversal, ids, now);
      if ResolveReference(t, reference.info.id, now).Ok? {
        MoveTells(true, ResolveReference(t, reference.info.id, now).value, w, ReversalDirection(reference.info.kind),
                  req.amount, ids, now);
      }
    }
  }

  lemma ApplyTells(req: Request, w: WalletRow, view: View, ids: Ids, now: Instant)
    requires w.balance >= 0
    ensures TellsOutcome(ApplyPlan(req, w, view, ids, now))
  {
    var created := NewExternal(InfoFor(req, ids.tx, now));
    if created.Ok? {
      if IsReversal(req.kind) {
        ReversalTells(created.value, w, req, view, ids, now);
      } else {
        MoveTells(true, created.value, w, if req.kind == Bet then Debit else Credit, req.amount, ids, now);
      }
    }
  }

  lemma WaitTells(p: Tx, policy: Policy, ids: Ids, now: Instant)
    requires p.status == PendingReference
    ensures TellsOutcome(WaitPlan(p, policy, ids, now))
  {
    RejectTells(false, p, ReferenceNotFound, ids, now);
  }

  lemma ResumeTells(p: Tx, w: WalletRow, view: View, policy: Policy, ids: Ids, now: Instant)
    requires w.balance >= 0 && p.failure.None? && p.status == PendingReference
    ensures TellsOutcome(ResumePlan(p, w, view, policy, ids, now))
  {
    if view.reference.None? || !IsTerminal(view.reference.value.status) {
      WaitTells(p, policy, ids, now);
    } else {
      var reference := view.reference.value;
      var code := ReversalRejection(reference, p.info.kind, p.info.walletId, p.info.playerId, p.info.round, p.info.amount);
      RejectTells(false, p, if code.Some? then code.value else DuplicateReversal, ids, now);
      if ResolveReference(p, reference.info.id, now).Ok? {
        MoveTells(false, ResolveReference(p, reference.info.id, now).value, w, ReversalDirection(reference.info.kind),
                  p.info.amount, ids, now);
      }
    }
  }

  lemma DecisionTells(policy: Policy, db: Db, w: Work, ids: Ids, now: Instant)
    requires Rows(db) && WorkOk(db, w) && Ready(w) && (w.wallet.Some? ==> w.wallet.value.balance >= 0)
    ensures TellsOutcome(Decision(policy, w, ids, now))
  {
    if w.answer.None? {
      match w.job
      case Submit(req) => ApplyTells(req, w.wallet.value, SeenView(w), ids, now);
      case Resumption(p, claimedAt) =>
        assert RowState(p);
        ResumeTells(p, w.wallet.value, SeenView(w), policy, ids, claimedAt);
    }
  }

  // ----- appending them

  lemma ToldAppend(outbox: seq<Event>, e: Event, id: Id)
    ensures Told(outbox + [e], id) == Told(outbox, id) + if Concerning(e, id) then [Notice(e.eventType, e.data)] else []
  {
    assert (outbox + [e])[..|outbox|] == outbox;
  }

  lemma ToldAfter(outbox: seq<Event>, d: Delta, id: Id)
    requires Announces(d)
    ensures Told(outbox + d.events, id) ==
            Told(outbox, id) + if d.events != [] && id == d.tx.info.id then Latest(d.tx) else []
  {
    if d.events == [] {
      assert outbox + d.events == outbox;
    } else {
      ToldAppend(outbox, d.events[0], id);
      if |d.events| == 2 {
        ToldAppend(outbox + [d.events[0]], d.events[1], id);
        assert outbox + d.events == (outbox + [d.events[0]]) + [d.events[1]];
      } else {
        assert outbox + d.events == outbox + [d.events[0]];
      }
    }
  }

  // A new row is announced as it is; a waiting row that settles is announced once more.
  lemma AppliedAnnounced(db: Db, d: Delta)
    requires Announced(db) && Announces(d) && Legal(db, d) && Rows(db)
    ensures Announced(Applied(db, d))
  {
    forall id: Id ensures var after := Applied(db, d);
      if id in after.txs then WellTold(after.txs[id], Told(after.outbox, id)) else Told(after.outbox, id) == []
    {
      ToldAfter(db.outbox, d, id);
    }
  }

  lemma NewRowAnnounced(db: Db, after: Db, t: Tx, events: seq<Event>)
    requires Announced(db) && t.info.id !in db.txs && t.status == Processed && Announces(Delta(true, t, None, events))
    requires after.txs == db.txs[t.info.id := t] && after.outbox == db.outbox + events && events != []
    ensures Announced(after)
  {
    forall id: Id ensures Told(after.outbox, id) == Told(db.outbox, id) + if id == t.info.id then Latest(t) else [] {
      ToldAfter(db.outbox, Delta(true, t, None, events), id);
    }
  }

  lemma OpeningTells(w: WalletRow, ids: Ids)
    requires OpeningOf(w, ids).Ok?
    ensures var o := OpeningOf(w, ids).value;
            Announces(Delta(true, o.tx, None, o.events)) && o.events != [] && o.tx.status == Processed
  {
  }

  lemma OpeningAnnounced(db: Db, w: WalletRow, ids: Ids)
    requires Keyed(db) && Announced(db) && InsertWallet(db, w).Ok? && w.balance > 0 && w.version == 1
    requires OpeningOf(w, ids).Ok? && RunOpening(InsertWallet(db, w).value, OpeningOf(w, ids).value).error.None?
    ensures Announced(RunOpening(InsertWallet(db, w).value, OpeningOf(w, ids).value).db)
  {
    var o := OpeningOf(w, ids).value;
    OpeningShape(db, w, o, ids);
    OpeningTells(w, ids);
    NewRowAnnounced(db, RunOpening(InsertWallet(db, w).value, o).db, o.tx, o.events);
  }

  // ----- every step, every run

  lemma FinishAnnounced(s: System, u: nat, ids: Ids, now: Instant)
    requires Inv(s.db) && UnitsOk(s) && Announced(s.db) && Enabled(s, Finish(u, ids, now))
    ensures Announced(Next(s, Finish(u, ids, now)).db)
  {
    var w := s.units[u];
    EndShape(s.policy, s.db, w, ids, now);
    DecisionTells(s.policy, s.db, w, ids, now);
    EndAnnounced(s.db, w, Decision(s.policy, w, ids, now));
  }

  lemma EndAnnounced(db: Db, w: Work, plan: Plan)
    requires Announced(db) && Rows(db) && WholeOrNothing(db, w, plan) && TellsOutcome(plan)
    ensures Announced(EndWith(db, w, plan).db)
  {
    if EndWith(db, w, plan).effect.Some? {
      AppliedAnnounced(Snapshot(db, w), plan.delta);
    }
  }

  lemma OpenAnnounced(s: System, step: Step)
    requires Keyed(s.db) && Announced(s.db) && step.OpenWallet?
    ensures Announced(Next(s, step).db)
  {
    var row := OpenRow(s.codec, step.player, step.amount, step.currency, step.walletId, step.now);
    if row.Ok? && OpenExec(s.db, row.value, step.ids).error.None? && row.value.balance != 0 {
      OpeningAnnounced(s.db, row.value, step.ids);
    }
  }

  lemma StepAnnounced(s: System, step: Step)
    requires Inv(s.db) && UnitsOk(s) && Announced(s.db) && Enabled(s, step)
    ensures Announced(Next(s, step).db)
  {
    if step.Finish? {
      FinishAnnounced(s, step.u, step.ids, step.now);
    } else if step.OpenWallet? {
      OpenAnnounced(s, step);
    }
  }

  lemma {:induction false} RunAnnounced(s: System, steps: seq<Step>)
    requires Inv(s.db) && UnitsOk(s) && Announced(s.db)
    ensures Announced(Run(s, steps).db)
    decreases |steps|
  {
    if steps != [] {
      if Enabled(s, steps[0]) {
        StepOk(s, steps[0]);
        StepAnnounced(s, steps[0]);
        RunAnnounced(Next(s, steps[0]), steps[1..]);
      } else {
        RunAnnounced(s, steps[1..]);
      }
    }
  }

  // In every reachable state the outcome events of a transaction are exactly: waiting, if it
  // waits; its terminal status, possibly after waiting, if it settled; none if it is not stored.
  lemma EveryOutcomeIsAnnounced(s: System, id: Id)
    requires Reachable(s)
    ensures if id in s.db.txs then WellTold(s.db.txs[id], Told(s.db.outbox, id)) else Told(s.db.outbox, id) == []
  {
    var site: Site, steps: seq<Step> :| s == Run(Init(site), steps);
    EmptyIsInv();
    assert Announced(EMPTY_DB);
    RunAnnounced(Init(site), steps);
    assert Announced(s.db);
  }
}
