// Runs in which a unit commits although its reference, in another wallet, settled after it was
// looked up: a new rollback, which goes on waiting, and the last attempt of a resumption, which
// is rejected as if its reference did not exist.
module StaleRun {
  import opened Base
  import opened MoneyModel
  import opened Wagering
  import opened Wallets
  import opened Store
  import opened Process
  import opened Resolve
  import opened Units
  import opened Interleaving
  import opened Serial
  import opened StaleFate
  import MoneyText

  lemma RunOne(s: System, x: Step)
    ensures Run(s, [x]) == if Enabled(s, x) then Next(s, x) else s
  {
    assert [x][1..] == [];
  }

  // ----- one provider, two players

  function Ids12(): Codec {
    Codec((s: string) => if s == "1" then Some(1) else if s == "2" then Some(2) else None, (f: Fields) => f.externalId)
  }

  function Queue(): Channel {
    Channel("consumer", {"provider"})
  }

  function SiteOf(policy: Policy): Site {
    Site(policy, Ids12(), Queue())
  }

  function Name(i: Id): string {
    if i == 1 then "1" else "2"
  }

  function RollbackCommand(): Command {
    Command("key-1", "provider", "rollback", "1", "1", "round", "game", "ROLLBACK", "1.00", "EUR", "late")
  }

  function LossCommand(): Command {
    Command("key-2", "provider", "late", "2", "2", "round", "game", "LOSS", "0.00", "EUR", "")
  }

  function Rolls(): Request {
    Request(RollbackCommand(), "rollback", Rollback, 1, 1, Money(100, "EUR"))
  }

  function Loses(): Request {
    Request(LossCommand(), "late", Loss, 2, 2, Money(0, "EUR"))
  }

  lemma AmountsParse()
    ensures MoneyText.ParseMoney("0.00", "EUR") == Ok(Money(0, "EUR"))
    ensures MoneyText.ParseMoney("1.00", "EUR") == Ok(Money(100, "EUR"))
  {
    var zero, one := "0.00", "1.00";
    assert zero[..1] == "0" && zero[2..] == "00" && "00"[..1] == "0";
    assert one[..1] == "1" && one[2..] == "00";
    assert MoneyText.Value("0") == 0 && MoneyText.Value("00") == 0 && MoneyText.Value("1") == 1;
  }

  lemma CommandsParse()
    ensures Parse(Ids12(), RollbackCommand()) == Ok(Rolls()) && Parse(Ids12(), LossCommand()) == Ok(Loses())
  {
    AmountsParse();
  }

  // ----- two empty wallets

  function Row(i: Id): WalletRow {
    WalletRow(i, i, "EUR", 0, 1, 1, 1)
  }

  function OpenStepOf(i: Id): Step {
    OpenWallet(Name(i), "0.00", "EUR", i, Ids(0, 0, 0, 0), 1)
  }

  lemma RowOpens(i: Id)
    requires 1 <= i <= 2
    ensures OpenRow(Ids12(), Name(i), "0.00", "EUR", i, 1) == Ok(Row(i))
  {
    AmountsParse();
    assert ParseId(Ids12(), Name(i)) == Ok(i);
  }

  lemma InsertsEmpty(db: Db, i: Id)
    requires 1 <= i <= 2 && i !in db.wallets && forall o | o in db.wallets :: db.wallets[o].playerId != i
    ensures CommitOrRollback(db, OpenExec(db, Row(i), Ids(0, 0, 0, 0))) == db.(wallets := db.wallets[i := Row(i)])
  {
  }

  lemma OpensEmpty(s: System, i: Id)
    requires s.codec == Ids12()
    requires 1 <= i <= 2 && i !in s.db.wallets && forall o | o in s.db.wallets :: s.db.wallets[o].playerId != i
    ensures Run(s, [OpenStepOf(i)]) == s.(db := s.db.(wallets := s.db.wallets[i := Row(i)]))
  {
    RowOpens(i);
    InsertsEmpty(s.db, i);
    RunOne(s, OpenStepOf(i));
  }

  function TwoWallets(policy: Policy): System {
    System(Normalized(policy), Ids12(), Queue(), EMPTY_DB.(wallets := map[1 := Row(1), 2 := Row(2)]), map[], [])
  }

  function Opening(): seq<Step> {
    [OpenStepOf(1)] + [OpenStepOf(2)]
  }

  lemma TwoWalletsReached(policy: Policy)
    ensures Run(Init(SiteOf(policy)), Opening()) == TwoWallets(policy)
  {
    OpensEmpty(Init(SiteOf(policy)), 1);
    OpensEmpty(Run(Init(SiteOf(policy)), [OpenStepOf(1)]), 2);
    RunConcat(Init(SiteOf(policy)), [OpenStepOf(1)], [OpenStepOf(2)]);
  }

  // ----- a new submission up to its replay check

  function Approach(u: nat, req: Request): seq<Step> {
    [Http(u, req.cmd)] + [Lock(u)] + [ReadKey(u)] + [ReadExternal(u)]
  }

  function Approached(req: Request, row: WalletRow): Work {
    Begun(Submit(req), None).(wallet := Some(row), keyClear := true, externalClear := true)
  }

  ghost predicate Unknown(txs: map<Id, Tx>, req: Request) {
    FindByKey(txs, req.cmd.provider, req.cmd.key).None? && FindByExternalId(txs, req.cmd.provider, req.cmd.externalId).None?
  }

  lemma Approaches(s: System, u: nat, req: Request)
    requires Parse(s.codec, req.cmd) == Ok(req) && Unknown(s.db.txs, req) && u !in s.units && req.walletId in s.db.wallets
    requires NobodyHolds(s, (w: Work) => HoldsWallet(w, req.walletId))
    ensures Run(s, Approach(u, req)) == s.(units := s.units[u := Approached(req, s.db.wallets[req.walletId])])
  {
    var w0 := Begun(Submit(req), None);
    var w1 := w0.(wallet := Some(s.db.wallets[req.walletId]));
    var w2 := w1.(keyClear := true);
    RunOne(s, Http(u, req.cmd));
    LocksFree(s, u, w0);
    var s1 := s.(units := s.units[u := w1]);
    RunOne(s1, ReadKey(u));
    var s2 := s.(units := s.units[u := w2]);
    assert s1.units[u := w2] == s2.units;
    RunOne(s2, ReadExternal(u));
    RunConcat(s, [Http(u, req.cmd)], [Lock(u)]);
    RunConcat(s, [Http(u, req.cmd)] + [Lock(u)], [ReadKey(u)]);
    RunConcat(s, [Http(u, req.cmd)] + [Lock(u)] + [ReadKey(u)], [ReadExternal(u)]);
    assert s2.units[u := w2.(externalClear := true)] == s.units[u := w2.(externalClear := true)];
  }

  lemma LocksFree(s: System, u: nat, w: Work)
    requires u !in s.units && CanLock(w) && JobWallet(w.job) in s.db.wallets
    requires NobodyHolds(s, (x: Work) => HoldsWallet(x, JobWallet(w.job)))
    ensures Run(s.(units := s.units[u := w]), [Lock(u)])
            == s.(units := s.units[u := w.(wallet := Some(s.db.wallets[JobWallet(w.job)]))])
  {
    var s0 := s.(units := s.units[u := w]);
    RunOne(s0, Lock(u));
    forall v | v in s0.units ensures !HoldsWallet(s0.units[v], JobWallet(w.job)) {
      if v != u {
        assert v in s.units && !((x: Work) => HoldsWallet(x, JobWallet(w.job)))(s.units[v]);
      }
    }
    assert Enabled(s0, Lock(u));
    var w1 := w.(wallet := Some(s.db.wallets[JobWallet(w.job)]));
    assert s0.units[u := w1] == s.units[u := w1];
  }

  // ----- a row with one event, written alone

  lemma QuietWrite(db: Db, d: Delta)
    requires d.move.None? && |d.events| == 1 && d.events[0].id != 0 && EventAdmissible(db.outbox, d.events[0])
    requires if d.create then InsertTx(db, d.tx).Ok?
             else UpdateTx(db, d.tx).Ok? && d.tx.info.id in db.txs && db.txs[d.tx.info.id].info == d.tx.info
    ensures RunDelta(db, d) == Exec(db.(txs := db.txs[d.tx.info.id := d.tx], outbox := db.outbox + d.events), None, false)
  {
    var next := (if d.create then InsertTx(db, d.tx) else UpdateTx(db, d.tx)).value;
    assert d.events == [d.events[0]] && d.events[1..] == [];
    assert RunEvents(next, d.events) == RunEvents(InsertEvent(next, d.events[0]).value, []);
  }

  // A unit that commits such writes, over HTTP or in the worker.
  lemma QuietFinish(s: System, u: nat, ids: Ids, now: Instant, d: Delta, x: TxResult)
    requires u in s.units && Ready(s.units[u]) && s.units[u].inbox.None?
    requires s.units[u].wallet.Some? ==> s.units[u].wallet.value.balance >= 0
    requires Decision(s.policy, s.units[u], ids, now) == Write(d, x)
    requires d.move.None? && |d.events| == 1 && d.events[0].id != 0 && EventAdmissible(s.db.outbox, d.events[0])
    requires if d.create then InsertTx(s.db, d.tx).Ok?
             else UpdateTx(s.db, d.tx).Ok? && d.tx.info.id in s.db.txs && s.db.txs[d.tx.info.id].info == d.tx.info
    ensures Enabled(s, Finish(u, ids, now)) && End(s.policy, s.db, s.units[u], ids, now).effect == Some(d)
    ensures Run(s, [Finish(u, ids, now)]) ==
            s.(db := s.db.(txs := s.db.txs[d.tx.info.id := d.tx], outbox := s.db.outbox + d.events), units := s.units - {u},
               log := s.log + [Commit(None, Some(d))])
  {
    QuietWrite(s.db, d);
    RunOne(s, Finish(u, ids, now));
  }

  // ----- the rows

  function LossIds(): Ids {
    Ids(10, 11, 12, 13)
  }

  function LostTx(): Tx {
    Tx(InfoFor(Loses(), 10, 1), Processed, None, None, Some(Outcome(Money(0, "EUR"), 1)), 0, None, 1)
  }

  function LossDelta(): Delta {
    Delta(true, LostTx(), None, [TxEvent(12, TransactionProcessed, LostTx(), 1)])
  }

  lemma LossDecided(policy: Policy)
    ensures Ready(Approached(Loses(), Row(2)))
    ensures Decision(policy, Approached(Loses(), Row(2)), LossIds(), 1) ==
            Write(LossDelta(), TxResult(10, Processed, Some(Money(0, "EUR")), None, false))
  {
  }

  function RollbackIds(): Ids {
    Ids(20, 21, 22, 23)
  }

  function PendedTx(): Tx {
    Tx(InfoFor(Rolls(), 20, 2), PendingReference, None, None, None, 0, Some(2), 2)
  }

  function PendDelta(): Delta {
    Delta(true, PendedTx(), None, [TxEvent(22, TransactionPending, PendedTx(), 2)])
  }

  function Waiting(): Work {
    Approached(Rolls(), Row(1)).(reference := Some(None))
  }

  lemma RollbackDecided(policy: Policy)
    ensures Ready(Waiting())
    ensures Decision(policy, Waiting(), RollbackIds(), 2) == Write(PendDelta(), TxResult(20, PendingReference, None, None, false))
  {
  }

  lemma RowsAdmitted(db: Db)
    requires db.wallets == map[1 := Row(1), 2 := Row(2)]
    ensures db.txs == map[] || db.txs == map[20 := PendedTx()] ==> InsertTx(db, LostTx()).Ok?
    ensures db.txs == map[] || db.txs == map[10 := LostTx()] ==> InsertTx(db, PendedTx()).Ok?
  {
    assert !Clash(LostTx(), PendedTx()) && !Clash(PendedTx(), LostTx());
  }

  // ----- a rollback that goes on waiting

  // The rollback looks its reference up and finds nothing.
  lemma RollbackLooksUp(policy: Policy)
    ensures Run(TwoWallets(policy), Approach(1, Rolls()) + [ReadReference(1)]) == TwoWallets(policy).(units := map[1 := Waiting()])
  {
    var s := TwoWallets(policy);
    CommandsParse();
    Approaches(s, 1, Rolls());
    var s1 := s.(units := s.units[1 := Approached(Rolls(), Row(1))]);
    RunOne(s1, ReadReference(1));
    assert Enabled(s1, ReadReference(1));
    RunConcat(s, Approach(1, Rolls()), [ReadReference(1)]);
    assert s1.units[1 := Waiting()] == map[1 := Waiting()];
  }

  function Before(): seq<Step> {
    Approach(1, Rolls()) + [ReadReference(1)]
  }

  function LossComesIn(): seq<Step> {
    Approach(2, Loses()) + [Finish(2, LossIds(), 1)]
  }

  // Then the loss it refers to comes in and commits.
  lemma LossCommits(s: System)
    requires s.codec == Ids12() && s.db.wallets == map[1 := Row(1), 2 := Row(2)] && s.units.Keys == {1} && HoldsWallet(s.units[1], 1)
    requires s.db.txs == map[] || s.db.txs == map[20 := PendedTx()]
    requires EventAdmissible(s.db.outbox, LossDelta().events[0])
    ensures Run(s, LossComesIn()) ==
            s.(db := s.db.(txs := s.db.txs[10 := LostTx()], outbox := s.db.outbox + LossDelta().events),
               log := s.log + [Commit(None, Some(LossDelta()))])
  {
    CommandsParse();
    Approaches(s, 2, Loses());
    var open := s.(units := s.units[2 := Approached(Loses(), Row(2))]);
    LossDecided(s.policy);
    RowsAdmitted(s.db);
    QuietFinish(open, 2, LossIds(), 1, LossDelta(), TxResult(10, Processed, Some(Money(0, "EUR")), None, false));
    RunConcat(s, Approach(2, Loses()), [Finish(2, LossIds(), 1)]);
    assert open.units - {2} == s.units;
  }

  function AfterLoss(policy: Policy): System {
    System(Normalized(policy), Ids12(), Queue(),
           EMPTY_DB.(wallets := map[1 := Row(1), 2 := Row(2)], txs := map[10 := LostTx()], outbox := LossDelta().events),
           map[1 := Waiting()], [Commit(None, Some(LossDelta()))])
  }

  lemma LossOvertakes(policy: Policy)
    ensures Run(TwoWallets(policy).(units := map[1 := Waiting()]), LossComesIn()) == AfterLoss(policy)
  {
    var s := TwoWallets(policy).(units := map[1 := Waiting()]);
    LossCommits(s);
    assert s.db.txs[10 := LostTx()] == map[10 := LostTx()] && s.db.outbox + LossDelta().events == LossDelta().events;
  }

  lemma AfterLossReached(policy: Policy)
    ensures Reachable(AfterLoss(policy))
  {
    TwoWalletsReached(policy);
    RollbackLooksUp(policy);
    LossOvertakes(policy);
    RunConcat(Init(SiteOf(policy)), Opening(), Before());
    RunConcat(Init(SiteOf(policy)), Opening() + Before(), LossComesIn());
    ReachedBy(SiteOf(policy), Opening() + Before() + LossComesIn(), AfterLoss(policy));
  }

  lemma ReachedBy(site: Site, steps: seq<Step>, s: System)
    requires Run(Init(site), steps) == s
    ensures Reachable(s)
  {
  }

  lemma ReferenceCameLate(db: Db, w: Work)
    requires 10 in db.txs && db.txs[10] == LostTx() && forall id | id in db.txs && id != 10 :: db.txs[id] == PendedTx()
    requires !w.job.Unparsed? && JobProvider(w.job) == "provider" && JobReference(w.job) == "late" && w.reference == Some(None)
    ensures Stale(db, w)
  {
    assert HasExternalId(db.txs[10], "provider", "late");
  }

  lemma RollbackCommits(policy: Policy)
    ensures Commits(AfterLoss(policy), 1, RollbackIds(), 2) && Stale(AfterLoss(policy).db, AfterLoss(policy).units[1])
    ensures !LastAttempt(AfterLoss(policy).policy, AfterLoss(policy).units[1])
  {
    var s := AfterLoss(policy);
    RollbackDecided(s.policy);
    RowsAdmitted(s.db);
    QuietFinish(s, 1, RollbackIds(), 2, PendDelta(), TxResult(20, PendingReference, None, None, false));
    ReferenceCameLate(s.db, Waiting());
  }

  // ----- a last attempt

  // One attempt only.
  function Strict(): Policy {
    Policy(1, 0, 0, 0, 0)
  }

  function PendedDb(): Db {
    EMPTY_DB.(wallets := map[1 := Row(1), 2 := Row(2)], txs := map[20 := PendedTx()], outbox := PendDelta().events)
  }

  function Pended(): System {
    System(Normalized(Strict()), Ids12(), Queue(), PendedDb(), map[], [Commit(None, Some(PendDelta()))])
  }

  lemma RollbackPends()
    ensures Run(TwoWallets(Strict()).(units := map[1 := Waiting()]), [Finish(1, RollbackIds(), 2)]) == Pended()
  {
    var s := TwoWallets(Strict()).(units := map[1 := Waiting()]);
    RollbackDecided(s.policy);
    RowsAdmitted(s.db);
    QuietFinish(s, 1, RollbackIds(), 2, PendDelta(), TxResult(20, PendingReference, None, None, false));
    assert s.units - {1} == map[] && s.db.txs[20 := PendedTx()] == map[20 := PendedTx()];
    assert s.db.outbox + PendDelta().events == PendDelta().events;
  }

  lemma PendedReached()
    ensures Run(Init(SiteOf(Strict())), Opening() + Before() + [Finish(1, RollbackIds(), 2)]) == Pended()
  {
    TwoWalletsReached(Strict());
    RollbackLooksUp(Strict());
    RollbackPends();
    RunConcat(Init(SiteOf(Strict())), Opening(), Before());
    RunConcat(Init(SiteOf(Strict())), Opening() + Before(), [Finish(1, RollbackIds(), 2)]);
  }

  function Resuming(): Work {
    Begun(Resumption(PendedTx(), 2), None).(wallet := Some(Row(1)), reference := Some(None))
  }

  function Resume(): seq<Step> {
    [Claim(1, 20, 2)] + [Lock(1)] + [ReadReference(1)]
  }

  // The worker claims the row and looks its reference up in vain once more.
  lemma ResumptionLooksUp()
    ensures Run(Pended(), Resume()) == Pended().(units := map[1 := Resuming()])
  {
    var s, w := Pended(), Begun(Resumption(PendedTx(), 2), None);
    RunOne(s, Claim(1, 20, 2));
    assert Enabled(s, Claim(1, 20, 2));
    var s0 := s.(units := s.units[1 := w]);
    LocksFree(s, 1, w);
    var s1 := s.(units := s.units[1 := w.(wallet := Some(Row(1)))]);
    RunOne(s1, ReadReference(1));
    assert Enabled(s1, ReadReference(1));
    assert !HasExternalId(PendedTx(), "provider", "late");
    assert s1.units[1 := Resuming()] == map[1 := Resuming()];
    RunConcat(s, [Claim(1, 20, 2)], [Lock(1)]);
    RunConcat(s, [Claim(1, 20, 2)] + [Lock(1)], [ReadReference(1)]);
  }

  function Expiring(): System {
    Pended().(db := PendedDb().(txs := PendedDb().txs[10 := LostTx()], outbox := PendedDb().outbox + LossDelta().events),
              units := map[1 := Resuming()], log := Pended().log + [Commit(None, Some(LossDelta()))])
  }

  lemma LossOvertakesWorker()
    ensures Run(Pended().(units := map[1 := Resuming()]), LossComesIn()) == Expiring()
  {
    LossCommits(Pended().(units := map[1 := Resuming()]));
  }

  lemma ExpiringReached()
    ensures Reachable(Expiring())
  {
    PendedReached();
    ResumptionLooksUp();
    LossOvertakesWorker();
    var start := Opening() + Before() + [Finish(1, RollbackIds(), 2)];
    RunConcat(Init(SiteOf(Strict())), start, Resume());
    RunConcat(Init(SiteOf(Strict())), start + Resume(), LossComesIn());
    ReachedBy(SiteOf(Strict()), start + Resume() + LossComesIn(), Expiring());
  }

  function ExpiryIds(): Ids {
    Ids(30, 31, 32, 33)
  }

  function ExpiredTx(): Tx {
    PendedTx().(status := Rejected, failure := Some(ReferenceNotFound), nextRetry := None)
  }

  function ExpiryDelta(): Delta {
    Delta(false, ExpiredTx(), None, [TxEvent(32, TransactionRejected, ExpiredTx(), 2)])
  }

  lemma ExpiryDecided()
    ensures Ready(Resuming()) && Exhausted(PendedTx(), Normalized(Strict()), 2)
    ensures Decision(Normalized(Strict()), Resuming(), ExpiryIds(), 3) ==
            Write(ExpiryDelta(), TxResult(20, Rejected, None, Some(ReferenceNotFound), false))
  {
  }

  lemma ExpiryAdmitted()
    ensures UpdateTx(Expiring().db, ExpiredTx()).Ok?
  {
    assert !Clash(LostTx(), ExpiredTx());
  }

  lemma ExpiryCommits()
    ensures Commits(Expiring(), 1, ExpiryIds(), 3) && Stale(Expiring().db, Expiring().units[1])
    ensures LastAttempt(Expiring().policy, Expiring().units[1])
  {
    ExpiryDecided();
    ExpiryAdmitted();
    QuietFinish(Expiring(), 1, ExpiryIds(), 3, ExpiryDelta(), TxResult(20, Rejected, None, Some(ReferenceNotFound), false));
    ReferenceCameLate(Expiring().db, Resuming());
  }

  // Reachable states let a unit commit on a stale reference, with its code kept and with it lost.
  lemma StaleHappens(last: bool)
    ensures exists s: System, u: nat, ids: Ids, now: Instant ::
              Reachable(s) && Commits(s, u, ids, now) && Stale(s.db, s.units[u]) && LastAttempt(s.policy, s.units[u]) == last
    ensures Parse(Ids12(), RollbackCommand()) == Ok(Rolls()) && Parse(Ids12(), LossCommand()) == Ok(Loses())
  {
    CommandsParse();
    if last {
      ExpiringReached();
      ExpiryCommits();
    } else {
      AfterLossReached(Strict());
      RollbackCommits(Strict());
    }
  }
}
