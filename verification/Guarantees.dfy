// The books of one wallet in every reachable state of the concurrent system.
module Guarantees {
  import opened Base
  import opened MoneyModel
  import opened Wagering
  import opened Store
  import opened Invariant
  import opened Conservation
  import opened Reports
  import opened Interleaving
  import opened Isolation
  import opened Paging

  // Whatever ran, crashed or was redelivered: the balance is what the standing operations account
  // for and fits the ledger's sum, the version counts the movements, and both reconciliation and
  // the event stream agree with the wallet row.
  lemma BooksBalance(s: System, w: Id)
    requires Reachable(s) && w in s.db.wallets
    ensures var row := s.db.wallets[w];
            && row.balance >= 0
            && row.balance as int == Sum(s.db.ledger, w) == EffectiveTotal(s.db.txs, w) == Folded(Changes(s.db.outbox, w))
            && row.version == 1 + Moves(s.db.txs, s.db.ledger, w)
            && Chained(Changes(s.db.outbox, w), row.balance as int, row.version)
            && Reconcile(s.db, w) == Ok(Report(row.Balance(), row.Balance(), Money(0, row.currency), true, CountEntries(s.db.ledger, w)))
  {
    ReachableOk(s);
    Conserved(s.db, w);
    ReconciliationIsClean(s.db, w);
    EventStreamRebuildsWallet(s.db, w);
    assert BalanceOk(s.db.wallets, s.db.txs, s.db.ledger, w) && WalletChecks(s.db.wallets[w]);
  }

  // No operation is undone twice, by the direct path, the worker or both, and a reversal agrees
  // with what it undid on wallet, player, round and amount.
  lemma UndoneOnce(s: System, a: Id, b: Id)
    requires Reachable(s) && a in s.db.txs && b in s.db.txs
    requires SuccessfulReversal(s.db.txs[a]) && SuccessfulReversal(s.db.txs[b])
    ensures s.db.txs[a].refId == s.db.txs[b].refId ==> a == b
    ensures var r := s.db.txs[a];
            && r.refId.Some? && r.refId.value in s.db.txs
            && var t := s.db.txs[r.refId.value];
               && t.status == Processed && t.info.walletId == r.info.walletId && t.info.playerId == r.info.playerId
               && t.info.round == r.info.round && t.info.amount == r.info.amount
               && (r.info.kind == Refund ==> t.info.kind == Bet) && t.info.kind in {Bet, Win, Refund}
  {
    ReachableOk(s);
    ReversedOnceAndLater(s.db, a, b);
    ReversalChains(s.db, a, 2);
    assert RefOk(s.db.txs, s.db.txs[a]);
  }

  // ----- reading the ledger while the system runs

  // One page request after each stretch of a run, with its limit.
  ghost function Requests(s: System, stretches: seq<(seq<Step>, nat)>): seq<Visit>
    decreases |stretches|
  {
    if stretches == [] then []
    else
      var next := Run(s, stretches[0].0);
      [Visit(next.db.ledger, stretches[0].1)] + Requests(next, stretches[1..])
  }

  lemma LedgerGrowsUniquely(s: System, steps: seq<Step>)
    requires Reachable(s)
    ensures s.db.ledger <= Run(s, steps).db.ledger && UniqueIds(Run(s, steps).db.ledger)
  {
    ReachableOk(s);
    RunOk(s, steps);
    assert LedgerSound(Run(s, steps).db);
  }

  lemma OneMoreVisit(v: Visit, rest: seq<Visit>)
    requires v.limit > 0 && UniqueIds(v.ledger) && Visits(rest) && forall i | 0 <= i < |rest| :: v.ledger <= rest[i].ledger
    ensures Visits([v] + rest)
  {
  }

  lemma {:induction false} RequestsAreVisits(s: System, stretches: seq<(seq<Step>, nat)>)
    requires Reachable(s) && forall i | 0 <= i < |stretches| :: stretches[i].1 > 0
    ensures Visits(Requests(s, stretches)) && |Requests(s, stretches)| == |stretches|
    ensures forall i | 0 <= i < |Requests(s, stretches)| :: s.db.ledger <= Requests(s, stretches)[i].ledger
    decreases |stretches|
  {
    if stretches != [] {
      var next := Run(s, stretches[0].0);
      LedgerGrowsUniquely(s, stretches[0].0);
      ReachableRun(s, stretches[0].0);
      RequestsAreVisits(next, stretches[1..]);
      var v, rest := Visit(next.db.ledger, stretches[0].1), Requests(next, stretches[1..]);
      OneMoreVisit(v, rest);
      assert Requests(s, stretches) == [v] + rest;
    }
  }

  // A reader who follows the cursor while the system runs on never sees an entry twice, sees them
  // in order, and, once at the end, has seen every entry that was there when it began.
  lemma PagesOfARun(s: System, w: Id, stretches: seq<(seq<Step>, nat)>)
    requires Reachable(s) && stretches != [] && forall i | 0 <= i < |stretches| :: stretches[i].1 > 0
    ensures Visits(Requests(s, stretches))
    ensures var walked := Walk(w, None, Requests(s, stretches));
            && Ordered(walked.entries, w, None)
            && (walked.done ==> Covers(walked.entries, s.db.ledger, w, None))
  {
    RequestsAreVisits(s, stretches);
    WalkWithAppends(w, None, Requests(s, stretches));
  }
}
