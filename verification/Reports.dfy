// What reads of the tables report: reconciliation, entry ownership, and the balance events as a
// faithful second copy of the ledger.
module Reports {
  import opened Base
  import opened MoneyModel
  import opened Wagering
  import opened Store
  import opened Invariant

  // ----- reconciliation

  datatype Report = Report(stored: Money, calculated: Money, difference: Money, consistent: bool, entries: nat)

  function CountEntries(L: seq<Entry>, w: Id): nat {
    if L == [] then 0 else CountEntries(L[..|L| - 1], w) + if L[|L| - 1].walletId == w then 1 else 0
  }

  function EntryCurrency(L: seq<Entry>, w: Id): string
    requires CountEntries(L, w) > 0
  {
    if L[|L| - 1].walletId == w then L[|L| - 1].currency else EntryCurrency(L[..|L| - 1], w)
  }

  // Both reads come from one snapshot; the sum of an empty ledger takes the wallet's currency.
  function Reconcile(db: Db, w: Id): Result<Report> {
    if w !in db.wallets then Err(NotFound)
    else if !Fits(Sum(db.ledger, w)) then Err(Infrastructure)
    else
      var stored := db.wallets[w].Balance();
      var entries := CountEntries(db.ledger, w);
      var calculated := if entries == 0 then Money(0, db.wallets[w].currency)
                        else Money(Sum(db.ledger, w) as int64, EntryCurrency(db.ledger, w));
      var difference :- stored.Minus(calculated);
      Ok(Report(stored, calculated, difference, difference.minor == 0, entries))
  }

  lemma {:induction false} CurrencyOfWallet(db: Db, n: nat, w: Id)
    requires Sound(db) && n <= |db.ledger| && w in db.wallets
    ensures CountEntries(db.ledger[..n], w) > 0 ==> EntryCurrency(db.ledger[..n], w) == db.wallets[w].currency
    ensures CountEntries(db.ledger[..n], w) == 0 ==> Sum(db.ledger[..n], w) == 0
  {
    if n > 0 {
      CurrencyOfWallet(db, n - 1, w);
      assert db.ledger[..n][..n - 1] == db.ledger[..n - 1];
    }
  }

  lemma {:induction false} CountIsCardinality(L: seq<Entry>, w: Id)
    ensures CountEntries(L, w) == |set i | 0 <= i < |L| && L[i].walletId == w|
  {
    if L != [] {
      var n := |L| - 1;
      CountIsCardinality(L[..n], w);
      OneMoreCounted(L, w, set i | 0 <= i < n && L[..n][i].walletId == w, set i | 0 <= i < |L| && L[i].walletId == w);
    }
  }

  lemma OneMoreCounted(L: seq<Entry>, w: Id, mine: set<int>, all: set<int>)
    requires L != []
    requires forall i :: i in mine <==> 0 <= i < |L| - 1 && L[i].walletId == w
    requires forall i :: i in all <==> 0 <= i < |L| && L[i].walletId == w
    ensures |all| == |mine| + if L[|L| - 1].walletId == w then 1 else 0
  {
    var more := if L[|L| - 1].walletId == w then mine + {|L| - 1} else mine;
    assert forall i :: i in all <==> i in more;
    assert all == more;
  }

  // What reconciliation reports of any tables the schema admits, in order or not: the balance, the
  // sum of the ledger, their difference and the number of entries. It fails only for lack of range.
  lemma ReconcileExactly(db: Db, w: Id)
    requires Sound(db) && w in db.wallets
    ensures Reconcile(db, w).Ok? <==> Fits(Sum(db.ledger, w)) && Fits(db.wallets[w].balance as int - Sum(db.ledger, w))
    ensures Reconcile(db, w).Ok? ==>
              var r, balance, sum := Reconcile(db, w).value, db.wallets[w].balance as int, Sum(db.ledger, w);
              && r.stored.minor as int == balance && r.calculated.minor as int == sum && r.difference.minor as int == balance - sum
              && (r.consistent <==> balance == sum)
              && r.entries == |set i | 0 <= i < |db.ledger| && db.ledger[i].walletId == w|
  {
    CurrencyOfWallet(db, |db.ledger|, w);
    assert db.ledger[..|db.ledger|] == db.ledger && WalletChecks(db.wallets[w]);
    SameCurrencyReport(db, w);
    CountIsCardinality(db.ledger, w);
  }

  lemma SameCurrencyReport(db: Db, w: Id)
    requires w in db.wallets && WalletChecks(db.wallets[w])
    requires CountEntries(db.ledger, w) > 0 ==> EntryCurrency(db.ledger, w) == db.wallets[w].currency
    requires CountEntries(db.ledger, w) == 0 ==> Sum(db.ledger, w) == 0
    ensures Reconcile(db, w).Ok? <==> Fits(Sum(db.ledger, w)) && Fits(db.wallets[w].balance as int - Sum(db.ledger, w))
    ensures Reconcile(db, w).Ok? ==>
              var r, balance, sum := Reconcile(db, w).value, db.wallets[w].balance as int, Sum(db.ledger, w);
              && r.stored.minor as int == balance && r.calculated.minor as int == sum && r.difference.minor as int == balance - sum
              && (r.consistent <==> balance == sum) && r.entries == CountEntries(db.ledger, w)
              && r.stored.currency == r.calculated.currency == r.difference.currency == db.wallets[w].currency
  {
  }

  // Reconciliation never finds a difference, and never fails for lack of range.
  lemma ReconciliationIsClean(db: Db, w: Id)
    requires Inv(db) && w in db.wallets
    ensures Reconcile(db, w).Ok?
    ensures var r := Reconcile(db, w).value;
            r.consistent && r.difference == Money(0, db.wallets[w].currency) && r.calculated == r.stored == db.wallets[w].Balance()
            && r.entries == CountEntries(db.ledger, w)
  {
    CurrencyOfWallet(db, |db.ledger|, w);
    assert BalanceOk(db.wallets, db.txs, db.ledger, w);
    assert db.ledger[..|db.ledger|] == db.ledger && WalletChecks(db.wallets[w]);
    CleanReport(db, w);
  }

  lemma CleanReport(db: Db, w: Id)
    requires w in db.wallets && WalletChecks(db.wallets[w]) && Sum(db.ledger, w) == db.wallets[w].balance as int
    requires CountEntries(db.ledger, w) > 0 ==> EntryCurrency(db.ledger, w) == db.wallets[w].currency
    requires CountEntries(db.ledger, w) == 0 ==> Sum(db.ledger, w) == 0
    ensures Reconcile(db, w).Ok?
    ensures var r := Reconcile(db, w).value;
            r.consistent && r.difference == Money(0, db.wallets[w].currency) && r.calculated == r.stored == db.wallets[w].Balance()
            && r.entries == CountEntries(db.ledger, w)
  {
    SameCurrencyReport(db, w);
  }

  // ----- entries and the transactions that own them

  // What a transaction's own entry says about it.
  ghost predicate OwnEntry(txs: map<Id, Tx>, L: seq<Entry>, i: nat, t: Tx)
    requires i < |L|
  {
    var e := L[i];
    && e.walletId == t.info.walletId && e.amount == t.info.amount.minor
    && t.result == Some(Outcome(Money(e.after, e.currency), 1 + Moves(txs, L[..i + 1], e.walletId)))
    && e.direction == DirectionOf(txs, t)
  }

  lemma EntryIsOwn(txs: map<Id, Tx>, L: seq<Entry>, i: nat, id: Id)
    requires i < |L| && EntryOk(txs, L, i) && id in txs && L[i].txId == id
    ensures OwnEntry(txs, L, i, txs[id]) && txs[id].status == Processed && txs[id].info.kind != Loss
  {
  }

  lemma SettledHasEntry(txs: map<Id, Tx>, L: seq<Entry>, id: Id) returns (i: nat)
    requires Ledger(txs, L) && id in txs && txs[id].info.id == id && txs[id].status == Processed && txs[id].info.kind != Loss
    ensures EntryOf(L, i, id)
  {
    assert ResultFrozen(txs, L, id);
    var n: nat :| FrozenAt(txs, L, txs[id], n);
    i := n - 1;
  }

  // A processed transaction other than a LOSS owns exactly one entry, which repeats its amount,
  // takes the direction its kind and its reference's kind dictate, and leaves the balance its
  // frozen result records. Every other transaction owns none.
  lemma EntryOwnership(db: Db, id: Id)
    requires Inv(db) && id in db.txs
    ensures db.txs[id].status == Processed && db.txs[id].info.kind != Loss <==> exists i: nat :: EntryOf(db.ledger, i, id)
    ensures forall i: nat, j: nat :: EntryOf(db.ledger, i, id) && EntryOf(db.ledger, j, id) ==> i == j
    ensures forall i: nat :: EntryOf(db.ledger, i, id) ==> OwnEntry(db.txs, db.ledger, i, db.txs[id])
  {
    EntriesAreOwn(db.txs, db.ledger, id);
    if db.txs[id].status == Processed && db.txs[id].info.kind != Loss {
      var i := SettledHasEntry(db.txs, db.ledger, id);
    }
  }

  lemma EntriesAreOwn(txs: map<Id, Tx>, L: seq<Entry>, id: Id)
    requires EntriesOk(txs, L) && OneEntryEach(L) && id in txs
    ensures forall i: nat :: EntryOf(L, i, id) ==>
              OwnEntry(txs, L, i, txs[id]) && txs[id].status == Processed && txs[id].info.kind != Loss
    ensures forall i: nat, j: nat :: EntryOf(L, i, id) && EntryOf(L, j, id) ==> i == j
  {
    forall i: nat | EntryOf(L, i, id) ensures OwnEntry(txs, L, i, txs[id]) && txs[id].status == Processed && txs[id].info.kind != Loss {
      EntryIsOwn(txs, L, i, id);
    }
  }

  // ----- the event stream of one wallet

  // Replaying the balance events, starting from nothing.
  function Folded(events: seq<EventData>): int {
    if events == [] then 0
    else Folded(events[..|events| - 1]) + Change(events[|events| - 1])
  }

  function Change(x: EventData): int {
    if x.TxData? then 0 else if x.direction == Credit then x.amount.minor as int else -(x.amount.minor as int)
  }

  function EntriesOf(L: seq<Entry>, w: Id): seq<Entry> {
    if L == [] then []
    else EntriesOf(L[..|L| - 1], w) + if L[|L| - 1].walletId == w then [L[|L| - 1]] else []
  }

  lemma {:induction false} ExpectedIsEntrywise(txs: map<Id, Tx>, L: seq<Entry>, w: Id)
    ensures |Expected(txs, L, w)| == |EntriesOf(L, w)| == CountEntries(L, w)
    ensures forall k | 0 <= k < |EntriesOf(L, w)| :: Expected(txs, L, w)[k] == EventOf(txs, EntriesOf(L, w)[k])
  {
    if L != [] {
      ExpectedIsEntrywise(txs, L[..|L| - 1], w);
    }
  }

  // Balances chain from one event to the next and versions count up without gaps.
  ghost predicate Chained(X: seq<EventData>, sum: int, version: int) {
    && (forall k | 0 <= k < |X| :: X[k].BalanceData?)
    && (X == [] ==> sum == 0 && version == 1)
    && (X != [] ==>
          && X[0].before.minor == 0 && 1 <= X[0].version <= 2
          && X[|X| - 1].after.minor as int == sum && X[|X| - 1].version == version)
    && (forall k | 0 <= k < |X| :: X[k].version == X[0].version + k)
    && (forall k | 0 < k < |X| :: X[k].before == X[k - 1].after)
    && Folded(X) == sum
  }

  // An opening entry can only be the first of its wallet.
  lemma {:induction false} NothingExpectedBefore(txs: map<Id, Tx>, L: seq<Entry>, w: Id)
    requires forall j | 0 <= j < |L| :: L[j].walletId != w
    ensures Expected(txs, L, w) == []
  {
    if L != [] {
      NothingExpectedBefore(txs, L[..|L| - 1], w);
    }
  }

  lemma NextVersion(txs: map<Id, Tx>, L: seq<Entry>, n: nat, w: Id)
    requires n < |L| && EntryOk(txs, L, n) && L[n].walletId == w
    requires Expected(txs, L[..n], w) == [] ==> Moves(txs, L[..n], w) == 0
    ensures var X, x := Expected(txs, L[..n], w), EventOf(txs, L[n]);
            x.version == 1 + Moves(txs, L[..n + 1], w) && if X == [] then 1 <= x.version <= 2 else x.version == 2 + Moves(txs, L[..n], w)
  {
    assert L[..n + 1] == L[..n] + [L[n]];
    MovesAppend(txs, L[..n], L[n], w);
    if IsOpening(txs, L[n].txId) {
      NothingExpectedBefore(txs, L[..n], w);
    }
  }

  ghost predicate ChainedUpTo(txs: map<Id, Tx>, L: seq<Entry>, n: nat, w: Id, currency: string)
    requires n <= |L|
  {
    var X := Expected(txs, L[..n], w);
    && Chained(X, Sum(L[..n], w), 1 + Moves(txs, L[..n], w))
    && (X != [] ==> X[|X| - 1].after.currency == currency)
  }

  // One more entry and its event, in terms of the sums before and after it.
  lemma ChainedByOne(X: seq<EventData>, sum: int, version: int, currency: string, x: EventData)
    requires Chained(X, sum, version) && (X != [] ==> X[|X| - 1].after.currency == currency)
    requires x.BalanceData? && x.before.currency == x.after.currency == currency && x.before.minor as int == sum
    requires x.after.minor as int == sum + if x.direction == Credit then x.amount.minor as int else -(x.amount.minor as int)
    requires if X == [] then 1 <= x.version <= 2 else x.version == version + 1
    ensures Chained(X + [x], x.after.minor as int, x.version) && (X + [x])[|X + [x]| - 1].after.currency == currency
  {
  }

  lemma ChainedStep(txs: map<Id, Tx>, L: seq<Entry>, n: nat, w: Id, currency: string)
    requires n < |L| && ChainedUpTo(txs, L, n, w, currency)
    requires L[n].walletId == w && L[n].currency == currency
    requires L[n].before as int == Sum(L[..n], w)
    requires var version := EventOf(txs, L[n]).version;
             && version == 1 + Moves(txs, L[..n + 1], w)
             && if Expected(txs, L[..n], w) == [] then 1 <= version <= 2 else version == 2 + Moves(txs, L[..n], w)
    requires L[n].after as int == Sum(L[..n + 1], w) == L[n].before as int + Signed(L[n])
    ensures ChainedUpTo(txs, L, n + 1, w, currency)
  {
    ChainedByOne(Expected(txs, L[..n], w), Sum(L[..n], w), 1 + Moves(txs, L[..n], w), currency, EventOf(txs, L[n]));
    NextExpected(txs, L, n, w);
  }

  lemma NextExpected(txs: map<Id, Tx>, L: seq<Entry>, n: nat, w: Id)
    requires n < |L|
    ensures Expected(txs, L[..n + 1], w) == Expected(txs, L[..n], w) + if L[n].walletId == w then [EventOf(txs, L[n])] else []
  {
    assert L[..n + 1] == L[..n] + [L[n]];
    ExpectedAppend(txs, L[..n], L[n], w);
  }

  lemma NextBalance(txs: map<Id, Tx>, L: seq<Entry>, n: nat)
    requires n < |L| && EntryOk(txs, L, n)
    ensures var e := L[n];
            e.before as int == Sum(L[..n], e.walletId) && e.after as int == Sum(L[..n + 1], e.walletId) == e.before as int + Signed(e)
  {
    assert L[..n + 1] == L[..n] + [L[n]];
    SumAppend(L[..n], L[n], L[n].walletId);
  }

  lemma ChainedSkip(txs: map<Id, Tx>, L: seq<Entry>, n: nat, w: Id, currency: string)
    requires n < |L| && L[n].walletId != w && ChainedUpTo(txs, L, n, w, currency)
    ensures ChainedUpTo(txs, L, n + 1, w, currency)
  {
    assert L[..n + 1] == L[..n] + [L[n]];
    ExpectedAppend(txs, L[..n], L[n], w);
    SumAppend(L[..n], L[n], w);
    MovesAppend(txs, L[..n], L[n], w);
    assert Expected(txs, L[..n + 1], w) == Expected(txs, L[..n], w);
  }

  lemma {:induction false} ExpectedChained(txs: map<Id, Tx>, L: seq<Entry>, n: nat, w: Id, currency: string)
    requires EntriesOk(txs, L) && n <= |L|
    requires forall i | 0 <= i < |L| :: L[i].walletId == w ==> L[i].currency == currency
    ensures ChainedUpTo(txs, L, n, w, currency)
  {
    if n > 0 {
      ExpectedChained(txs, L, n - 1, w, currency);
      if L[n - 1].walletId != w {
        ChainedSkip(txs, L, n - 1, w, currency);
      } else {
        assert EntryOk(txs, L, n - 1);
        NextVersion(txs, L, n - 1, w);
        NextBalance(txs, L, n - 1);
        ChainedStep(txs, L, n - 1, w, currency);
      }
    }
  }

  lemma EntryCurrencies(db: Db, w: Id)
    requires Inv(db) && w in db.wallets
    ensures forall i | 0 <= i < |db.ledger| :: db.ledger[i].walletId == w ==> db.ledger[i].currency == db.wallets[w].currency
  {
    forall i | 0 <= i < |db.ledger| && db.ledger[i].walletId == w ensures db.ledger[i].currency == db.wallets[w].currency {
      assert EntryOk(db.txs, db.ledger, i) && TxForeignKeys(db, db.txs[db.ledger[i].txId]);
    }
  }

  // The balance events of a wallet, in append order, match its entries one for one; balances
  // chain from zero, versions are consecutive and end at the wallet's, and folding the stream
  // rebuilds the stored balance.
  ghost predicate Rebuilds(db: Db, w: Id)
    requires w in db.wallets
  {
    var X := Changes(db.outbox, w);
    && |X| == |EntriesOf(db.ledger, w)|
    && (forall k | 0 <= k < |X| :: X[k] == EventOf(db.txs, EntriesOf(db.ledger, w)[k]))
    && Chained(X, db.wallets[w].balance as int, db.wallets[w].version)
    && Folded(X) == db.wallets[w].balance as int
  }

  lemma StreamRebuilds(db: Db, w: Id)
    requires w in db.wallets && EntriesOk(db.txs, db.ledger) && BalanceOk(db.wallets, db.txs, db.ledger, w)
    requires Changes(db.outbox, w) == Expected(db.txs, db.ledger, w)
    requires forall i | 0 <= i < |db.ledger| :: db.ledger[i].walletId == w ==> db.ledger[i].currency == db.wallets[w].currency
    ensures Rebuilds(db, w)
  {
    assert db.ledger[..|db.ledger|] == db.ledger;
    ExpectedIsEntrywise(db.txs, db.ledger, w);
    ExpectedChained(db.txs, db.ledger, |db.ledger|, w, db.wallets[w].currency);
  }

  lemma EventStreamRebuildsWallet(db: Db, w: Id)
    requires Inv(db) && w in db.wallets
    ensures Rebuilds(db, w)
  {
    EntryCurrencies(db, w);
    StreamRebuilds(db, w);
  }
}
