// Conservation through reversals: the balance of a wallet is its opening credit plus its
// effective wins minus its effective bets, said without mentioning the ledger.
module Conservation {
  import opened Base
  import opened Wagering
  import opened Store
  import opened Invariant

  // ----- sums over finite maps

  ghost function Total(m: map<Id, int>): int
    decreases |m.Keys|
  {
    if m == map[] then 0
    else
      var k :| k in m;
      assert (m - {k}).Keys == m.Keys - {k};
      m[k] + Total(m - {k})
  }

  lemma {:induction false} TotalSplit(m: map<Id, int>, k: Id)
    requires k in m
    ensures Total(m) == m[k] + Total(m - {k})
    decreases |m.Keys|
  {
    var p :| p in m && Total(m) == m[p] + Total(m - {p});
    if p != k {
      assert (m - {p}).Keys == m.Keys - {p} && (m - {k}).Keys == m.Keys - {k};
      TotalSplit(m - {p}, k);
      TotalSplit(m - {k}, p);
      assert (m - {p}) - {k} == (m - {k}) - {p};
    }
  }

  lemma TotalAdd(m: map<Id, int>, k: Id, v: int)
    requires k !in m
    ensures Total(m[k := v]) == Total(m) + v
  {
    TotalSplit(m[k := v], k);
    assert m[k := v] - {k} == m;
  }

  lemma TotalChange(m: map<Id, int>, k: Id, v: int)
    requires k in m
    ensures Total(m[k := v]) == Total(m) - m[k] + v
  {
    TotalSplit(m, k);
    TotalSplit(m[k := v], k);
    assert m[k := v] - {k} == m - {k};
  }

  // A new key worth nothing and one key revalued.
  lemma TotalShift(m: map<Id, int>, n: map<Id, int>, x: Id, p: Id)
    requires x !in m && p in m && n.Keys == m.Keys + {x} && n[x] == 0
    requires forall y | y in m && y != p :: n[y] == m[y]
    ensures Total(n) == Total(m) - m[p] + n[p]
  {
    TotalAdd(m, x, 0);
    TotalChange(m[x := 0], p, n[p]);
    assert n == m[x := 0][p := n[p]];
  }

  lemma {:induction false} TotalIgnoresZeros(m: map<Id, int>, n: map<Id, int>)
    requires n.Keys <= m.Keys && forall k | k in m :: if k in n then m[k] == n[k] else m[k] == 0
    ensures Total(m) == Total(n)
    decreases |m.Keys|
  {
    if k :| k in m && k !in n {
      TotalSplit(m, k);
      assert (m - {k}).Keys == m.Keys - {k};
      TotalIgnoresZeros(m - {k}, n);
    } else {
      assert m == n;
    }
  }

  // ----- effective operations

  // Among the transactions of S: is id reversed, and does its reversal stand?
  ghost predicate ReversedIn(txs: map<Id, Tx>, S: set<Id>, id: Id) {
    exists r :: r in S && r in txs && SuccessfulReversalOf(txs[r], id)
  }

  ghost predicate EffectiveIn(txs: map<Id, Tx>, S: set<Id>, id: Id) {
    forall r | r in S && r in txs && SuccessfulReversalOf(txs[r], id) :: ReversedIn(txs, S, r)
  }

  // What one transaction is worth to the wallet w.
  ghost function Worth(txs: map<Id, Tx>, S: set<Id>, w: Id, id: Id): int {
    if id !in txs || txs[id].status != Processed || txs[id].info.walletId != w then 0
    else
      match txs[id].info.kind
      case Opening => txs[id].info.amount.minor as int
      case Win => if EffectiveIn(txs, S, id) then txs[id].info.amount.minor as int else 0
      case Bet => if EffectiveIn(txs, S, id) then -(txs[id].info.amount.minor as int) else 0
      case _ => 0
  }

  ghost function Worths(txs: map<Id, Tx>, S: set<Id>, w: Id): map<Id, int> {
    map id | id in S :: Worth(txs, S, w, id)
  }

  // Opening credit plus effective wins minus effective bets.
  ghost function EffectiveTotal(txs: map<Id, Tx>, w: Id): int {
    Total(Worths(txs, txs.Keys, w))
  }

  // ----- one ledger entry at a time

  ghost function Prefix(L: seq<Entry>, n: nat): set<Id>
    requires n <= |L|
  {
    set i | 0 <= i < n :: L[i].txId
  }

  lemma PrefixGrows(txs: map<Id, Tx>, L: seq<Entry>, n: nat)
    requires Ledger(txs, L) && n < |L|
    ensures Prefix(L, n + 1) == Prefix(L, n) + {L[n].txId} && L[n].txId !in Prefix(L, n)
  {
  }

  // A reversal of the prefix points into the prefix, never to a later entry.
  lemma ReferencesInside(txs: map<Id, Tx>, L: seq<Entry>, n: nat, r: Id)
    requires Ledger(txs, L) && n <= |L| && r in Prefix(L, n) && r in txs && SuccessfulReversal(txs[r])
    ensures txs[r].refId.Some? && txs[r].refId.value in Prefix(L, n) && txs[r].refId.value != r
  {
    var i: nat :| i < n && L[i].txId == r;
    assert ReferenceBefore(txs, L, i);
    var j: nat :| j < i && EntryOf(L, j, txs[r].refId.value);
  }

  // Adding a movement that is not a reversal leaves the standing of the others alone.
  lemma DirectMovement(txs: map<Id, Tx>, L: seq<Entry>, n: nat, w: Id)
    requires Ledger(txs, L) && n < |L| && L[n].txId in txs && !SuccessfulReversal(txs[L[n].txId])
    ensures var x, S := L[n].txId, Prefix(L, n);
            && EffectiveIn(txs, S + {x}, x)
            && forall y | y in S :: Worth(txs, S + {x}, w, y) == Worth(txs, S, w, y)
  {
    var x, S := L[n].txId, Prefix(L, n);
    PrefixGrows(txs, L, n);
    forall r | r in S && r in txs && SuccessfulReversalOf(txs[r], x) ensures false {
      ReferencesInside(txs, L, n, r);
    }
    assert forall y :: ReversedIn(txs, S + {x}, y) <==> ReversedIn(txs, S, y);
    assert forall y :: EffectiveIn(txs, S + {x}, y) <==> EffectiveIn(txs, S, y);
  }

  // Adding a reversal x of b: b loses its standing, what b had undone regains it, nothing else moves.
  lemma Reversal(txs: map<Id, Tx>, L: seq<Entry>, n: nat)
    requires Refs(txs) && Ledger(txs, L) && n < |L| && L[n].txId in txs && SuccessfulReversal(txs[L[n].txId])
    ensures var x, S := L[n].txId, Prefix(L, n);
            var b := txs[x].refId.value;
            && txs[x].refId.Some? && b in S && b in txs && b != x
            && EffectiveIn(txs, S, b) && !EffectiveIn(txs, S + {x}, b)
            && (forall y | y in S && y != b && !(SuccessfulReversal(txs[b]) && txs[b].refId == Some(y)) ::
                  EffectiveIn(txs, S + {x}, y) == EffectiveIn(txs, S, y))
            && (SuccessfulReversal(txs[b]) ==>
                  txs[b].refId.Some? && !EffectiveIn(txs, S, txs[b].refId.value) && EffectiveIn(txs, S + {x}, txs[b].refId.value))
  {
    var x, S := L[n].txId, Prefix(L, n);
    PrefixGrows(txs, L, n);
    assert x in Prefix(L, n + 1);
    ReferencesInside(txs, L, n + 1, x);
    var b := txs[x].refId.value;
    assert RefOk(txs, txs[x]);
    assert SuccessfulReversalOf(txs[x], b);
    forall r | r in S && r in txs && SuccessfulReversalOf(txs[r], x) ensures false {
      ReferencesInside(txs, L, n, r);
    }
    assert !ReversedIn(txs, S + {x}, x);
    assert forall r | r in S && r in txs && SuccessfulReversal(txs[r]) :: txs[r].refId != Some(b);
    assert forall y | y != b :: ReversedIn(txs, S + {x}, y) <==> ReversedIn(txs, S, y);
    assert ReversedIn(txs, S + {x}, b) && !ReversedIn(txs, S, b);
    if SuccessfulReversal(txs[b]) {
      assert RefOk(txs, txs[b]) && SuccessfulReversalOf(txs[b], txs[b].refId.value);
    }
  }

  lemma DirectWorths(txs: map<Id, Tx>, L: seq<Entry>, n: nat, w: Id)
    requires Ledger(txs, L) && n < |L| && L[n].txId in txs && !SuccessfulReversal(txs[L[n].txId])
    ensures var x, S, v := L[n].txId, Prefix(L, n), if L[n].walletId == w then Signed(L[n]) else 0;
            var before: map<Id, int> := Worths(txs, S, w);
            x !in before && Worths(txs, Prefix(L, n + 1), w) == before[x := v]
  {
    var x, S := L[n].txId, Prefix(L, n);
    PrefixGrows(txs, L, n);
    assert EntryOk(txs, L, n);
    DirectMovement(txs, L, n, w);
    var before: map<Id, int> := Worths(txs, S, w);
    assert Worths(txs, S + {x}, w) == before[x := Worth(txs, S + {x}, w, x)];
  }

  lemma DirectStep(txs: map<Id, Tx>, L: seq<Entry>, n: nat, w: Id)
    requires Ledger(txs, L) && n < |L| && L[n].txId in txs && !SuccessfulReversal(txs[L[n].txId])
    ensures Total(Worths(txs, Prefix(L, n + 1), w))
            == Total(Worths(txs, Prefix(L, n), w)) + if L[n].walletId == w then Signed(L[n]) else 0
  {
    DirectWorths(txs, L, n, w);
    TotalAdd(Worths(txs, Prefix(L, n), w), L[n].txId, if L[n].walletId == w then Signed(L[n]) else 0);
  }

  // The one operation whose standing the reversal x changes: what b had undone, or b itself.
  ghost function Touched(txs: map<Id, Tx>, b: Id): Id
    requires b in txs && (SuccessfulReversal(txs[b]) ==> txs[b].refId.Some?)
  {
    if SuccessfulReversal(txs[b]) then txs[b].refId.value else b
  }

  lemma ReversalWorth(txs: map<Id, Tx>, L: seq<Entry>, n: nat, w: Id)
    requires TxsKeyed(txs) && Refs(txs) && Ledger(txs, L) && n < |L| && L[n].txId in txs && SuccessfulReversal(txs[L[n].txId])
    ensures var x, S := L[n].txId, Prefix(L, n);
            && x !in S && Worth(txs, S + {x}, w, x) == 0
            && txs[x].refId.Some? && txs[x].refId.value in txs
            && var b := txs[x].refId.value;
               && (SuccessfulReversal(txs[b]) ==> txs[b].refId.Some?)
               && var p := Touched(txs, b);
                  && p in S && p != x
                  && (forall y | y in S && y != p :: Worth(txs, S + {x}, w, y) == Worth(txs, S, w, y))
                  && Worth(txs, S + {x}, w, p) - Worth(txs, S, w, p) == if L[n].walletId == w then Signed(L[n]) else 0
  {
    var x, S := L[n].txId, Prefix(L, n);
    PrefixGrows(txs, L, n);
    assert EntryOk(txs, L, n);
    Reversal(txs, L, n);
    var b := txs[x].refId.value;
    assert RefOk(txs, txs[x]);
    if SuccessfulReversal(txs[b]) {
      assert RefOk(txs, txs[b]);
      ReferencesInside(txs, L, n, b);
    }
  }

  lemma ReversalStep(txs: map<Id, Tx>, L: seq<Entry>, n: nat, w: Id)
    requires TxsKeyed(txs) && Refs(txs) && Ledger(txs, L) && n < |L| && L[n].txId in txs && SuccessfulReversal(txs[L[n].txId])
    ensures Total(Worths(txs, Prefix(L, n + 1), w))
            == Total(Worths(txs, Prefix(L, n), w)) + if L[n].walletId == w then Signed(L[n]) else 0
  {
    var x, S := L[n].txId, Prefix(L, n);
    PrefixGrows(txs, L, n);
    ReversalWorth(txs, L, n, w);
    TotalShift(Worths(txs, S, w), Worths(txs, Prefix(L, n + 1), w), x, Touched(txs, txs[x].refId.value));
  }

  lemma {:induction false} PrefixTotal(txs: map<Id, Tx>, L: seq<Entry>, n: nat, w: Id)
    requires TxsKeyed(txs) && Refs(txs) && Ledger(txs, L) && n <= |L|
    ensures Total(Worths(txs, Prefix(L, n), w)) == Sum(L[..n], w)
  {
    if n == 0 {
      assert Worths(txs, Prefix(L, 0), w) == map[];
    } else {
      PrefixTotal(txs, L, n - 1, w);
      assert EntryOk(txs, L, n - 1);
      if SuccessfulReversal(txs[L[n - 1].txId]) {
        ReversalStep(txs, L, n - 1, w);
      } else {
        DirectStep(txs, L, n - 1, w);
      }
      assert L[..n][..n - 1] == L[..n - 1];
    }
  }

  lemma SettledAreInPrefix(txs: map<Id, Tx>, L: seq<Entry>)
    requires TxsKeyed(txs) && Ledger(txs, L)
    ensures forall id | id in txs && txs[id].status == Processed && txs[id].info.kind != Loss :: id in Prefix(L, |L|)
    ensures forall id | id in Prefix(L, |L|) :: id in txs
  {
    EntriesProcessed(txs, L);
    forall id | id in txs && txs[id].status == Processed && txs[id].info.kind != Loss ensures id in Prefix(L, |L|) {
      assert ResultFrozen(txs, L, id);
      var n: nat :| FrozenAt(txs, L, txs[id], n);
      assert L[n - 1].txId == id;
    }
  }

  // Transactions without an entry carry no worth, and every reversal has one.
  lemma WholePrefix(txs: map<Id, Tx>, L: seq<Entry>, w: Id)
    requires TxsKeyed(txs) && Ledger(txs, L)
    ensures Total(Worths(txs, txs.Keys, w)) == Total(Worths(txs, Prefix(L, |L|), w))
  {
    var S := Prefix(L, |L|);
    SettledAreInPrefix(txs, L);
    assert forall y :: ReversedIn(txs, S, y) <==> ReversedIn(txs, txs.Keys, y);
    assert forall y :: EffectiveIn(txs, S, y) <==> EffectiveIn(txs, txs.Keys, y);
    TotalIgnoresZeros(Worths(txs, txs.Keys, w), Worths(txs, S, w));
  }

  // In every state that satisfies the invariant, whatever was bet, won, refunded and rolled
  // back, in whatever order, the balance is what the standing operations account for.
  lemma Conserved(db: Db, w: Id)
    requires Inv(db) && w in db.wallets
    ensures db.wallets[w].balance as int == EffectiveTotal(db.txs, w)
  {
    PrefixTotal(db.txs, db.ledger, |db.ledger|, w);
    WholePrefix(db.txs, db.ledger, w);
    assert db.ledger[..|db.ledger|] == db.ledger;
  }

  // ----- chains of reversals

  // Number of reversals below a transaction.
  ghost function Depth(txs: map<Id, Tx>, id: Id, fuel: nat): nat
    decreases fuel
  {
    if fuel == 0 || id !in txs || !SuccessfulReversal(txs[id]) || txs[id].refId.None? then 0
    else 1 + Depth(txs, txs[id].refId.value, fuel - 1)
  }

  ghost predicate Chain(txs: map<Id, Tx>, id: Id)
    requires id in txs
  {
    && txs[id].refId.Some? && txs[id].refId.value in txs
    && var b := txs[txs[id].refId.value];
       && b.info.kind in {Bet, Win, Refund}
       && (b.info.kind == Refund ==>
             && txs[id].info.kind == Rollback && b.refId.Some? && b.refId.value in txs
             && txs[b.refId.value].info.kind == Bet && !SuccessfulReversal(txs[b.refId.value]))
  }

  lemma ChainEnds(txs: map<Id, Tx>, id: Id, fuel: nat)
    requires Refs(txs) && id in txs && SuccessfulReversal(txs[id])
    ensures Depth(txs, id, fuel) <= 2 && Chain(txs, id)
  {
    var b := txs[id].refId.value;
    assert RefOk(txs, txs[id]);
    if txs[b].info.kind == Refund {
      assert RefOk(txs, txs[b]);
      if fuel > 1 {
        assert Depth(txs, txs[b].refId.value, fuel - 2) == 0;
      }
    }
  }

  // A rollback is never reversed, a refund only by a rollback: chains are at most two long and
  // end in a bet or a win, however far one follows them.
  lemma ReversalChains(db: Db, id: Id, fuel: nat)
    requires Inv(db) && id in db.txs && SuccessfulReversal(db.txs[id])
    ensures Depth(db.txs, id, fuel) <= 2 && Chain(db.txs, id)
  {
    ChainEnds(db.txs, id, fuel);
  }

  // At most one successful reversal of any kind per operation, and its entry comes later.
  lemma ReversedOnceAndLater(db: Db, r1: Id, r2: Id)
    requires Inv(db) && r1 in db.txs && r2 in db.txs
    requires SuccessfulReversal(db.txs[r1]) && SuccessfulReversal(db.txs[r2])
    ensures db.txs[r1].refId == db.txs[r2].refId ==> r1 == r2
    ensures exists i: nat, j: nat :: EntryOf(db.ledger, i, r1) && EntryOf(db.ledger, j, db.txs[r1].refId.value) && j < i
  {
    assert RefOk(db.txs, db.txs[r1]) && ResultFrozen(db.txs, db.ledger, r1);
    var n: nat :| FrozenAt(db.txs, db.ledger, db.txs[r1], n);
    assert ReferenceBefore(db.txs, db.ledger, n - 1);
    var j: nat :| j < n - 1 && EntryOf(db.ledger, j, db.txs[r1].refId.value);
    assert EntryOf(db.ledger, n - 1, r1);
  }
}
