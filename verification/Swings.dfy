// What an operation can do to balances, whatever the tables hold and whatever identifiers are
// drawn: told from the text of the command alone.
module Swings {
  import opened Base
  import opened MoneyModel
  import opened Wagering
  import opened Wallets
  import opened Store
  import opened Process
  import opened Resolve
  import opened Units
  import opened Texts
  import opened Effects

  // A bet takes its amount, a win and a refund give it, a rollback does either, nothing else
  // moves a balance.
  predicate MayChange(kind: string, minor: int, change: int) {
    || (kind == "BET" && change == -minor)
    || (kind in {"WIN", "REFUND"} && change == minor)
    || (kind == "ROLLBACK" && (change == minor || change == -minor))
  }

  // No wallet changed but this one, if any, and this one by one operation of that kind and amount.
  predicate Swung(a: map<Id, WalletRow>, b: map<Id, WalletRow>, walletId: Id, kind: string, minor: int) {
    || b == a
    || (&& walletId in a && walletId in b
        && b == a[walletId := a[walletId].(balance := b[walletId].balance, version := a[walletId].version + 1,
                                           updatedAt := b[walletId].updatedAt)]
        && MayChange(kind, minor, b[walletId].balance as int - a[walletId].balance as int))
  }

  // The wallet row a decision writes is the locked one after such an operation.
  predicate RowSwings(plan: Plan, w: WalletRow, kind: string, minor: int) {
    plan.Write? && plan.delta.move.Some? ==>
      var row := plan.delta.move.value.wallet;
      && row == w.(balance := row.balance, version := w.version + 1, updatedAt := row.updatedAt)
      && MayChange(kind, minor, row.balance as int - w.balance as int)
  }

  lemma MoveSwings(create: bool, t: Tx, w: WalletRow, direction: Direction, amount: Money, ids: Ids, now: Instant)
    requires w.balance >= 0
    ensures var plan := MovePlan(create, t, w, direction, amount, ids, now);
            plan.Write? && plan.delta.move.Some? ==>
              var row := plan.delta.move.value.wallet;
              && row == w.(balance := row.balance, version := w.version + 1, updatedAt := row.updatedAt)
              && row.balance as int - w.balance as int
                 == if direction == Credit then amount.minor as int else -(amount.minor as int)
  {
  }

  lemma ReversalSwings(t: Tx, w: WalletRow, req: Request, view: View, ids: Ids, now: Instant)
    requires w.balance >= 0 && req.kind in {Refund, Rollback} && req.cmd.kind == KindName(req.kind)
    ensures RowSwings(ReversalPlan(t, w, req, view, ids, now), w, req.cmd.kind, req.amount.minor as int)
  {
    if view.reference.Some? && ResolveReference(t, view.reference.value.info.id, now).Ok? {
      var reference := view.reference.value;
      MoveSwings(true, ResolveReference(t, reference.info.id, now).value, w, ReversalDirection(reference.info.kind), req.amount, ids, now);
    }
  }

  lemma ApplySwings(req: Request, w: WalletRow, view: View, ids: Ids, now: Instant)
    requires w.balance >= 0 && req.kind != Opening && req.cmd.kind == KindName(req.kind)
    ensures RowSwings(ApplyPlan(req, w, view, ids, now), w, req.cmd.kind, req.amount.minor as int)
  {
    var created := NewExternal(InfoFor(req, ids.tx, now));
    if created.Ok? {
      if IsReversal(req.kind) {
        ReversalSwings(created.value, w, req, view, ids, now);
      } else {
        MoveSwings(true, created.value, w, if req.kind == Bet then Debit else Credit, req.amount, ids, now);
      }
    }
  }

  lemma ResumeSwings(p: Tx, w: WalletRow, view: View, policy: Policy, ids: Ids, now: Instant)
    requires w.balance >= 0 && p.info.kind in {Refund, Rollback}
    ensures RowSwings(ResumePlan(p, w, view, policy, ids, now), w, KindName(p.info.kind), p.info.amount.minor as int)
  {
    if view.reference.Some? && ResolveReference(p, view.reference.value.info.id, now).Ok? {
      var reference := view.reference.value;
      MoveSwings(false, ResolveReference(p, reference.info.id, now).value, w, ReversalDirection(reference.info.kind),
                 p.info.amount, ids, now);
    }
  }

  lemma {:induction false} EventsKeepWallets(db: Db, events: seq<Event>)
    ensures RunEvents(db, events).db.wallets == db.wallets
    decreases |events|
  {
    if events != [] && events[0].id != 0 && InsertEvent(db, events[0]).Ok? {
      EventsKeepWallets(InsertEvent(db, events[0]).value, events[1..]);
    }
  }

  // Whether it goes through or stops somewhere, a run moves the wallet it was told to or none.
  lemma RunSwings(db: Db, plan: Plan, w: WalletRow, kind: string, minor: int)
    requires w.id in db.wallets && db.wallets[w.id] == w && RowSwings(plan, w, kind, minor)
    ensures Swung(db.wallets, PlanExec(db, plan).db.wallets, w.id, kind, minor)
  {
    if plan.Write? {
      var d := plan.delta;
      var first := if d.create then InsertTx(db, d.tx) else UpdateTx(db, d.tx);
      if first.Ok? {
        match d.move
        case None => EventsKeepWallets(first.value, d.events);
        case Some(m) => EventsKeepWallets(RunMove(first.value, m).db, d.events);
      }
    }
  }

  lemma RequestSwings(db: Db, req: Request, ids: Ids, now: Instant)
    requires Sound(db) && req.kind != Opening && req.cmd.kind == KindName(req.kind)
    ensures Swung(db.wallets, PlanExec(db, RequestPlan(db, req, ids, now)).db.wallets, req.walletId, req.cmd.kind, req.amount.minor as int)
  {
    if req.walletId in db.wallets && ReplayPlan(db.txs, req).None? {
      var w := db.wallets[req.walletId];
      ApplySwings(req, w, ViewOf(db, req.cmd.provider, req.cmd.refExternal), ids, now);
      RunSwings(db, RequestPlan(db, req, ids, now), w, req.cmd.kind, req.amount.minor as int);
    }
  }

  // A submission over HTTP, in any state of the tables: a bet never raises a balance, a win or a
  // refund never lowers one, a loss leaves them all alone.
  lemma ExecuteSwings(db: Db, codec: Codec, c: Command, req: Request, ids: Ids, now: Instant)
    requires Sound(db) && Denotes(codec, c, req)
    ensures Swung(db.wallets, ExecuteStep(db, codec, c, ids, now).0.wallets, req.walletId, c.kind, req.amount.minor as int)
  {
    DenotedParses(codec, c, req);
    RequestSwings(db, req, ids, now);
  }

  // And one by a delivery, even one that a failing generator cuts short.
  lemma HandleSwings(db: Db, codec: Codec, ch: Channel, m: Message, req: Request, ids: Ids, now: Instant)
    requires Sound(db) && Sealed(m) && Denotes(codec, m.data.value, req)
    ensures Swung(db.wallets, HandleStep(db, codec, ch, m, ids, now).0.wallets, req.walletId, m.data.value.kind, req.amount.minor as int)
  {
    if Authorized(ch, m.data.value) && Key(ch, m) !in db.inbox {
      DenotedParses(codec, m.data.value, req);
      NewDelivery(db, codec, ch, m, req, ids, now);
      RequestSwings(Record(db, Key(ch, m), req.hash), req, ids, now);
    }
  }

  // A command whose text denotes no request moves nothing and stores nothing.
  lemma MeaninglessIsIdle(db: Db, codec: Codec, ch: Channel, m: Message, ids: Ids, now: Instant)
    requires Sound(db) && Sealed(m) && forall req: Request :: !Denotes(codec, m.data.value, req)
    ensures ExecuteStep(db, codec, m.data.value, ids, now).0 == db && ExecuteStep(db, codec, m.data.value, ids, now).1.Err?
    ensures var after := HandleStep(db, codec, ch, m, ids, now).0; after.(inbox := db.inbox) == db
  {
    if Parse(codec, m.data.value).Ok? {
      ParsedIsDenoted(codec, m.data.value);
    }
  }
}
