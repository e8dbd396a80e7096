// Package awssqs, consumer.go: what happens to a message after its handler ran, and why no
// message is lost between the queue and the inbox.
module Consumer {
  import opened Base
  import opened Store
  import opened Process
  import opened Resolve
  import opened Units
  import opened Replay
  import opened Messages
  import opened Effects

  // The main queue by receipt, and the dead-letter queue.
  datatype Queues = Queues(main: map<nat, Message>, dead: seq<Message>)

  // Errors that no redelivery can cure.
  predicate IsPoison(e: Error) {
    e == InvalidEnvelope || e == UnauthorizedProvider || e == InboxPayloadMismatch
  }

  // One message handled: deleted after success, copied to the dead-letter queue and then deleted
  // when poisonous, left for redelivery otherwise. `sent` and `deleted` say whether the two queue
  // calls took effect; a crash between the calls looks like one that did not.
  function Settle(q: Queues, receipt: nat, m: Message, outcome: Result<Option<TxResult>>, sent: bool, deleted: bool): Queues {
    if outcome.Ok? then (if deleted then q.(main := q.main - {receipt}) else q)
    else if !IsPoison(outcome.error) || !sent then q
    else Queues(if deleted then q.main - {receipt} else q.main, q.dead + [m])
  }

  class Client {
    var queues: Queues

    constructor (q: Queues)
      ensures queues == q
    {
      queues := q;
    }

    method Delete(receipt: nat, works: bool) returns (ok: bool)
      modifies this
      ensures ok == works && queues == if works then old(queues).(main := old(queues).main - {receipt}) else old(queues)
    {
      if works {
        queues := queues.(main := queues.main - {receipt});
      }
      ok := works;
    }

    method MoveToDeadLetters(m: Message, works: bool) returns (ok: bool)
      modifies this
      ensures ok == works && queues == if works then old(queues).(dead := old(queues).dead + [m]) else old(queues)
    {
      if works {
        queues := queues.(dead := queues.dead + [m]);
      }
      ok := works;
    }
  }

  method HandleOne(
    d: Database, client: Client, codec: Codec, ch: Channel, receipt: nat, m: Message, ids: Ids, now: Instant,
    sent: bool, deleted: bool)
    requires d.Valid()
    modifies d, client
    ensures d.Valid()
    ensures var (after, outcome) := HandleStep(old(d.committed), codec, ch, m, ids, now);
            d.committed == after && client.queues == Settle(old(client.queues), receipt, m, outcome, sent, deleted)
  {
    var outcome := d.Handle(codec, ch, m, ids, now);
    if outcome.Ok? {
      var done := client.Delete(receipt, deleted);
      return;
    }
    if IsPoison(outcome.error) {
      var moved := client.MoveToDeadLetters(m, sent);
      if !moved {
        return;
      }
      var done := client.Delete(receipt, deleted);
    }
  }

  // ----- runs

  datatype Event =
    | Arrive(receipt: nat, m: Message)
    | Consume(receipt: nat, ids: Ids, now: Instant, sent: bool, deleted: bool)
    | Elsewhere(op: Op)

  // `arrived` is the history of everything ever put on the queue.
  datatype World = World(db: Db, queues: Queues, arrived: map<nat, Message>)

  ghost function Happen(setup: Setup, w: World, e: Event): (after: World)
    requires Sound(w.db)
    ensures Sound(after.db)
  {
    match e
    case Arrive(receipt, m) =>
      if receipt in w.arrived then w
      else w.(queues := w.queues.(main := w.queues.main[receipt := m]), arrived := w.arrived[receipt := m])
    case Consume(receipt, ids, now, sent, deleted) =>
      if receipt !in w.queues.main then w
      else
        var m := w.queues.main[receipt];
        HandleSound(w.db, setup.codec, setup.channel, m, ids, now);
        var (db, outcome) := HandleStep(w.db, setup.codec, setup.channel, m, ids, now);
        w.(db := db, queues := Settle(w.queues, receipt, m, outcome, sent, deleted))
    case Elsewhere(op) => w.(db := Perform(setup, w.db, op))
  }

  ghost function Unfold(setup: Setup, w: World, events: seq<Event>): (after: World)
    requires Sound(w.db)
    ensures Sound(after.db)
    decreases |events|
  {
    if events == [] then w else Unfold(setup, Happen(setup, w, events[0]), events[1..])
  }

  // The inbox holds this very message, or the dead-letter queue holds a copy.
  predicate Accounted(setup: Setup, w: World, m: Message) {
    || m in w.queues.dead
    || InInbox(setup.codec, setup.channel, w.db, m)
  }

  // The inbox holds the id of this message for this consumer, with the hash of its command, which
  // comes from a provider on the list.
  predicate InInbox(codec: Codec, ch: Channel, db: Db, m: Message) {
    && Sealed(m) && Authorized(ch, m.data.value) && (ch.consumer, m.messageId) in db.inbox
    && db.inbox[(ch.consumer, m.messageId)] == PayloadHash(codec, m.data.value)
  }

  ghost predicate NothingLost(setup: Setup, w: World) {
    && (forall r | r in w.queues.main :: r in w.arrived && w.arrived[r] == w.queues.main[r])
    && (forall r | r in w.arrived :: r in w.queues.main || Accounted(setup, w, w.arrived[r]))
  }

  predicate InboxStays(a: Db, b: Db) {
    forall k | k in a.inbox :: k in b.inbox && b.inbox[k] == a.inbox[k]
  }

  lemma PlanKeepsInbox(db: Db, plan: Plan)
    ensures PlanExec(db, plan).db.inbox == db.inbox
  {
    if plan.Write? {
      RunKeepsInbox(db, plan.delta);
    }
  }

  // A handler that reports success has the delivery on record, with this payload.
  lemma HandledIsRecorded(db: Db, codec: Codec, ch: Channel, m: Message, ids: Ids, now: Instant)
    requires Sound(db)
    ensures var (after, outcome) := HandleStep(db, codec, ch, m, ids, now);
            && InboxStays(db, after)
            && (outcome.Ok? ==> InInbox(codec, ch, after, m))
  {
    if ParseEnvelope(ch, m).Ok? && Key(ch, m) !in db.inbox {
      var recorded := Record(db, Key(ch, m), PayloadHash(codec, m.data.value));
      PlanKeepsInbox(recorded, ExecutePlan(recorded, codec, m.data.value, ids, now));
    }
  }

  // A redelivery after the commit changes nothing and is deleted: at most one effect per id.
  lemma RedeliveryIsIdle(db: Db, codec: Codec, ch: Channel, m: Message, ids: Ids, now: Instant)
    requires Sound(db) && HandleStep(db, codec, ch, m, ids, now).1.Ok?
    ensures var after := HandleStep(db, codec, ch, m, ids, now).0;
            Sound(after) && forall ids': Ids, now': Instant :: HandleStep(after, codec, ch, m, ids', now') == (after, Ok(None))
  {
    HandledIsRecorded(db, codec, ch, m, ids, now);
    HandleSound(db, codec, ch, m, ids, now);
  }

  lemma OpeningKeepsInbox(db: Db, o: OpeningWrites)
    ensures RunOpening(db, o).db.inbox == db.inbox
  {
    if InsertTx(db, o.tx).Ok? && o.entry.Ok? && InsertEntry(InsertTx(db, o.tx).value, o.entry.value).Ok? {
      EventsKeepInbox(InsertEntry(InsertTx(db, o.tx).value, o.entry.value).value, o.events);
    }
  }

  lemma PerformKeepsInbox(setup: Setup, db: Db, op: Op)
    requires Sound(db)
    ensures InboxStays(db, Perform(setup, db, op))
  {
    match op
    case Submission(c, ids, now) => PlanKeepsInbox(db, ExecutePlan(db, setup.codec, c, ids, now));
    case Delivery(m, ids, now) => HandledIsRecorded(db, setup.codec, setup.channel, m, ids, now);
    case Round(ids, now) =>
      if Claimed(db.txs, now).Some? {
        PlanKeepsInbox(db, ResumeOn(db, Claimed(db.txs, now).value, setup.policy, ids, now));
      }
    case NewWallet(player, amount, currency, walletId, ids, now) =>
      var row := OpenRow(setup.codec, player, amount, currency, walletId, now);
      if row.Ok? && InsertWallet(db, row.value).Ok? && OpeningOf(row.value, ids).Ok? {
        OpeningKeepsInbox(InsertWallet(db, row.value).value, OpeningOf(row.value, ids).value);
      }
  }

  lemma HappenLosesNothing(setup: Setup, w: World, e: Event)
    requires Sound(w.db) && NothingLost(setup, w)
    ensures NothingLost(setup, Happen(setup, w, e))
  {
    match e
    case Arrive(_, _) =>
    case Consume(receipt, ids, now, _, _) =>
      if receipt in w.queues.main {
        HandledIsRecorded(w.db, setup.codec, setup.channel, w.queues.main[receipt], ids, now);
        assert InboxStays(w.db, Happen(setup, w, e).db);
      }
    case Elsewhere(op) => PerformKeepsInbox(setup, w.db, op);
  }

  // A message leaves the queue only after its own inbox row was committed or a copy reached the
  // dead-letter queue, over any run of arrivals, deliveries, redeliveries, failing queue calls,
  // crashes and other work on the tables.
  lemma {:induction false} NoMessageIsLost(setup: Setup, w: World, events: seq<Event>)
    requires Sound(w.db) && NothingLost(setup, w)
    ensures NothingLost(setup, Unfold(setup, w, events))
    decreases |events|
  {
    if events != [] {
      HappenLosesNothing(setup, w, events[0]);
      NoMessageIsLost(setup, Happen(setup, w, events[0]), events[1..]);
    }
  }

  // ----- only poison is dead-lettered

  // No redelivery can ever apply this message: it is malformed, has no id, the wrong type or no
  // command, its provider is not on the list, or its id is on record for other content.
  predicate Hopeless(setup: Setup, db: Db, m: Message) {
    || m.Malformed? || m.messageId == "" || !m.isWagerRequest || m.data.None?
    || m.data.value.provider !in setup.channel.allowed || m.data.value.provider == ""
    || ((setup.channel.consumer, m.messageId) in db.inbox
        && db.inbox[(setup.channel.consumer, m.messageId)] != PayloadHash(setup.codec, m.data.value))
  }

  predicate DeadAreHopeless(setup: Setup, w: World) {
    forall i | 0 <= i < |w.queues.dead| :: Hopeless(setup, w.db, w.queues.dead[i])
  }

  lemma PoisonIsHopeless(setup: Setup, db: Db, m: Message, ids: Ids, now: Instant)
    requires Sound(db)
    ensures var (after, outcome) := HandleStep(db, setup.codec, setup.channel, m, ids, now);
            outcome.Err? && outcome.error in {InvalidEnvelope, UnauthorizedProvider, InboxPayloadMismatch} <==> Hopeless(setup, db, m)
    ensures Hopeless(setup, db, m) ==> HandleStep(db, setup.codec, setup.channel, m, ids, now).0 == db
  {
  }

  // What becomes of a message on the queue. Success and a working delete: it is gone. Hopeless: a
  // copy is kept, if the copy works, and then it is gone, if the delete works. Otherwise it stays.
  lemma WhatBecomesOfIt(
    setup: Setup, db: Db, q: Queues, receipt: nat, m: Message, ids: Ids, now: Instant, sent: bool, deleted: bool)
    requires Sound(db) && receipt in q.main && q.main[receipt] == m
    ensures var outcome := HandleStep(db, setup.codec, setup.channel, m, ids, now).1;
            var after := Settle(q, receipt, m, outcome, sent, deleted);
            && (receipt !in after.main <==> deleted && (outcome.Ok? || (Hopeless(setup, db, m) && sent)))
            && (forall r | r != receipt :: r in after.main <==> r in q.main)
            && (forall r | r in after.main :: after.main[r] == q.main[r])
            && after.dead == if Hopeless(setup, db, m) && sent then q.dead + [m] else q.dead
  {
    PoisonIsHopeless(setup, db, m, ids, now);
  }

  lemma HappenKeepsDeadHopeless(setup: Setup, w: World, e: Event)
    requires Sound(w.db) && DeadAreHopeless(setup, w)
    ensures DeadAreHopeless(setup, Happen(setup, w, e))
  {
    match e
    case Arrive(_, _) =>
    case Consume(receipt, ids, now, _, _) =>
      if receipt in w.queues.main {
        PoisonIsHopeless(setup, w.db, w.queues.main[receipt], ids, now);
        HandledIsRecorded(w.db, setup.codec, setup.channel, w.queues.main[receipt], ids, now);
      }
    case Elsewhere(op) => PerformKeepsInbox(setup, w.db, op);
  }

  // Over any run the dead-letter queue holds only messages that could never have been applied.
  lemma {:induction false} OnlyHopelessAreDead(setup: Setup, w: World, events: seq<Event>)
    requires Sound(w.db) && DeadAreHopeless(setup, w)
    ensures DeadAreHopeless(setup, Unfold(setup, w, events))
    decreases |events|
  {
    if events != [] {
      HappenKeepsDeadHopeless(setup, w, events[0]);
      OnlyHopelessAreDead(setup, Happen(setup, w, events[0]), events[1..]);
    }
  }
}
