// The whole service: units of work commit events to the outbox, and publishers work on the very
// rows those commits insert.
module Composition {
  import opened Base
  import opened Store
  import opened Outbox
  import Invariant
  import Isolation
  import I = Interleaving
  import P = Publishing
  import Delivery

  datatype Service = Service(system: I.System, net: P.Net)

  datatype Move =
    | Work(unit: I.Step)
    | Publish(step: P.Step)

  function Init(site: I.Site, config: Config): Service {
    Service(I.Init(site), P.Init(config))
  }

  // The rows a commit inserts, one per event.
  ghost function Feed(net: P.Net, events: seq<Event>): (after: P.Net)
    requires Keyed(net.rows)
    ensures Keyed(after.rows)
    decreases |events|
  {
    if events == [] then net else Feed(P.Effect(net, P.Commit(events[0]), net.clock), events[1..])
  }

  // Publishers append nothing; only commits do.
  ghost function Next(s: Service, move: Move): (after: Service)
    requires Keyed(s.net.rows)
    ensures Keyed(after.net.rows)
  {
    match move
    case Work(unit) =>
      if !I.Enabled(s.system, unit) then s
      else
        var system := I.Next(s.system, unit);
        if |s.system.db.outbox| <= |system.db.outbox|
        then Service(system, Feed(s.net, system.db.outbox[|s.system.db.outbox|..]))
        else s.(system := system)
    case Publish(step) => if step.act.Commit? then s else s.(net := P.Next(s.net, step))
  }

  ghost function Run(s: Service, moves: seq<Move>): (after: Service)
    requires Keyed(s.net.rows)
    ensures Keyed(after.net.rows)
    decreases |moves|
  {
    if moves == [] then s else Run(Next(s, moves[0]), moves[1..])
  }

  // The publishers' rows are exactly the committed events.
  ghost predicate Matched(outbox: seq<Event>, rows: Rows) {
    && (forall i | 0 <= i < |outbox| :: P.OnRecord(rows, outbox[i]))
    && (forall id | id in rows :: rows[id].event in outbox)
  }

  ghost predicate ServiceOk(s: Service) {
    Invariant.Inv(s.system.db) && Isolation.UnitsOk(s.system) && P.Safe(s.net) && Matched(s.system.db.outbox, s.net.rows)
  }

  lemma {:induction false} FeedMatches(outbox: seq<Event>, net: P.Net, events: seq<Event>)
    requires P.Safe(net) && Matched(outbox, net.rows) && OutboxSound(outbox + events)
    ensures P.Safe(Feed(net, events)) && Matched(outbox + events, Feed(net, events).rows) && P.Grows(net, Feed(net, events))
    decreases |events|
  {
    if events == [] {
      assert outbox + events == outbox;
    } else {
      var e := events[0];
      assert outbox + events == (outbox + [e]) + events[1..];
      assert (outbox + events)[|outbox|] == e;
      forall id | id in net.rows ensures id != e.id {
        var i :| 0 <= i < |outbox| && outbox[i] == net.rows[id].event;
        assert (outbox + events)[i] == outbox[i];
      }
      var next := P.Effect(net, P.Commit(e), net.clock);
      assert P.Grows(net, next);
      P.RowsSafe(net, next);
      assert Matched(outbox + [e], next.rows);
      FeedMatches(outbox + [e], next, events[1..]);
    }
  }

  // A publisher's step neither adds nor removes rows.
  lemma PublishMatches(outbox: seq<Event>, net: P.Net, step: P.Step)
    requires P.Safe(net) && Matched(outbox, net.rows) && !step.act.Commit?
    ensures P.Safe(P.Next(net, step)) && Matched(outbox, P.Next(net, step).rows) && P.Grows(net, P.Next(net, step))
  {
    P.StepSafe(net, step);
    assert P.Next(net, step).rows.Keys == net.rows.Keys;
  }

  lemma CommitFeeds(before: seq<Event>, net: P.Net, after: seq<Event>)
    requires P.Safe(net) && Matched(before, net.rows) && before <= after && OutboxSound(after)
    ensures var fed := Feed(net, after[|before|..]); P.Safe(fed) && Matched(after, fed.rows) && P.Grows(net, fed)
  {
    assert after == before + after[|before|..];
    FeedMatches(before, net, after[|before|..]);
  }

  lemma NextOk(s: Service, move: Move)
    requires ServiceOk(s)
    ensures ServiceOk(Next(s, move)) && P.Grows(s.net, Next(s, move).net)
    ensures Isolation.Grows(s.system.db, Next(s, move).system.db)
  {
    match move
    case Work(unit) =>
      if I.Enabled(s.system, unit) {
        Isolation.StepOk(s.system, unit);
        CommitFeeds(s.system.db.outbox, s.net, I.Next(s.system, unit).db.outbox);
      }
    case Publish(step) =>
      if !step.act.Commit? {
        PublishMatches(s.system.db.outbox, s.net, step);
      }
  }

  lemma {:induction false} ServiceRunOk(s: Service, moves: seq<Move>)
    requires ServiceOk(s)
    ensures ServiceOk(Run(s, moves)) && P.Grows(s.net, Run(s, moves).net)
    decreases |moves|
  {
    if moves != [] {
      NextOk(s, moves[0]);
      ServiceRunOk(Next(s, moves[0]), moves[1..]);
    }
  }

  ghost predicate Reachable(s: Service) {
    exists site: I.Site, config: Config, moves: seq<Move> :: s == Run(Init(site, config), moves)
  }

  // In every reachable state of the service: whatever was sent is a committed event, unchanged;
  // every committed event has its row; and one marked published was sent.
  lemma OnlyCommittedEventsAreSent(s: Service)
    requires Reachable(s)
    ensures forall e | e in s.net.sent :: e in s.system.db.outbox
    ensures forall e | e in s.system.db.outbox ::
              P.OnRecord(s.net.rows, e) && (s.net.rows[e.id].publishedAt.Some? ==> e in s.net.sent)
  {
    ReachableServiceOk(s);
    forall e | e in s.net.sent ensures e in s.system.db.outbox {
      var i :| 0 <= i < |s.net.sent| && s.net.sent[i] == e;
      assert P.OnRecord(s.net.rows, s.net.sent[i]);
    }
  }

  lemma ReachableServiceOk(s: Service)
    requires Reachable(s)
    ensures ServiceOk(s)
  {
    var site: I.Site, config: Config, moves: seq<Move> :| s == Run(Init(site, config), moves);
    Invariant.EmptyIsInv();
    ServiceRunOk(Init(site, config), moves);
  }

  // And no committed event is ever stuck: any idle publisher can still send and mark it.
  lemma EveryCommittedEventCanBeSent(s: Service, e: Event, owner: string)
    requires Reachable(s) && e in s.system.db.outbox && owner !in s.net.workers && s.net.config.batchSize >= 1
    ensures e in s.net.sent
            || exists steps: seq<P.Step>, now: Instant ::
                 now >= s.net.clock && Delivery.Paced(steps, owner, now)
                 && Delivery.Marked(P.Run(s.net, steps).rows, e.id) && e in P.Run(s.net, steps).sent
  {
    ReachableServiceOk(s);
    assert P.OnRecord(s.net.rows, e);
    if s.net.rows[e.id].publishedAt.None? {
      Delivery.NeverStuck(s.net, owner, e.id);
    }
  }
}
