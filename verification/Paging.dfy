// Reading a wallet's ledger page by page (repository/ledger.go), while entries keep arriving.
module Paging {
  import opened Base
  import opened Store

  datatype Cursor = Cursor(createdAt: Instant, id: Id)

  function CursorOf(e: Entry): Cursor {
    Cursor(e.createdAt, e.id)
  }

  predicate Less(a: Cursor, b: Cursor) {
    a.createdAt < b.createdAt || (a.createdAt == b.createdAt && a.id < b.id)
  }

  predicate Matches(e: Entry, w: Id, after: Option<Cursor>) {
    e.walletId == w && (after.Some? ==> Less(after.value, CursorOf(e)))
  }

  // The primary key.
  predicate UniqueIds(L: seq<Entry>) {
    forall i, j | 0 <= i < j < |L| :: L[i].id != L[j].id
  }

  // The row the query yields next: the smallest one past the cursor.
  predicate FirstAfter(L: seq<Entry>, w: Id, after: Option<Cursor>, e: Entry) {
    e in L && Matches(e, w, after) && forall o | o in L && o != e :: Matches(o, w, after) ==> Less(CursorOf(e), CursorOf(o))
  }

  // The query: at most n matching rows in (created_at, id) order.
  ghost function Query(L: seq<Entry>, w: Id, after: Option<Cursor>, n: nat): seq<Entry>
    decreases n
  {
    if n == 0 then []
    else if e :| FirstAfter(L, w, after, e) then [e] + Query(L, w, Some(CursorOf(e)), n - 1)
    else []
  }

  datatype Page = Page(entries: seq<Entry>, next: Option<Cursor>)

  // One row past the limit tells whether there is a next page.
  ghost function PageOf(L: seq<Entry>, w: Id, after: Option<Cursor>, limit: nat): Page
    requires limit > 0
  {
    var rows := Query(L, w, after, limit + 1);
    if |rows| > limit then Page(rows[..limit], Some(CursorOf(rows[limit - 1]))) else Page(rows, None)
  }

  lemma FirstIsUnique(L: seq<Entry>, w: Id, after: Option<Cursor>, a: Entry, b: Entry)
    requires FirstAfter(L, w, after, a) && FirstAfter(L, w, after, b)
    ensures a == b
  {
  }

  lemma {:induction false} FirstExists(L: seq<Entry>, w: Id, after: Option<Cursor>, e: Entry)
    requires UniqueIds(L) && e in L && Matches(e, w, after)
    ensures exists first :: FirstAfter(L, w, after, first)
    decreases |L|
  {
    var last, rest := L[|L| - 1], L[..|L| - 1];
    if o :| o in rest && Matches(o, w, after) {
      FirstExists(rest, w, after, o);
      var best :| FirstAfter(rest, w, after, best);
      var first := if Matches(last, w, after) && Less(CursorOf(last), CursorOf(best)) then last else best;
      assert forall x | x in L :: x == last || x in rest;
      assert FirstAfter(L, w, after, first);
    } else {
      assert forall x | x in L :: x == last || x in rest;
      assert FirstAfter(L, w, after, last);
    }
  }

  method ReadRows(L: seq<Entry>, w: Id, after: Option<Cursor>, n: nat) returns (entries: seq<Entry>)
    ensures entries == Query(L, w, after, n)
  {
    var position: Option<Cursor> := after;
    entries := [];
    while |entries| < n
      invariant |entries| <= n
      invariant entries + Query(L, w, position, n - |entries|) == Query(L, w, after, n)
    {
      if e :| e in L && FirstAfter(L, w, position, e) {
        forall other | FirstAfter(L, w, position, other) ensures other == e {
          FirstIsUnique(L, w, position, e, other);
        }
        entries, position := entries + [e], Some(CursorOf(e));
      } else {
        return;
      }
    }
  }

  method ListByWallet(L: seq<Entry>, w: Id, after: Option<Cursor>, limit: int) returns (r: Result<Page>)
    ensures if limit <= 0 then r == Err(NotFound) else r == Ok(PageOf(L, w, after, limit))
  {
    if limit <= 0 {
      return Err(NotFound);
    }
    var entries := ReadRows(L, w, after, limit + 1);
    if |entries| > limit {
      var last := entries[limit - 1];
      return Ok(Page(entries[..limit], Some(CursorOf(last))));
    }
    r := Ok(Page(entries, None));
  }

  // ----- one page

  predicate Increasing(rows: seq<Entry>) {
    forall i, j | 0 <= i < j < |rows| :: Less(CursorOf(rows[i]), CursorOf(rows[j]))
  }

  predicate AllMatch(rows: seq<Entry>, L: seq<Entry>, w: Id, after: Option<Cursor>) {
    forall i | 0 <= i < |rows| :: rows[i] in L && Matches(rows[i], w, after)
  }

  // At most n matching rows in order; whatever else matches comes after a full result.
  predicate FirstRows(rows: seq<Entry>, L: seq<Entry>, w: Id, after: Option<Cursor>, n: nat) {
    && |rows| <= n && Increasing(rows) && AllMatch(rows, L, w, after)
    && (forall o | o in L && Matches(o, w, after) && o !in rows ::
          |rows| == n && forall i | 0 <= i < |rows| :: Less(CursorOf(rows[i]), CursorOf(o)))
  }

  lemma OneMoreRow(L: seq<Entry>, w: Id, after: Option<Cursor>, e: Entry, rest: seq<Entry>, n: nat)
    requires FirstAfter(L, w, after, e) && FirstRows(rest, L, w, Some(CursorOf(e)), n)
    ensures FirstRows([e] + rest, L, w, after, n + 1)
  {
  }

  lemma {:induction false} QueryInOrder(L: seq<Entry>, w: Id, after: Option<Cursor>, n: nat)
    requires UniqueIds(L)
    ensures FirstRows(Query(L, w, after, n), L, w, after, n)
    decreases n
  {
    if n > 0 && exists e :: FirstAfter(L, w, after, e) {
      var rows := Query(L, w, after, n);
      var e := rows[0];
      QueryInOrder(L, w, Some(CursorOf(e)), n - 1);
      OneMoreRow(L, w, after, e, Query(L, w, Some(CursorOf(e)), n - 1), n - 1);
    } else if n > 0 {
      forall o | o in L ensures !Matches(o, w, after) {
        if Matches(o, w, after) {
          FirstExists(L, w, after, o);
        }
      }
    }
  }

  // A page is in order and past its cursor; whatever else is past the cursor comes after the
  // page's own next cursor, and nothing does on the last page.
  lemma PageInOrder(L: seq<Entry>, w: Id, after: Option<Cursor>, limit: nat)
    requires UniqueIds(L) && limit > 0
    ensures var page := PageOf(L, w, after, limit);
            && Increasing(page.entries) && AllMatch(page.entries, L, w, after)
            && (forall o | o in L && Matches(o, w, after) :: o in page.entries || (page.next.Some? && Matches(o, w, page.next)))
            && (page.next.Some? ==> page.entries != [] && page.next.value == CursorOf(page.entries[|page.entries| - 1]))
  {
    QueryInOrder(L, w, after, limit + 1);
    var rows := Query(L, w, after, limit + 1);
    if |rows| > limit {
      forall o | o in L && Matches(o, w, after) && o !in rows[..limit] ensures Matches(o, w, Some(CursorOf(rows[limit - 1]))) {
        assert o in rows ==> o == rows[limit];
      }
    }
  }

  // The same told on created_at and id: a page holds at most `limit` entries of the wallet past the
  // cursor, in order, and exactly `limit` if there is a next one; every entry it leaves out comes
  // after its last.
  lemma PageExactly(L: seq<Entry>, w: Id, after: Option<Cursor>, limit: nat)
    requires UniqueIds(L) && limit > 0
    ensures var page := PageOf(L, w, after, limit);
            && |page.entries| <= limit && (page.next.Some? ==> |page.entries| == limit)
            && (forall i, j | 0 <= i < j < |page.entries| ::
                  page.entries[i].createdAt < page.entries[j].createdAt
                  || (page.entries[i].createdAt == page.entries[j].createdAt && page.entries[i].id < page.entries[j].id))
            && (forall i | 0 <= i < |page.entries| ::
                  page.entries[i] in L && page.entries[i].walletId == w
                  && (after.Some? ==>
                        page.entries[i].createdAt > after.value.createdAt
                        || (page.entries[i].createdAt == after.value.createdAt && page.entries[i].id > after.value.id)))
            && (forall o | o in L && o.walletId == w && o !in page.entries
                           && (after.Some? ==> o.createdAt > after.value.createdAt
                                               || (o.createdAt == after.value.createdAt && o.id > after.value.id)) ::
                  page.next.Some?
                  && var last := page.entries[limit - 1];
                     o.createdAt > last.createdAt || (o.createdAt == last.createdAt && o.id > last.id))
            && (page.next.Some? ==>
                  page.next.value == Cursor(page.entries[limit - 1].createdAt, page.entries[limit - 1].id)
                  && exists o :: o in L && o.walletId == w && o !in page.entries)
  {
    PageInOrder(L, w, after, limit);
    QueryInOrder(L, w, after, limit + 1);
    var rows, page := Query(L, w, after, limit + 1), PageOf(L, w, after, limit);
    assert forall i | 0 <= i < |page.entries| :: Matches(page.entries[i], w, after);
    if |rows| > limit {
      assert rows[limit] in L && rows[limit].walletId == w && rows[limit] !in rows[..limit];
    }
  }

  // ----- walking the pages

  // The ledger as one page request finds it, and the limit asked for.
  datatype Visit = Visit(ledger: seq<Entry>, limit: nat)

  datatype Walked = Walked(entries: seq<Entry>, done: bool)

  ghost function Walk(w: Id, after: Option<Cursor>, visits: seq<Visit>): Walked
    requires forall i | 0 <= i < |visits| :: visits[i].limit > 0
    decreases |visits|
  {
    if visits == [] then Walked([], false)
    else
      var page := PageOf(visits[0].ledger, w, after, visits[0].limit);
      if page.next.None? then Walked(page.entries, true)
      else
        var rest := Walk(w, page.next, visits[1..]);
        Walked(page.entries + rest.entries, rest.done)
  }

  // Entries are only ever appended between page requests.
  predicate Visits(visits: seq<Visit>) {
    && (forall i | 0 <= i < |visits| :: visits[i].limit > 0 && UniqueIds(visits[i].ledger))
    && (forall i, j | 0 <= i < j < |visits| :: visits[i].ledger <= visits[j].ledger)
  }

  predicate Covers(entries: seq<Entry>, L: seq<Entry>, w: Id, after: Option<Cursor>) {
    forall o | o in L && Matches(o, w, after) :: o in entries
  }

  lemma JoinPages(a: seq<Entry>, b: seq<Entry>, w: Id, after: Option<Cursor>)
    requires Increasing(a) && Increasing(b) && a != []
    requires forall i | 0 <= i < |b| :: Matches(b[i], w, Some(CursorOf(a[|a| - 1])))
    ensures Increasing(a + b)
  {
  }

  predicate Ordered(rows: seq<Entry>, w: Id, after: Option<Cursor>) {
    Increasing(rows) && forall i | 0 <= i < |rows| :: Matches(rows[i], w, after)
  }

  lemma {:induction false} WalkInOrder(w: Id, after: Option<Cursor>, visits: seq<Visit>)
    requires Visits(visits)
    ensures Ordered(Walk(w, after, visits).entries, w, after)
    decreases |visits|
  {
    if visits != [] {
      var page := PageOf(visits[0].ledger, w, after, visits[0].limit);
      PageInOrder(visits[0].ledger, w, after, visits[0].limit);
      if page.next.Some? {
        WalkInOrder(w, page.next, visits[1..]);
        JoinPages(page.entries, Walk(w, page.next, visits[1..]).entries, w, after);
      }
    }
  }

  lemma {:induction false} WalkFromLedger(w: Id, after: Option<Cursor>, visits: seq<Visit>, L: seq<Entry>)
    requires Visits(visits) && forall i | 0 <= i < |visits| :: visits[i].ledger <= L
    ensures forall e | e in Walk(w, after, visits).entries :: e in L
    decreases |visits|
  {
    if visits != [] {
      var page := PageOf(visits[0].ledger, w, after, visits[0].limit);
      PageInOrder(visits[0].ledger, w, after, visits[0].limit);
      assert visits[0].ledger <= L;
      if page.next.Some? {
        WalkFromLedger(w, page.next, visits[1..], L);
      }
    }
  }

  lemma {:induction false} WalkCovers(w: Id, after: Option<Cursor>, visits: seq<Visit>, L: seq<Entry>)
    requires Visits(visits) && Walk(w, after, visits).done && forall i | 0 <= i < |visits| :: L <= visits[i].ledger
    ensures Covers(Walk(w, after, visits).entries, L, w, after)
    decreases |visits|
  {
    var page := PageOf(visits[0].ledger, w, after, visits[0].limit);
    PageInOrder(visits[0].ledger, w, after, visits[0].limit);
    assert L <= visits[0].ledger;
    if page.next.Some? {
      WalkCovers(w, page.next, visits[1..], L);
    }
  }

  // Following the cursor while entries keep arriving, with any limits: what is returned is
  // strictly increasing, so nothing repeats; it comes from the ledger; and a walk that reaches
  // the end has returned every entry that was there when it began.
  lemma WalkWithAppends(w: Id, after: Option<Cursor>, visits: seq<Visit>)
    requires Visits(visits) && visits != []
    ensures var walked := Walk(w, after, visits);
            && Ordered(walked.entries, w, after)
            && (forall e | e in walked.entries :: e in visits[|visits| - 1].ledger)
            && (walked.done ==> Covers(walked.entries, visits[0].ledger, w, after))
  {
    WalkInOrder(w, after, visits);
    WalkFromLedger(w, after, visits, visits[|visits| - 1].ledger);
    if Walk(w, after, visits).done {
      WalkCovers(w, after, visits, visits[0].ledger);
    }
  }

  ghost function Rest(L: seq<Entry>, w: Id, after: Option<Cursor>): set<Entry> {
    set e | e in L && Matches(e, w, after)
  }

  // Over a fixed ledger the walk ends, within one request per remaining entry and one more.
  lemma {:induction false} WalkEnds(w: Id, after: Option<Cursor>, visits: seq<Visit>, L: seq<Entry>)
    requires Visits(visits) && forall i | 0 <= i < |visits| :: visits[i].ledger == L
    requires |visits| > |Rest(L, w, after)|
    ensures Walk(w, after, visits).done
    decreases |visits|
  {
    var page := PageOf(L, w, after, visits[0].limit);
    PageInOrder(L, w, after, visits[0].limit);
    if page.next.Some? {
      var last := page.entries[|page.entries| - 1];
      assert last in Rest(L, w, after) && last !in Rest(L, w, page.next);
      assert Rest(L, w, page.next) <= Rest(L, w, after) - {last};
      FewerLeft(Rest(L, w, page.next), Rest(L, w, after), last);
      WalkEnds(w, page.next, visits[1..], L);
    }
  }

  lemma FewerLeft(a: set<Entry>, b: set<Entry>, e: Entry)
    requires a <= b - {e} && e in b
    ensures |a| < |b|
  {
    Subset(a, b - {e});
  }

  lemma {:induction false} Subset(a: set<Entry>, b: set<Entry>)
    requires a <= b
    ensures |a| <= |b|
    decreases b
  {
    if x :| x in a {
      Subset(a - {x}, b - {x});
    }
  }

  // So it returns every entry of the wallet exactly once, in (created_at, id) order, and no other.
  lemma WalkIsExact(w: Id, visits: seq<Visit>, L: seq<Entry>)
    requires Visits(visits) && forall i | 0 <= i < |visits| :: visits[i].ledger == L
    requires |visits| > |Rest(L, w, None)|
    ensures var walked := Walk(w, None, visits);
            && walked.done && Increasing(walked.entries)
            && (forall e :: e in walked.entries <==> e in L && e.walletId == w)
            && (forall i, j | 0 <= i < j < |walked.entries| :: walked.entries[i] != walked.entries[j])
  {
    WalkEnds(w, None, visits, L);
    WalkWithAppends(w, None, visits);
  }
}
