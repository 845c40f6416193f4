/**
  `EventFeed.subscribe`: tails a log whose ids are taken at insert but become
  visible at commit, so a lower id may show up after a higher one was read.
*/
module EventFeed {
  import opened Base
  import opened Json

  const BATCH := 200
  const LOOK_BACK_MS := 5000

  datatype Event = Event(id: nat, instance: nat, createdAt: int, payload: Json)

  /** What one subscription keeps; `delivered` is everything it yielded so far. */
  datatype Feed = Feed(floor: nat, scope: Option<nat>, cursor: nat, recent: map<nat, int>, delivered: seq<Event>)

  /** One poll: the clock, and the rows its two queries could see, in id order. */
  datatype Poll = Poll(now: int, lateView: seq<Event>, freshView: seq<Event>)

  function Open(floor: nat, scope: Option<nat>): Feed
  {
    Feed(floor, scope, floor, map[], [])
  }

  predicate InOrder(rows: seq<Event>)
  {
    forall i, j :: 0 <= i < j < |rows| ==> rows[i].id < rows[j].id
  }

  predicate InScope(scope: Option<nat>, row: Event)
  {
    scope.None? || row.instance == scope.value
  }

  /** A query's WHERE clause; `since` is absent for the query of fresh rows. */
  datatype Query = Query(scope: Option<nat>, above: nat, upTo: Option<nat>, since: Option<int>)

  predicate Matches(q: Query, row: Event)
  {
    && InScope(q.scope, row) && q.above < row.id
    && (q.upTo.Some? ==> row.id <= q.upTo.value)
    && (q.since.Some? ==> q.since.value <= row.createdAt)
  }

  /** `findMany` over a table read in id order. */
  function Find(rows: seq<Event>, q: Query): seq<Event>
  {
    if rows == [] then []
    else Find(rows[..|rows| - 1], q) + (if Matches(q, rows[|rows| - 1]) then [rows[|rows| - 1]] else [])
  }

  /** The rows whose id is not among the given ones. */
  function Unseen(rows: seq<Event>, recent: map<nat, int>): seq<Event>
  {
    if rows == [] then []
    else Unseen(rows[..|rows| - 1], recent) + (if rows[|rows| - 1].id in recent then [] else [rows[|rows| - 1]])
  }

  lemma InitInOrder(rows: seq<Event>)
    requires rows != [] && InOrder(rows)
    ensures var init := rows[..|rows| - 1]; InOrder(init) && (forall x :: x in init ==> x.id < rows[|rows| - 1].id)
  {
  }

  lemma InitMembers(rows: seq<Event>)
    requires rows != []
    ensures forall x :: x in rows <==> x in rows[..|rows| - 1] || x == rows[|rows| - 1]
  {
    assert rows == rows[..|rows| - 1] + [rows[|rows| - 1]];
  }

  lemma OneMoreInOrder(rows: seq<Event>, last: Event)
    requires InOrder(rows) && forall x :: x in rows ==> x.id < last.id
    ensures InOrder(rows + [last])
  {
  }

  lemma {:induction false} Found(rows: seq<Event>, q: Query)
    ensures forall x :: x in Find(rows, q) <==> x in rows && Matches(q, x)
  {
    if rows != [] {
      Found(rows[..|rows| - 1], q);
      InitMembers(rows);
    }
  }

  lemma {:induction false} FoundInOrder(rows: seq<Event>, q: Query)
    requires InOrder(rows)
    ensures InOrder(Find(rows, q))
  {
    if rows != [] {
      var init, last := rows[..|rows| - 1], rows[|rows| - 1];
      InitInOrder(rows);
      FoundInOrder(init, q);
      Found(init, q);
      OneMoreInOrder(Find(init, q), last);
    }
  }

  lemma {:induction false} UnseenRows(rows: seq<Event>, recent: map<nat, int>)
    ensures forall x :: x in Unseen(rows, recent) <==> x in rows && x.id !in recent
  {
    if rows != [] {
      UnseenRows(rows[..|rows| - 1], recent);
      InitMembers(rows);
    }
  }

  lemma {:induction false} UnseenInOrder(rows: seq<Event>, recent: map<nat, int>)
    requires InOrder(rows)
    ensures InOrder(Unseen(rows, recent))
  {
    if rows != [] {
      var init, last := rows[..|rows| - 1], rows[|rows| - 1];
      InitInOrder(rows);
      UnseenInOrder(init, recent);
      UnseenRows(init, recent);
      OneMoreInOrder(Unseen(init, recent), last);
    }
  }

  function Since(p: Poll): int { p.now - LOOK_BACK_MS }

  function Late(f: Feed, p: Poll): seq<Event>
  {
    Find(p.lateView, Query(f.scope, f.floor, Some(f.cursor), Some(Since(p))))
  }

  /** `take`: a query returns at most this many rows, the oldest. */
  function FirstBatch(rows: seq<Event>): seq<Event>
  {
    if |rows| <= BATCH then rows else rows[..BATCH]
  }

  function Fresh(f: Feed, p: Poll): seq<Event>
  {
    FirstBatch(Find(p.freshView, Query(f.scope, f.cursor, None, None)))
  }

  /** What the poll yields: late rows not delivered yet, then fresh ones. */
  function Yields(f: Feed, p: Poll): seq<Event>
  {
    Unseen(Late(f, p), f.recent) + Fresh(f, p)
  }

  function CursorAfter(f: Feed, p: Poll): nat
  {
    var newer := Fresh(f, p);
    if newer == [] then f.cursor else newer[|newer| - 1].id
  }

  /** Ids worth remembering: those the look-back window can still return. */
  function Remember(recent: map<nat, int>, rows: seq<Event>): map<nat, int>
  {
    if rows == [] then recent
    else Remember(recent, rows[..|rows| - 1])[rows[|rows| - 1].id := rows[|rows| - 1].createdAt]
  }

  function Prune(recent: map<nat, int>, since: int): map<nat, int>
  {
    map id | id in recent && since <= recent[id] :: recent[id]
  }

  function AfterPoll(f: Feed, p: Poll): Feed
  {
    f.(cursor := CursorAfter(f, p),
       recent := Prune(Remember(f.recent, Yields(f, p)), Since(p)),
       delivered := f.delivered + Yields(f, p))
  }

  // ---------------------------------------------------------------- the loop itself

  function Offer(f: Feed, row: Event): Feed
  {
    if row.id in f.recent then f
    else f.(recent := f.recent[row.id := row.createdAt],
            cursor := if row.id > f.cursor then row.id else f.cursor,
            delivered := f.delivered + [row])
  }

  function OfferAll(f: Feed, rows: seq<Event>): Feed
  {
    if rows == [] then f else Offer(OfferAll(f, rows[..|rows| - 1]), rows[|rows| - 1])
  }

  lemma {:induction false} OfferConcat(f: Feed, a: seq<Event>, b: seq<Event>)
    ensures OfferAll(f, a + b) == OfferAll(OfferAll(f, a), b)
  {
    if b == [] {
      assert a + b == a;
    } else {
      assert (a + b)[..|a + b| - 1] == a + b[..|b| - 1];
      OfferConcat(f, a, b[..|b| - 1]);
    }
  }

  /** Rows at or below the cursor: those remembered are skipped, and the cursor stays. */
  lemma {:induction false} OfferLate(f: Feed, rows: seq<Event>)
    requires InOrder(rows) && forall x :: x in rows ==> x.id <= f.cursor
    ensures var unseen := Unseen(rows, f.recent);
            OfferAll(f, rows) == f.(recent := Remember(f.recent, unseen), delivered := f.delivered + unseen)
  {
    if rows != [] {
      var init, last := rows[..|rows| - 1], rows[|rows| - 1];
      InitInOrder(rows);
      InitMembers(rows);
      OfferLate(f, init);
      var seen := Unseen(init, f.recent);
      UnseenRows(init, f.recent);
      KeysOf(f.recent, seen);
      OfferOne(f, seen, last, OfferAll(f, init));
    }
  }

  lemma OfferOne(f: Feed, seen: seq<Event>, last: Event, before: Feed)
    requires before == f.(recent := Remember(f.recent, seen), delivered := f.delivered + seen)
    requires last.id <= f.cursor && (last.id in before.recent <==> last.id in f.recent)
    ensures var now := seen + (if last.id in f.recent then [] else [last]);
            Offer(before, last) == f.(recent := Remember(f.recent, now), delivered := f.delivered + now)
  {
    if last.id in f.recent {
      assert seen + [] == seen;
    } else {
      RememberAppend(f.recent, seen, last);
      assert f.delivered + (seen + [last]) == f.delivered + seen + [last];
    }
  }

  /** Rows above the cursor are all delivered, and the cursor follows the last. */
  lemma {:induction false} OfferFresh(f: Feed, rows: seq<Event>)
    requires InOrder(rows) && (forall x :: x in rows ==> f.cursor < x.id) &&
             (forall id :: id in f.recent ==> id <= f.cursor)
    ensures OfferAll(f, rows) ==
            f.(recent := Remember(f.recent, rows), delivered := f.delivered + rows,
               cursor := if rows == [] then f.cursor else rows[|rows| - 1].id)
  {
    if rows != [] {
      var init, last := rows[..|rows| - 1], rows[|rows| - 1];
      InitInOrder(rows);
      InitMembers(rows);
      OfferFresh(f, init);
      KeysOf(f.recent, init);
      assert last.id !in Remember(f.recent, init);
      assert init != [] ==> init[|init| - 1] in init;
      assert rows == init + [last];
      assert f.delivered + rows == f.delivered + init + [last];
    }
  }

  lemma {:induction false} RememberConcat(recent: map<nat, int>, a: seq<Event>, b: seq<Event>)
    ensures Remember(recent, a + b) == Remember(Remember(recent, a), b)
  {
    if b == [] {
      assert a + b == a;
    } else {
      assert (a + b)[..|a + b| - 1] == a + b[..|b| - 1];
      RememberConcat(recent, a, b[..|b| - 1]);
    }
  }

  /** The fresh batch is the oldest rows above the cursor, and leaves out only rows beyond its last. */
  lemma FreshRows(f: Feed, p: Poll)
    requires InOrder(p.freshView)
    ensures InOrder(Fresh(f, p))
    ensures forall x :: x in Fresh(f, p) ==>
            x in p.freshView && InScope(f.scope, x) && f.cursor < x.id <= CursorAfter(f, p)
    ensures forall x :: x in p.freshView && InScope(f.scope, x) && f.cursor < x.id <= CursorAfter(f, p) ==>
            x in Fresh(f, p)
    ensures |Fresh(f, p)| < BATCH ==>
              forall x :: x in p.freshView && InScope(f.scope, x) && f.cursor < x.id ==> x in Fresh(f, p)
    ensures f.cursor <= CursorAfter(f, p)
  {
    var rows := Find(p.freshView, Query(f.scope, f.cursor, None, None));
    FreshMatches(f, p, rows);
    FirstRows(rows);
    if Fresh(f, p) != [] {
      assert Fresh(f, p)[|Fresh(f, p)| - 1] in rows;
    }
  }

  lemma FreshMatches(f: Feed, p: Poll, rows: seq<Event>)
    requires InOrder(p.freshView) && rows == Find(p.freshView, Query(f.scope, f.cursor, None, None))
    ensures InOrder(rows)
    ensures forall x :: x in rows <==> x in p.freshView && InScope(f.scope, x) && f.cursor < x.id
  {
    var q := Query(f.scope, f.cursor, None, None);
    Found(p.freshView, q);
    FoundInOrder(p.freshView, q);
  }

  lemma FirstRows(rows: seq<Event>)
    requires InOrder(rows)
    ensures var first := FirstBatch(rows);
            && InOrder(first)
            && (forall x :: x in first ==> x in rows && x.id <= first[|first| - 1].id)
            && (forall x :: x in rows && first != [] && x.id <= first[|first| - 1].id ==> x in first)
            && (|first| < BATCH ==> first == rows)
  {
  }

  /** The late query returns rows of the window at or below the cursor. */
  lemma LateRows(f: Feed, p: Poll)
    requires InOrder(p.lateView)
    ensures InOrder(Late(f, p))
    ensures forall x :: x in Late(f, p) <==>
              x in p.lateView && InScope(f.scope, x) && f.floor < x.id <= f.cursor && Since(p) <= x.createdAt
  {
    var q := Query(f.scope, f.floor, Some(f.cursor), Some(Since(p)));
    Found(p.lateView, q);
    FoundInOrder(p.lateView, q);
  }

  lemma {:induction false} OfferBoth(f: Feed, late: seq<Event>, newer: seq<Event>)
    requires InOrder(late) && (forall x :: x in late ==> x.id <= f.cursor)
    requires InOrder(newer) && (forall x :: x in newer ==> f.cursor < x.id)
    requires forall id :: id in f.recent ==> id <= f.cursor
    ensures var rows := Unseen(late, f.recent) + newer;
            OfferAll(f, late + newer) ==
            f.(cursor := if newer == [] then f.cursor else newer[|newer| - 1].id,
               recent := Remember(f.recent, rows), delivered := f.delivered + rows)
  {
    var unseen := Unseen(late, f.recent);
    var passed := f.(recent := Remember(f.recent, unseen), delivered := f.delivered + unseen);
    assert OfferAll(f, late + newer) == OfferAll(passed, newer) by {
      OfferConcat(f, late, newer);
      OfferLate(f, late);
    }
    assert forall id :: id in passed.recent ==> id <= passed.cursor by {
      UnseenRows(late, f.recent);
      RememberedBelow(f.recent, unseen, f.cursor);
    }
    OfferFresh(passed, newer);
    RememberConcat(f.recent, unseen, newer);
    assert f.delivered + unseen + newer == f.delivered + (unseen + newer);
  }

  lemma RememberedBelow(recent: map<nat, int>, rows: seq<Event>, bound: nat)
    requires (forall id :: id in recent ==> id <= bound) && (forall x :: x in rows ==> x.id <= bound)
    ensures forall id :: id in Remember(recent, rows) ==> id <= bound
  {
    KeysOf(recent, rows);
  }

  lemma {:induction false} PollDelivers(f: Feed, p: Poll)
    requires InOrder(p.lateView) && InOrder(p.freshView) && (forall id :: id in f.recent ==> id <= f.cursor)
    ensures OfferAll(f, Late(f, p) + Fresh(f, p)) ==
            f.(cursor := CursorAfter(f, p),
               recent := Remember(f.recent, Yields(f, p)),
               delivered := f.delivered + Yields(f, p))
  {
    LateRows(f, p);
    FreshRows(f, p);
    OfferBoth(f, Late(f, p), Fresh(f, p));
  }

  class Subscription {
    const floor: nat
    const scope: Option<nat>
    var cursor: nat
    var recent: map<nat, int>
    var delivered: seq<Event>

    ghost function AsFeed(): Feed
      reads this
    {
      Feed(floor, scope, cursor, recent, delivered)
    }

    constructor (after: nat, scope: Option<nat>)
      ensures AsFeed() == Open(after, scope)
    {
      this.floor, this.scope, this.cursor := after, scope, after;
      this.recent, this.delivered := map[], [];
    }

    /** One row of a poll: skip it, or remember, pass and yield it. */
    method YieldRow(row: Event)
      modifies this
      ensures AsFeed() == Offer(old(AsFeed()), row)
    {
      if row.id in recent {
        return;
      }
      recent := recent[row.id := row.createdAt];
      if row.id > cursor {
        cursor := row.id;
      }
      delivered := delivered + [row];
    }

    /** One pass of the polling loop: yield, remember, prune. */
    method PollOnce(p: Poll) returns (again: bool)
      requires InOrder(p.lateView) && InOrder(p.freshView)
      requires forall id :: id in recent ==> id <= cursor
      modifies this
      ensures AsFeed() == AfterPoll(old(AsFeed()), p)
      ensures again <==> |Fresh(old(AsFeed()), p)| >= 200
    {
      ghost var start := AsFeed();
      var since := p.now - LOOK_BACK_MS;
      var late := Find(p.lateView, Query(scope, floor, Some(cursor), Some(since)));
      var newer := Find(p.freshView, Query(scope, cursor, None, None));
      if |newer| > BATCH {
        newer := newer[..BATCH];
      }
      assert late == Late(start, p) && newer == Fresh(start, p);
      var rows := late + newer;
      for i := 0 to |rows|
        invariant AsFeed() == OfferAll(start, rows[..i])
      {
        assert rows[..i + 1] == rows[..i] + [rows[i]] && rows[..i + 1][..i] == rows[..i];
        YieldRow(rows[i]);
      }
      assert rows[..|rows|] == rows;
      PollDelivers(start, p);
      PruneRecent(since);
      again := |newer| >= BATCH;
    }

    method PruneRecent(since: int)
      modifies this`recent
      ensures recent == Prune(old(recent), since)
    {
      var left := recent.Keys;
      var was := recent;
      while left != {}
        invariant left <= was.Keys
        invariant recent == map id | id in was && (id in left || since <= was[id]) :: was[id]
        decreases left
      {
        var id :| id in left;
        left := left - {id};
        if was[id] < since {
          recent := recent - {id};
        }
      }
    }
  }

  lemma RememberAppend(recent: map<nat, int>, rows: seq<Event>, x: Event)
    ensures Remember(recent, rows + [x]) == Remember(recent, rows)[x.id := x.createdAt]
  {
    assert (rows + [x])[..|rows|] == rows;
  }

  lemma {:induction false} KeysOf(recent: map<nat, int>, rows: seq<Event>)
    ensures forall id :: id in Remember(recent, rows) <==> id in recent || exists x :: x in rows && x.id == id
  {
    if rows != [] {
      KeysOf(recent, rows[..|rows| - 1]);
      assert rows == rows[..|rows| - 1] + [rows[|rows| - 1]];
    }
  }

  // ---------------------------------------------------------------- a whole subscription

  predicate FeedOk(f: Feed)
  {
    && f.floor <= f.cursor
    && (forall id :: id in f.recent ==> id <= f.cursor)
    && (forall x :: x in f.delivered ==> InScope(f.scope, x) && f.floor < x.id <= f.cursor)
  }

  /** `recent` knows every delivered row that is still inside the window that begins at `since`. */
  ghost predicate RecentOk(f: Feed, since: int)
  {
    && (forall x :: x in f.delivered && since <= x.createdAt ==> x.id in f.recent && f.recent[x.id] == x.createdAt)
    && (forall id :: id in f.recent ==> exists x :: x in f.delivered && x.id == id)
  }

  ghost predicate AllOf(table: Table, rows: seq<Event>)
  {
    forall x :: x in rows ==> Of(table, x)
  }

  ghost predicate NoRepeats(rows: seq<Event>)
  {
    forall i, j :: 0 <= i < j < |rows| ==> rows[i].id != rows[j].id
  }

  /** A table of rows by id; what a poll sees of it are rows of the table. */
  type Table = map<nat, Event>

  ghost predicate Of(table: Table, x: Event)
  {
    x.id in table && table[x.id] == x
  }

  ghost predicate PollOk(table: Table, p: Poll)
  {
    InOrder(p.lateView) && InOrder(p.freshView) && forall x :: Sees(p, x) ==> Of(table, x)
  }

  /** A subscription's polls in order; the clock does not run backwards. */
  ghost predicate IsSession(table: Table, feeds: seq<Feed>, polls: seq<Poll>)
  {
    && |feeds| == |polls| + 1 && feeds[0] == Open(feeds[0].floor, feeds[0].scope)
    && (forall i {:trigger polls[i]} :: 0 <= i < |polls| ==>
       PollOk(table, polls[i]) && feeds[i + 1] == AfterPoll(feeds[i], polls[i]))
    && (forall i, j :: 0 <= i < j < |polls| ==> polls[i].now <= polls[j].now)
  }

  predicate Sees(p: Poll, x: Event)
  {
    x in p.lateView || x in p.freshView
  }

  lemma {:induction false} RememberedValues(recent: map<nat, int>, rows: seq<Event>)
    requires InOrder(rows)
    ensures forall x :: x in rows ==> x.id in Remember(recent, rows) && Remember(recent, rows)[x.id] == x.createdAt
    ensures forall id :: id in recent && (forall x :: x in rows ==> x.id != id) ==>
              id in Remember(recent, rows) && Remember(recent, rows)[id] == recent[id]
  {
    if rows != [] {
      InitInOrder(rows);
      InitMembers(rows);
      RememberedValues(recent, rows[..|rows| - 1]);
    }
  }

  /** Within one poll, ids only go up: late rows first, fresh ones after. */
  lemma YieldsInOrder(f: Feed, p: Poll)
    requires InOrder(p.lateView) && InOrder(p.freshView)
    ensures InOrder(Yields(f, p))
    ensures forall x :: x in Yields(f, p) <==> (x in Late(f, p) && x.id !in f.recent) || x in Fresh(f, p)
  {
    LateRows(f, p);
    FreshRows(f, p);
    UnseenRows(Late(f, p), f.recent);
    UnseenInOrder(Late(f, p), f.recent);
    JoinInOrder(Unseen(Late(f, p), f.recent), Fresh(f, p), f.cursor);
  }

  lemma JoinInOrder(a: seq<Event>, b: seq<Event>, middle: nat)
    requires InOrder(a) && InOrder(b)
    requires (forall x :: x in a ==> x.id <= middle) && (forall x :: x in b ==> middle < x.id)
    ensures InOrder(a + b)
    ensures forall x :: x in a + b <==> x in a || x in b
  {
  }

  /** A poll yields nothing that was delivered before. */
  lemma YieldsAreNew(table: Table, f: Feed, p: Poll, since: int)
    requires FeedOk(f) && RecentOk(f, since) && since <= Since(p) && PollOk(table, p) && AllOf(table, f.delivered)
    ensures forall x, y :: x in f.delivered && y in Yields(f, p) ==> x.id != y.id
  {
    LateRows(f, p);
    FreshRows(f, p);
    YieldsInOrder(f, p);
    forall x, y | x in f.delivered && y in Yields(f, p) ensures x.id != y.id {
      if y in Late(f, p) {
        assert Sees(p, y) && Of(table, y) && Of(table, x);
      }
    }
  }

  lemma {:induction false} PollKeepsFeedOk(f: Feed, p: Poll)
    requires FeedOk(f) && InOrder(p.lateView) && InOrder(p.freshView)
    ensures FeedOk(AfterPoll(f, p))
  {
    LateRows(f, p);
    FreshRows(f, p);
    YieldsInOrder(f, p);
    var c := CursorAfter(f, p);
    assert forall x :: x in Yields(f, p) ==> InScope(f.scope, x) && f.floor < x.id <= c;
    RememberedBelow(f.recent, Yields(f, p), c);
    assert forall x :: x in f.delivered + Yields(f, p) ==> x in f.delivered || x in Yields(f, p);
  }

  lemma {:induction false} PollKeepsRecent(table: Table, f: Feed, p: Poll, since: int)
    requires FeedOk(f) && RecentOk(f, since) && since <= Since(p) && PollOk(table, p) && AllOf(table, f.delivered)
    ensures RecentOk(AfterPoll(f, p), Since(p))
  {
    var rows := Yields(f, p);
    var f' := AfterPoll(f, p);
    YieldsInOrder(f, p);
    YieldsAreNew(table, f, p, since);
    RememberedValues(f.recent, rows);
    KeysOf(f.recent, rows);
    forall x | x in f'.delivered && Since(p) <= x.createdAt
      ensures x.id in f'.recent && f'.recent[x.id] == x.createdAt
    {
      assert x in f.delivered || x in rows;
    }
    forall id | id in f'.recent ensures exists x :: x in f'.delivered && x.id == id {
      if id in f.recent {
        var x :| x in f.delivered && x.id == id;
        assert x in f'.delivered;
      } else {
        var x :| x in rows && x.id == id;
        assert x in f'.delivered;
      }
    }
  }

  lemma JoinNoRepeats(a: seq<Event>, b: seq<Event>)
    requires NoRepeats(a) && InOrder(b) && forall x, y :: x in a && y in b ==> x.id != y.id
    ensures NoRepeats(a + b)
  {
    forall i, j | 0 <= i < j < |a + b| ensures (a + b)[i].id != (a + b)[j].id {
      if i < |a| && |a| <= j {
        assert (a + b)[i] in a && (a + b)[j] in b;
      }
    }
  }

  /** Where the window began at the latest poll before feed `k`. */
  function WindowBefore(polls: seq<Poll>, k: nat): int
    requires k <= |polls|
  {
    if k == 0 then (if polls == [] then 0 else Since(polls[0])) else Since(polls[k - 1])
  }

  lemma {:induction false} SessionOk(table: Table, feeds: seq<Feed>, polls: seq<Poll>, k: nat)
    requires IsSession(table, feeds, polls) && k < |feeds|
    ensures FeedOk(feeds[k]) && RecentOk(feeds[k], WindowBefore(polls, k))
    ensures NoRepeats(feeds[k].delivered) && AllOf(table, feeds[k].delivered)
  {
    if k > 0 {
      SessionOk(table, feeds, polls, k - 1);
      PollOf(table, feeds, polls, k - 1);
      PollStep(table, feeds[k - 1], polls[k - 1], WindowBefore(polls, k - 1));
    }
  }

  /** One poll of a session: a good view of the table, a window that has not moved back, and the feed after it. */
  lemma PollOf(table: Table, feeds: seq<Feed>, polls: seq<Poll>, k: nat)
    requires IsSession(table, feeds, polls) && k < |polls|
    ensures PollOk(table, polls[k]) && WindowBefore(polls, k) <= Since(polls[k])
    ensures feeds[k + 1] == AfterPoll(feeds[k], polls[k])
  {
  }

  lemma {:induction false} PollStep(table: Table, f: Feed, p: Poll, since: int)
    requires FeedOk(f) && RecentOk(f, since) && since <= Since(p) && PollOk(table, p)
    requires NoRepeats(f.delivered) && AllOf(table, f.delivered)
    ensures FeedOk(AfterPoll(f, p)) && RecentOk(AfterPoll(f, p), Since(p))
    ensures NoRepeats(AfterPoll(f, p).delivered) && AllOf(table, AfterPoll(f, p).delivered)
  {
    PollKeepsFeedOk(f, p);
    PollKeepsRecent(table, f, p, since);
    YieldsInOrder(f, p);
    YieldsAreNew(table, f, p, since);
    JoinNoRepeats(f.delivered, Yields(f, p));
    YieldsSeen(f, p);
    assert forall x :: x in f.delivered + Yields(f, p) ==> x in f.delivered || x in Yields(f, p);
  }

  lemma YieldsSeen(f: Feed, p: Poll)
    requires InOrder(p.lateView) && InOrder(p.freshView)
    ensures forall x :: x in Yields(f, p) ==> Sees(p, x)
  {
    LateRows(f, p);
    FreshRows(f, p);
    YieldsInOrder(f, p);
  }

  /** No id is ever yielded twice, although remembered ids are pruned. */
  lemma {:induction false} DeliveredAtMostOnce(table: Table, feeds: seq<Feed>, polls: seq<Poll>, k: nat)
    requires IsSession(table, feeds, polls) && k < |feeds|
    ensures forall i, j :: 0 <= i < j < |feeds[k].delivered| ==> feeds[k].delivered[i].id != feeds[k].delivered[j].id
  {
    SessionOk(table, feeds, polls, k);
  }

  lemma {:induction false} CursorGrows(table: Table, feeds: seq<Feed>, polls: seq<Poll>, i: nat, j: nat)
    requires IsSession(table, feeds, polls) && i <= j < |feeds|
    ensures feeds[i].cursor <= feeds[j].cursor && feeds[i].floor == feeds[j].floor && feeds[i].scope == feeds[j].scope
    decreases j
  {
    if i < j {
      CursorGrows(table, feeds, polls, i, j - 1);
      assert PollOk(table, polls[j - 1]);
      FreshRows(feeds[j - 1], polls[j - 1]);
    }
  }

  /** Rows read as fresh come in strictly increasing order across all polls. */
  lemma {:induction false} FreshOnlyGoesUp(
      table: Table, feeds: seq<Feed>, polls: seq<Poll>, i: nat, j: nat, a: Event, b: Event)
    requires IsSession(table, feeds, polls) && i < j < |polls|
    requires a in Fresh(feeds[i], polls[i]) && b in Fresh(feeds[j], polls[j])
    ensures a.id < b.id
  {
    CursorGrows(table, feeds, polls, i + 1, j);
    PollOf(table, feeds, polls, i);
    PollOf(table, feeds, polls, j);
    FreshPassCursor(feeds[i], polls[i], a);
    FreshPassCursor(feeds[j], polls[j], b);
  }

  lemma FreshPassCursor(f: Feed, p: Poll, x: Event)
    requires InOrder(p.freshView) && x in Fresh(f, p)
    ensures f.cursor < x.id <= AfterPoll(f, p).cursor
  {
    FreshRows(f, p);
  }

  /** No instance was asked for, or the row is of that one. */
  predicate AskedFor(f: Feed, x: Event)
  {
    f.scope.None? || x.instance == f.scope.value
  }

  /** A poll reads the row: in its look-back window, or in its batch of fresh rows. */
  ghost predicate Reads(f: Feed, p: Poll, x: Event)
  {
    && AskedFor(f, x)
    && ((x in p.lateView && f.floor < x.id <= f.cursor && p.now - 5000 <= x.createdAt) ||
        (x in p.freshView && f.cursor < x.id <= CursorAfter(f, p)))
  }

  lemma {:induction false} ReadsDeliver(table: Table, f: Feed, p: Poll, since: int, x: Event)
    requires FeedOk(f) && RecentOk(f, since) && since <= Since(p) && PollOk(table, p) && AllOf(table, f.delivered)
    ensures x in AfterPoll(f, p).delivered <==> x in f.delivered || Reads(f, p, x)
  {
    LateRows(f, p);
    FreshRows(f, p);
    YieldsInOrder(f, p);
    if Reads(f, p, x) && x !in Yields(f, p) {
      assert x in Late(f, p) && x.id in f.recent;
      var y :| y in f.delivered && y.id == x.id;
      assert Sees(p, x);
      assert y == x;
    }
  }

  /** A row has been delivered exactly when some poll so far read it. */
  lemma {:induction false} DeliveredIffRead(table: Table, feeds: seq<Feed>, polls: seq<Poll>, k: nat, x: Event)
    requires IsSession(table, feeds, polls) && k < |feeds|
    ensures x in feeds[k].delivered <==> exists j :: 0 <= j < k && Reads(feeds[j], polls[j], x)
  {
    DeliveredIffReadBy(table, feeds, polls, k, x);
    ReadByMeans(feeds, polls, k, x);
  }

  ghost predicate ReadBy(feeds: seq<Feed>, polls: seq<Poll>, k: nat, x: Event)
    requires k < |feeds| == |polls| + 1
  {
    k > 0 && (ReadBy(feeds, polls, k - 1, x) || Reads(feeds[k - 1], polls[k - 1], x))
  }

  lemma {:induction false} ReadByMeans(feeds: seq<Feed>, polls: seq<Poll>, k: nat, x: Event)
    requires k < |feeds| == |polls| + 1
    ensures ReadBy(feeds, polls, k, x) <==> exists j :: 0 <= j < k && Reads(feeds[j], polls[j], x)
  {
    if k > 0 {
      ReadByMeans(feeds, polls, k - 1, x);
    }
  }

  lemma {:induction false} DeliveredIffReadBy(table: Table, feeds: seq<Feed>, polls: seq<Poll>, k: nat, x: Event)
    requires IsSession(table, feeds, polls) && k < |feeds|
    ensures x in feeds[k].delivered <==> ReadBy(feeds, polls, k, x)
  {
    if k > 0 {
      DeliveredIffReadBy(table, feeds, polls, k - 1, x);
      DeliveredByLast(table, feeds, polls, k - 1, x);
    }
  }

  lemma {:induction false} DeliveredByLast(table: Table, feeds: seq<Feed>, polls: seq<Poll>, k: nat, x: Event)
    requires IsSession(table, feeds, polls) && k < |polls|
    ensures x in feeds[k + 1].delivered <==> x in feeds[k].delivered || Reads(feeds[k], polls[k], x)
  {
    SessionOk(table, feeds, polls, k);
    PollOf(table, feeds, polls, k);
    ReadsDeliver(table, feeds[k], polls[k], WindowBefore(polls, k), x);
  }

  /**
    The cursor passed the id at poll `m`, before the row was visible, and every
    poll that saw it since found it too old.
  */
  ghost predicate Slipped(feeds: seq<Feed>, polls: seq<Poll>, k: nat, x: Event, m: nat)
    requires k < |feeds| == |polls| + 1
  {
    && m < k && feeds[m].cursor < x.id <= feeds[m + 1].cursor && x !in polls[m].freshView
    && forall j :: m < j < k && x in polls[j].lateView ==> x.createdAt < polls[j].now - 5000
  }

  /** The poll at which the cursor passed an id. */
  lemma {:induction false} PassedAt(table: Table, feeds: seq<Feed>, polls: seq<Poll>, k: nat, id: nat) returns (m: nat)
    requires IsSession(table, feeds, polls) && k < |feeds| && feeds[0].cursor < id <= feeds[k].cursor
    ensures m < k && feeds[m].cursor < id <= feeds[m + 1].cursor
  {
    if feeds[k - 1].cursor < id {
      m := k - 1;
    } else {
      m := PassedAt(table, feeds, polls, k - 1, id);
    }
  }

  /**
    The only gaps: between the floor and the cursor, a row in scope is missing
    exactly when it became visible after the cursor had passed it and had left
    the look-back window before any later poll saw it. The batch limit never
    skips a visible row.
  */
  lemma {:induction false} OnlySlippedRowsAreMissing(table: Table, feeds: seq<Feed>, polls: seq<Poll>, k: nat, x: Event)
    requires IsSession(table, feeds, polls) && k < |feeds|
    requires AskedFor(feeds[0], x) && feeds[0].floor < x.id <= feeds[k].cursor
    ensures x !in feeds[k].delivered <==> exists m :: Slipped(feeds, polls, k, x, m)
  {
    DeliveredIffRead(table, feeds, polls, k, x);
    var m := PassedAt(table, feeds, polls, k, x.id);
    ReadAroundAll(table, feeds, polls, k, x, m);
    SlippedAtPass(feeds, polls, k, x, m);
    if n: nat :| Slipped(feeds, polls, k, x, n) {
      PassedOnce(table, feeds, polls, k, x.id, m, n);
    }
  }

  lemma SlippedAtPass(feeds: seq<Feed>, polls: seq<Poll>, k: nat, x: Event, m: nat)
    requires m < k < |feeds| == |polls| + 1 && feeds[m].cursor < x.id <= feeds[m + 1].cursor
    ensures Slipped(feeds, polls, k, x, m) <==> !exists j :: 0 <= j < k && ReadsAt(feeds, polls, x, m, j)
  {
    if Slipped(feeds, polls, k, x, m) {
    } else if x in polls[m].freshView {
      assert ReadsAt(feeds, polls, x, m, m);
    } else {
      var j :| m < j < k && x in polls[j].lateView && x.createdAt >= polls[j].now - 5000;
      assert ReadsAt(feeds, polls, x, m, j);
    }
  }

  lemma {:induction false} PassedOnce(table: Table, feeds: seq<Feed>, polls: seq<Poll>, k: nat, id: nat, m: nat, n: nat)
    requires IsSession(table, feeds, polls) && m < k && n < k < |feeds|
    requires feeds[m].cursor < id <= feeds[m + 1].cursor && feeds[n].cursor < id <= feeds[n + 1].cursor
    ensures n == m
  {
    if n < m { CursorGrows(table, feeds, polls, n + 1, m); }
    if m < n { CursorGrows(table, feeds, polls, m + 1, n); }
  }

  lemma {:induction false} ReadAroundAll(table: Table, feeds: seq<Feed>, polls: seq<Poll>, k: nat, x: Event, m: nat)
    requires IsSession(table, feeds, polls) && m < k < |feeds|
    requires AskedFor(feeds[0], x) && feeds[0].floor < x.id && feeds[m].cursor < x.id <= feeds[m + 1].cursor
    ensures (exists j :: 0 <= j < k && Reads(feeds[j], polls[j], x)) <==>
            (exists j :: 0 <= j < k && ReadsAt(feeds, polls, x, m, j))
  {
    forall j | 0 <= j < k ensures Reads(feeds[j], polls[j], x) <==> ReadsAt(feeds, polls, x, m, j) {
      ReadAround(table, feeds, polls, k, x, m, j);
    }
  }

  /** Poll `m` moves the cursor past the row: it can only read it as fresh, later polls only as late. */
  ghost predicate ReadsAt(feeds: seq<Feed>, polls: seq<Poll>, x: Event, m: nat, j: nat)
    requires j < |polls|
  {
    (j == m && x in polls[j].freshView) || (m < j && x in polls[j].lateView && polls[j].now - 5000 <= x.createdAt)
  }

  lemma ReadAround(table: Table, feeds: seq<Feed>, polls: seq<Poll>, k: nat, x: Event, m: nat, j: nat)
    requires IsSession(table, feeds, polls) && m < k < |feeds| && j < k
    requires AskedFor(feeds[0], x) && feeds[0].floor < x.id && feeds[m].cursor < x.id <= feeds[m + 1].cursor
    ensures Reads(feeds[j], polls[j], x) <==> ReadsAt(feeds, polls, x, m, j)
  {
    CursorGrows(table, feeds, polls, 0, j);
    var p := polls[j];
    if j < m {
      CursorGrows(table, feeds, polls, j, m);
      CursorGrows(table, feeds, polls, j + 1, m);
    }
    if m < j { CursorGrows(table, feeds, polls, m + 1, j); }
  }

  /** A visible row no older than five seconds and not above the cursor is delivered by the poll that sees it. */
  lemma {:induction false} LateRowIsDelivered(table: Table, feeds: seq<Feed>, polls: seq<Poll>, j: nat, x: Event)
    requires IsSession(table, feeds, polls) && j < |polls| && x in polls[j].lateView
    requires feeds[0].scope.None? || x.instance == feeds[0].scope.value
    requires feeds[0].floor < x.id <= feeds[j].cursor && polls[j].now - 5000 <= x.createdAt
    ensures x in feeds[j + 1].delivered
  {
    CursorGrows(table, feeds, polls, 0, j);
    DeliveredByLast(table, feeds, polls, j, x);
  }

  /** Only rows that were asked for are delivered, and only above where the subscription began. */
  lemma {:induction false} OnlyAskedForRows(table: Table, feeds: seq<Feed>, polls: seq<Poll>, k: nat, x: Event)
    requires IsSession(table, feeds, polls) && k < |feeds| && x in feeds[k].delivered
    ensures feeds[0].scope.None? || x.instance == feeds[0].scope.value
    ensures feeds[0].floor < x.id <= feeds[k].cursor && x.id in table && table[x.id] == x
  {
    CursorGrows(table, feeds, polls, 0, k);
    SessionOk(table, feeds, polls, k);
  }

  /** A poll that delivers fewer than 200 rows has delivered every row above the cursor it could see. */
  lemma {:induction false} ShortBatchCatchesUp(table: Table, feeds: seq<Feed>, polls: seq<Poll>, j: nat, x: Event)
    requires IsSession(table, feeds, polls) && j < |polls| && x in polls[j].freshView
    requires feeds[0].scope.None? || x.instance == feeds[0].scope.value
    requires feeds[j].cursor < x.id && |feeds[j + 1].delivered| < |feeds[j].delivered| + 200
    ensures x in feeds[j + 1].delivered && x.id <= feeds[j + 1].cursor
  {
    CursorGrows(table, feeds, polls, 0, j);
    PollOf(table, feeds, polls, j);
    FreshRows(feeds[j], polls[j]);
    YieldsInOrder(feeds[j], polls[j]);
  }

  /** A poll delivers late rows, then at most 200 rows above the cursor, and the cursor follows them. */
  lemma {:induction false} BatchIsBounded(table: Table, feeds: seq<Feed>, polls: seq<Poll>, j: nat)
    returns (late: seq<Event>, newer: seq<Event>)
    requires IsSession(table, feeds, polls) && j < |polls|
    ensures feeds[j + 1].delivered == feeds[j].delivered + (late + newer) && |newer| <= 200
    ensures (forall x :: x in late ==> x.id <= feeds[j].cursor) && (forall x :: x in newer ==> feeds[j].cursor < x.id)
    ensures feeds[j + 1].cursor == if newer == [] then feeds[j].cursor else newer[|newer| - 1].id
  {
    PollOf(table, feeds, polls, j);
    late, newer := PollParts(feeds[j], polls[j]);
  }

  lemma PollParts(f: Feed, p: Poll) returns (late: seq<Event>, newer: seq<Event>)
    requires InOrder(p.lateView) && InOrder(p.freshView)
    ensures AfterPoll(f, p).delivered == f.delivered + (late + newer) && |newer| <= 200
    ensures (forall x :: x in late ==> x.id <= f.cursor) && (forall x :: x in newer ==> f.cursor < x.id)
    ensures AfterPoll(f, p).cursor == if newer == [] then f.cursor else newer[|newer| - 1].id
  {
    late, newer := Unseen(Late(f, p), f.recent), Fresh(f, p);
    FreshRows(f, p);
    LateRows(f, p);
    UnseenRows(Late(f, p), f.recent);
  }

  ghost predicate ValuesOk(f: Feed)
  {
    forall x :: x in f.delivered && x.id in f.recent ==> f.recent[x.id] == x.createdAt
  }

  lemma {:induction false} ValuesAlong(table: Table, feeds: seq<Feed>, polls: seq<Poll>, k: nat)
    requires IsSession(table, feeds, polls) && k < |feeds|
    ensures ValuesOk(feeds[k])
  {
    if k > 0 {
      ValuesAlong(table, feeds, polls, k - 1);
      SessionOk(table, feeds, polls, k - 1);
      PollOf(table, feeds, polls, k - 1);
      ValuesStep(table, feeds[k - 1], polls[k - 1], WindowBefore(polls, k - 1));
    }
  }

  lemma ValuesStep(table: Table, f: Feed, p: Poll, since: int)
    requires FeedOk(f) && RecentOk(f, since) && since <= Since(p) && PollOk(table, p) && AllOf(table, f.delivered)
    requires ValuesOk(f)
    ensures ValuesOk(AfterPoll(f, p))
  {
    var rows, f' := Yields(f, p), AfterPoll(f, p);
    YieldsInOrder(f, p);
    YieldsAreNew(table, f, p, since);
    RememberedValues(f.recent, rows);
    KeysOf(f.recent, rows);
    forall x | x in f'.delivered && x.id in f'.recent ensures f'.recent[x.id] == x.createdAt {
      assert x in f.delivered || x in rows;
    }
  }

  /** After a poll the subscription remembers just the delivered rows no older than five seconds at that poll. */
  lemma {:induction false} RemembersTheWindow(table: Table, feeds: seq<Feed>, polls: seq<Poll>, j: nat, id: nat)
    requires IsSession(table, feeds, polls) && j < |polls|
    ensures id in feeds[j + 1].recent <==>
            exists x :: x in feeds[j + 1].delivered && x.id == id && polls[j].now - 5000 <= x.createdAt
  {
    SessionOk(table, feeds, polls, j + 1);
    ValuesAlong(table, feeds, polls, j + 1);
    PollOf(table, feeds, polls, j);
    assert WindowBefore(polls, j + 1) == polls[j].now - 5000;
    if id in feeds[j + 1].recent {
      assert polls[j].now - 5000 <= feeds[j + 1].recent[id];
    }
  }
}
