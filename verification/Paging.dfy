/**
 Cursor paging over an append-only table with auto-increment ids: `sync` over the event log,
 and `get_output` over the output chunks, which the reaper also prunes.  Commits to any
 stream and prunings may fall between any two pages.
 */
module Paging {
  import opened Common

  datatype Stream = TeamLog(team: string) | AgentOutput(team: string, agent: string)

  datatype Row<+D> = Row(id: nat, stream: Stream, ts: int, data: D)

  // The clamp each query puts on the caller's limit.
  function PageSize(s: Stream, limit: int): nat {
    ClampLimit(limit, 200, if s.TeamLog? then 1000 else 500)
  }

  /** A limit between one and the cap is honoured, zero means 200, and others are moved to the nearest of the two. */
  lemma LimitsMean(s: Stream, limit: int)
    ensures
      var cap := if s.TeamLog? then 1000 else 500;
      && (1 <= limit <= cap ==> PageSize(s, limit) == limit)
      && (limit == 0 ==> PageSize(s, limit) == 200)
      && (limit < 0 ==> PageSize(s, limit) == 1)
      && (limit > cap ==> PageSize(s, limit) == cap)
  {
  }

  // The rows a condition keeps, in table order.
  function Keep<T>(rows: seq<T>, p: T -> bool): seq<T> {
    if rows == [] then []
    else Keep(Init(rows), p) + (if p(Last(rows)) then [Last(rows)] else [])
  }

  function Both<T>(p: T -> bool, q: T -> bool): T -> bool {
    x => p(x) && q(x)
  }

  function Beyond<D>(s: Stream, since: int): Row<D> -> bool {
    (r: Row<D>) => r.stream == s && r.id > since
  }

  function NotIn<D>(gone: set<nat>): Row<D> -> bool {
    (r: Row<D>) => r.id !in gone
  }

  function Young<D>(cutoff: int): Row<D> -> bool {
    (r: Row<D>) => r.ts >= cutoff
  }

  /** The rows of stream `s` with an id above `since`, in table order. */
  function Matching<D>(rows: seq<Row<D>>, s: Stream, since: int): seq<Row<D>> {
    Keep(rows, Beyond(s, since))
  }

  function Take<T>(rows: seq<T>, n: nat): seq<T> {
    if |rows| <= n then rows else rows[..n]
  }

  /** One query: `stream = s AND id > since ORDER BY id LIMIT n`. */
  function Page<D>(rows: seq<Row<D>>, s: Stream, since: int, limit: int): seq<Row<D>> {
    Take(Matching(rows, s, since), PageSize(s, limit))
  }

  /** The safe cursor after a page: the last id returned, or the old cursor if nothing was. */
  function Advance<D>(cursor: int, page: seq<Row<D>>): int {
    if page == [] then cursor else Last(page).id
  }

  /** `COALESCE(MAX(id), 0)` over the stream. */
  function Head<D>(rows: seq<Row<D>>, s: Stream): int {
    var all := Matching(rows, s, -1);
    if all == [] then 0 else Last(all).id
  }

  // -------------------------------------------------------------- the reader

  /**
   A table and one reader of stream `s`.  `ever` lists every row ever inserted, `got` the rows
   the reader's pages have returned, and `missed` the ids of rows of `s` pruned before a page reached them.
   */
  datatype Tail<+D> = Tail(
    rows: seq<Row<D>>, nextId: nat, ever: seq<Row<D>>,
    s: Stream, start: int, cursor: int, got: seq<Row<D>>, missed: set<nat>)

  datatype Op<+D> =
    | Insert(stream: Stream, ts: int, data: D)
    | Prune(cutoff: int)
    | Read(limit: int)

  ghost function Apply<D>(t: Tail<D>, op: Op<D>): Tail<D> {
    match op
    case Insert(stream, ts, data) =>
      var r := Row(t.nextId, stream, ts, data);
      t.(rows := t.rows + [r], ever := t.ever + [r], nextId := t.nextId + 1)
    case Prune(cutoff) =>
      t.(rows := Keep(t.rows, Young(cutoff)),
      missed := t.missed + (set r | r in Matching(t.rows, t.s, t.cursor) && r.ts < cutoff :: r.id))
    case Read(limit) =>
      var page := Page(t.rows, t.s, t.cursor, limit);
      t.(got := t.got + page, cursor := Advance(t.cursor, page))
  }

  ghost function Run<D>(t: Tail<D>, ops: seq<Op<D>>): Tail<D> {
    if ops == [] then t else Apply(Run(t, Init(ops)), Last(ops))
  }

  // Ids start at one, ascend in table order and stay below the next one.
  ghost predicate Ascending<D>(rows: seq<Row<D>>, nextId: nat) {
    && 0 < nextId
    && (forall i, j | 0 <= i < j < |rows| :: rows[i].id < rows[j].id)
    && (forall i | 0 <= i < |rows| :: 0 < rows[i].id < nextId)
  }

  /** A reader that starts at cursor `since` on an existing table. */
  ghost predicate Starts<D>(t: Tail<D>) {
    && Ascending(t.rows, t.nextId)
    && t.ever == t.rows && t.cursor == t.start && t.got == [] && t.missed == {}
  }

  // ------------------------------------------------------------- about Keep

  lemma KeepOne<T>(a: seq<T>, x: T, p: T -> bool)
    ensures Keep(a + [x], p) == if p(x) then Keep(a, p) + [x] else Keep(a, p)
  {
    assert Init(a + [x]) == a;
  }

  lemma {:induction false} KeepAppend<T>(a: seq<T>, b: seq<T>, p: T -> bool)
    ensures Keep(a + b, p) == Keep(a, p) + Keep(b, p)
  {
    if b == [] {
      assert a + b == a;
    } else {
      SplitOver(a, b);
      KeepAppend(a, Init(b), p);
      KeepOne(a + Init(b), Last(b), p);
    }
  }

  lemma {:induction false} KeepSame<T>(rows: seq<T>, p: T -> bool, q: T -> bool)
    requires forall i | 0 <= i < |rows| :: p(rows[i]) == q(rows[i])
    ensures Keep(rows, p) == Keep(rows, q)
  {
    if rows != [] {
      KeepSame(Init(rows), p, q);
    }
  }

  lemma {:induction false} KeepNone<T>(rows: seq<T>, p: T -> bool)
    requires forall i | 0 <= i < |rows| :: !p(rows[i])
    ensures Keep(rows, p) == []
  {
    if rows != [] {
      KeepNone(Init(rows), p);
    }
  }

  lemma {:induction false} KeepTwice<T>(rows: seq<T>, p: T -> bool, q: T -> bool)
    ensures Keep(Keep(rows, p), q) == Keep(rows, Both(p, q))
  {
    if rows != [] {
      var front, x := Init(rows), Last(rows);
      KeepTwice(front, p, q);
      assert Both(p, q)(x) == (p(x) && q(x));
      if p(x) {
        KeepOne(Keep(front, p), x, q);
      } else {
        assert Keep(rows, p) == Keep(front, p);
      }
    }
  }

  lemma KeepEitherOrder<T>(rows: seq<T>, p: T -> bool, q: T -> bool)
    ensures Keep(Keep(rows, p), q) == Keep(Keep(rows, q), p)
  {
    KeepTwice(rows, p, q);
    KeepTwice(rows, q, p);
    KeepSame(rows, Both(p, q), Both(q, p));
  }

  lemma {:induction false} KeepFrom<T>(rows: seq<T>, p: T -> bool)
    ensures forall i | 0 <= i < |Keep(rows, p)| :: Keep(rows, p)[i] in rows && p(Keep(rows, p)[i])
  {
    if rows != [] {
      var front := Init(rows);
      KeepFrom(front, p);
      var kept := Keep(front, p);
      forall i | 0 <= i < |kept| ensures kept[i] in rows && p(kept[i]) {
        assert kept[i] in front;
      }
    }
  }

  lemma {:induction false} KeepAscending<D>(rows: seq<Row<D>>, p: Row<D> -> bool, nextId: nat)
    requires Ascending(rows, nextId)
    ensures Ascending(Keep(rows, p), nextId)
  {
    if rows != [] {
      KeepAscending(Init(rows), p, Last(rows).id);
    }
  }

  lemma KeepIn<D>(rows: seq<Row<D>>, p: Row<D> -> bool, nextId: nat)
    requires Ascending(rows, nextId)
    ensures Ascending(Keep(rows, p), nextId)
    ensures forall i | 0 <= i < |Keep(rows, p)| :: Keep(rows, p)[i] in rows && p(Keep(rows, p)[i])
  {
    KeepAscending(rows, p, nextId);
    KeepFrom(rows, p);
  }

  lemma {:induction false} KeepNothing<T>(rows: seq<T>, p: T -> bool)
    requires Keep(rows, p) == []
    ensures forall i | 0 <= i < |rows| :: !p(rows[i])
  {
    if rows != [] {
      KeepNothing(Init(rows), p);
    }
  }

  lemma MatchingIn<D>(rows: seq<Row<D>>, s: Stream, since: int, nextId: nat)
    requires Ascending(rows, nextId)
    ensures
      var m := Matching(rows, s, since);
      && Ascending(m, nextId)
      && (forall i | 0 <= i < |m| :: m[i] in rows && m[i].stream == s && m[i].id > since)
  {
    var m, p := Matching(rows, s, since), Beyond(s, since);
    KeepIn(rows, p, nextId);
    forall i | 0 <= i < |m| ensures m[i].stream == s && m[i].id > since {
      assert p(Keep(rows, p)[i]);
    }
  }

  lemma {:induction false} KeepSuffix<T>(m: seq<T>, p: T -> bool, n: nat)
    requires n <= |m|
    requires (forall i | 0 <= i < n :: !p(m[i])) && (forall i | n <= i < |m| :: p(m[i]))
    ensures Keep(m, p) == m[n..]
  {
    if n == |m| {
      KeepNone(m, p);
    } else {
      KeepSuffix(Init(m), p, n);
      assert p(Last(m));
      assert m[n..] == Init(m)[n..] + [Last(m)];
    }
  }

  lemma KeepAll<T>(rows: seq<T>, p: T -> bool)
    requires forall i | 0 <= i < |rows| :: p(rows[i])
    ensures Keep(rows, p) == rows
  {
    KeepSuffix(rows, p, 0);
  }

  lemma SortedSuffix<D>(m: seq<Row<D>>, s: Stream, nextId: nat, n: nat)
    requires Ascending(m, nextId) && 0 < n <= |m| && (forall i | 0 <= i < |m| :: m[i].stream == s)
    ensures Keep(m, Beyond(s, m[n - 1].id)) == m[n..]
  {
    KeepSuffix(m, Beyond(s, m[n - 1].id), n);
  }

  // Raising the cursor to the id of an element drops the elements up to it.
  lemma MatchingAfter<D>(rows: seq<Row<D>>, s: Stream, since: int, nextId: nat, n: nat)
    requires Ascending(rows, nextId) && 0 < n <= |Matching(rows, s, since)|
    ensures Matching(rows, s, Matching(rows, s, since)[n - 1].id) == Matching(rows, s, since)[n..]
  {
    var m := Matching(rows, s, since);
    var id := m[n - 1].id;
    MatchingIn(rows, s, since, nextId);
    KeepTwice(rows, Beyond(s, since), Beyond(s, id));
    KeepSame(rows, Both(Beyond(s, since), Beyond(s, id)), Beyond(s, id));
    SortedSuffix(m, s, nextId, n);
  }

  // ------------------------------------------------------------- the theorem

  ghost predicate TailOk<D>(t: Tail<D>) {
    && Ascending(t.rows, t.nextId)
    && Ascending(t.ever, t.nextId)
    && t.start <= t.cursor
    && (t.cursor < t.nextId || t.cursor == t.start)
    && (forall i | 0 <= i < |t.got| :: t.got[i].id <= t.cursor)
    && (forall id | id in t.missed :: id < t.nextId)
    && t.got + Matching(t.rows, t.s, t.cursor) == Keep(Matching(t.ever, t.s, t.start), NotIn(t.missed))
  }

  lemma InsertKeeps<D>(t: Tail<D>, op: Op<D>)
    requires TailOk(t) && op.Insert?
    ensures TailOk(Apply(t, op))
  {
    var r := Row(t.nextId, op.stream, op.ts, op.data);
    AscendingAppend(t.rows, r);
    AscendingAppend(t.ever, r);
    InsertAccount(t, r);
  }

  lemma AscendingAppend<D>(rows: seq<Row<D>>, r: Row<D>)
    requires Ascending(rows, r.id)
    ensures Ascending(rows + [r], r.id + 1)
  {
  }

  lemma InsertAccount<D>(t: Tail<D>, r: Row<D>)
    requires TailOk(t) && r.id == t.nextId
    ensures t.got + Matching(t.rows + [r], t.s, t.cursor) == Keep(Matching(t.ever + [r], t.s, t.start), NotIn(t.missed))
  {
    var unread, log := Matching(t.rows, t.s, t.cursor), Matching(t.ever, t.s, t.start);
    KeepOne(t.rows, r, Beyond(t.s, t.cursor));
    KeepOne(t.ever, r, Beyond(t.s, t.start));
    assert Beyond(t.s, t.cursor)(r) == Beyond(t.s, t.start)(r);
    if Beyond(t.s, t.start)(r) {
      KeepOne(log, r, NotIn(t.missed));
      assert NotIn(t.missed)(r);
      Associate(t.got, unread, [r]);
    }
  }

  lemma Associate<T>(a: seq<T>, b: seq<T>, c: seq<T>)
    ensures a + (b + c) == a + b + c
  {
  }

  lemma PruneKeeps<D>(t: Tail<D>, op: Op<D>)
    requires TailOk(t) && op.Prune?
    ensures TailOk(Apply(t, op))
  {
    var unread := Matching(t.rows, t.s, t.cursor);
    var more := set r | r in unread && r.ts < op.cutoff :: r.id;
    MatchingIn(t.rows, t.s, t.cursor, t.nextId);
    KeepIn(t.rows, Young(op.cutoff), t.nextId);
    KeepEitherOrder(t.rows, Young(op.cutoff), Beyond(t.s, t.cursor));
    PrunedUnread(unread, more, op.cutoff, t.nextId);
    PrunedLog(t.got, unread, Matching(t.ever, t.s, t.start), t.missed, more);
  }

  // Rows that go missing unread disappear from both sides of the account.
  lemma PrunedLog<D>(got: seq<Row<D>>, unread: seq<Row<D>>, log: seq<Row<D>>, missed: set<nat>, more: set<nat>)
    requires got + unread == Keep(log, NotIn(missed))
    requires forall i | 0 <= i < |got| :: got[i].id !in more
    ensures got + Keep(unread, NotIn(more)) == Keep(log, NotIn(missed + more))
  {
    KeepAll(got, NotIn(more));
    KeepAppend(got, unread, NotIn(more));
    KeepTwice(log, NotIn(missed), NotIn(more));
    KeepSame(log, Both(NotIn(missed), NotIn(more)), NotIn(missed + more));
  }

  // Of the unread rows, dropping those that are too old is keeping the young ones.
  lemma PrunedUnread<D>(unread: seq<Row<D>>, more: set<nat>, cutoff: int, nextId: nat)
    requires Ascending(unread, nextId)
    requires more == set r | r in unread && r.ts < cutoff :: r.id
    ensures Keep(unread, NotIn(more)) == Keep(unread, Young(cutoff))
  {
    forall i | 0 <= i < |unread| ensures unread[i].id in more <==> unread[i].ts < cutoff {
      assert unread[i] in unread;
      if unread[i].id in more {
        var j :| 0 <= j < |unread| && unread[j].ts < cutoff && unread[j].id == unread[i].id;
        assert i == j;
      }
    }
    KeepSame(unread, NotIn(more), Young(cutoff));
  }

  lemma ReadKeeps<D>(t: Tail<D>, op: Op<D>)
    requires TailOk(t) && op.Read?
    ensures TailOk(Apply(t, op))
  {
    var unread := Matching(t.rows, t.s, t.cursor);
    var page := Page(t.rows, t.s, t.cursor, op.limit);
    if page == [] {
      assert t.got + page == t.got;
    } else {
      PageSplits(t, op.limit);
    }
  }

  lemma PageSplits<D>(t: Tail<D>, limit: int)
    requires TailOk(t) && Page(t.rows, t.s, t.cursor, limit) != []
    ensures
      var page := Page(t.rows, t.s, t.cursor, limit);
      && Matching(t.rows, t.s, t.cursor) == page + Matching(t.rows, t.s, Last(page).id)
      && t.cursor < Last(page).id < t.nextId
      && (forall i | 0 <= i < |page| :: page[i].id <= Last(page).id)
  {
    var unread := Matching(t.rows, t.s, t.cursor);
    var page := Page(t.rows, t.s, t.cursor, limit);
    KeepIn(t.rows, Beyond(t.s, t.cursor), t.nextId);
    assert page == unread[..|page|] && unread == page + unread[|page|..];
    MatchingAfter(t.rows, t.s, t.cursor, t.nextId, |page|);
    assert Last(page) in unread;
  }

  /**
   Exactly-once paging.  After any commits, prunings and reads, the pages so far followed by the
   rows still to be read are exactly the stream's rows after the start cursor, in order, less the
   rows that were pruned before a page reached them; and a row that was returned is never among those.
   */
  lemma {:induction false} PagesAreTheStream<D>(t: Tail<D>, ops: seq<Op<D>>)
    requires Starts(t)
    ensures
      var u := Run(t, ops);
      && u.got + Matching(u.rows, t.s, u.cursor) == Keep(Matching(u.ever, t.s, t.start), NotIn(u.missed))
      && (forall i, j | 0 <= i < j < |u.got| :: u.got[i].id < u.got[j].id)
      && (forall i | 0 <= i < |u.got| :: u.got[i].id !in u.missed)
    ensures
      var u := Run(t, ops);
      TailOk(u) && u.start == t.start && u.s == t.s
  {
    if ops == [] {
      KeepAll(Matching(t.ever, t.s, t.start), NotIn(t.missed));
    } else {
      PagesAreTheStream(t, Init(ops));
      var u, op := Run(t, Init(ops)), Last(ops);
      match op {
        case Insert(_, _, _) => InsertKeeps(u, op);
        case Prune(_) => PruneKeeps(u, op);
        case Read(_) => ReadKeeps(u, op);
      }
    }
    GotIsOrdered(Run(t, ops));
  }

  lemma GotIsOrdered<D>(u: Tail<D>)
    requires TailOk(u)
    ensures forall i, j | 0 <= i < j < |u.got| :: u.got[i].id < u.got[j].id
    ensures forall i | 0 <= i < |u.got| :: u.got[i].id !in u.missed
  {
    var log := Matching(u.ever, u.s, u.start);
    var all := Keep(log, NotIn(u.missed));
    KeepIn(u.ever, Beyond(u.s, u.start), u.nextId);
    KeepIn(log, NotIn(u.missed), u.nextId);
    assert forall i | 0 <= i < |u.got| :: u.got[i] == all[i] && all[i] in all;
  }

  /** Over the event log nothing is pruned: the pages are a gapless prefix, and all of it once a page comes back short. */
  lemma {:induction false} SyncIsExactlyOnce<D>(t: Tail<D>, ops: seq<Op<D>>)
    requires Starts(t)
    requires forall i | 0 <= i < |ops| :: !ops[i].Prune?
    ensures
      var u := Run(t, ops);
      && u.rows == u.ever && u.missed == {}
      && u.got + Matching(u.rows, t.s, u.cursor) == Matching(u.rows, t.s, t.start)
    ensures
      var u := Run(t, ops);
      ops != [] && Last(ops).Read? && |u.got| < |Run(t, Init(ops)).got| + PageSize(t.s, Last(ops).limit) ==>
        u.got == Matching(u.rows, t.s, t.start)
  {
    PagesAreTheStream(t, ops);
    if ops != [] {
      SyncIsExactlyOnce(t, Init(ops));
      PagesAreTheStream(t, Init(ops));
      if Last(ops).Read? {
        ShortPage(Run(t, Init(ops)), Last(ops).limit);
      }
    }
    var u := Run(t, ops);
    KeepAll(Matching(u.ever, t.s, t.start), NotIn(u.missed));
  }

  // A page shorter than its limit is everything there was to read.
  lemma ShortPage<D>(t: Tail<D>, limit: int)
    requires t.missed == {} && t.rows == t.ever
    requires t.got + Matching(t.rows, t.s, t.cursor) == Matching(t.rows, t.s, t.start)
    ensures
      var page := Page(t.rows, t.s, t.cursor, limit);
      |page| < PageSize(t.s, limit) ==> t.got + page == Matching(t.rows, t.s, t.start)
  {
  }

  // --------------------------------------------------- what a query returns

  lemma {:induction false} KeepHas<T>(rows: seq<T>, p: T -> bool, x: T)
    ensures x in Keep(rows, p) <==> x in rows && p(x)
  {
    if rows != [] {
      KeepHas(Init(rows), p, x);
      SplitLast(rows);
    }
  }

  /** `r` is one of the rows that the query is asked for. */
  ghost predicate Wanted<D>(rows: seq<Row<D>>, s: Stream, since: int, r: Row<D>) {
    r in rows && r.stream == s && r.id > since
  }

  // The first n of an ascending table are those up to the n-th id.
  lemma FrontHas<D>(m: seq<Row<D>>, nextId: nat, n: nat, r: Row<D>)
    requires Ascending(m, nextId) && 0 < n <= |m| && r in m
    ensures r in m[..n] <==> r.id <= m[n - 1].id
  {
    assert forall j | 0 <= j < n :: m[..n][j].id <= m[n - 1].id;
    assert forall j | n <= j < |m| :: m[n - 1].id < m[j].id;
    if r.id <= m[n - 1].id {
      var i :| 0 <= i < |m| && m[i] == r;
      assert m[..n][i] == r;
    }
  }

  /**
   A page, without its query: wanted rows in ascending order, no more than the limit; it leaves out
   wanted rows only if it is full, and then only those past its last one.
   */
  lemma PageHas<D>(rows: seq<Row<D>>, s: Stream, since: int, limit: int, nextId: nat, r: Row<D>)
    requires Ascending(rows, nextId)
    ensures
      var page := Page(rows, s, since, limit);
      && Ascending(page, nextId) && |page| <= PageSize(s, limit)
      && (r in page <==> Wanted(rows, s, since, r) && (|page| < PageSize(s, limit) || r.id <= Last(page).id))
  {
    var m, page := Matching(rows, s, since), Page(rows, s, since, limit);
    MatchingIn(rows, s, since, nextId);
    KeepHas(rows, Beyond(s, since), r);
    assert Beyond(s, since)(r) <==> r.stream == s && r.id > since;
    if page != m && r in m {
      FrontHas(m, nextId, |page|, r);
    } else if page == m && r in m {
      FrontHas(m, nextId, |m|, r);
      assert m[..|m|] == m;
    }
  }

  /** The head bounds the stream and is one of its ids, or zero for an empty stream. */
  lemma HeadBounds<D>(rows: seq<Row<D>>, s: Stream, nextId: nat)
    requires Ascending(rows, nextId)
    ensures forall r | r in rows && r.stream == s :: r.id <= Head(rows, s)
    ensures Head(rows, s) == 0 || exists r :: r in rows && r.stream == s && r.id == Head(rows, s)
    ensures (forall r | r in rows :: r.stream != s) ==> Head(rows, s) == 0
  {
    NothingBeyondHead(rows, s, nextId);
    MatchingIn(rows, s, -1, nextId);
    forall r | r in rows && r.stream == s ensures r.id <= Head(rows, s) {
      KeepHas(rows, Beyond(s, Head(rows, s)), r);
      assert !Beyond(s, Head(rows, s))(r);
    }
    var all := Matching(rows, s, -1);
    if all != [] {
      assert Last(all) in rows;
    }
  }

  // ---------------------------------------------------- the head as a cursor

  /**
   `sync` also returns the head id, read by a second query on a table that may have grown.  A caller
   that continues from the head never sees the rows after its page, so it loses nothing if and only if
   the head it was given is not past the last id its pages returned.
   */
  lemma HeadCursorLosesTheRest<D>(t: Tail<D>, ops: seq<Op<D>>, limit: int, later: seq<Op<D>>)
    requires Starts(t)
    requires forall i | 0 <= i < |ops| :: !ops[i].Prune?
    requires forall i | 0 <= i < |later| :: later[i].Insert?
    ensures
      var u := Run(Apply(Run(t, ops), Read(limit)), later);
      && u.got + Matching(u.rows, t.s, u.cursor) == Matching(u.rows, t.s, t.start)
      && Matching(u.rows, t.s, Head(u.rows, t.s)) == []
      && (u.got == Matching(u.rows, t.s, t.start) <==> Head(u.rows, t.s) <= Max(0, u.cursor))
  {
    PagesAreTheStream(t, ops);
    SyncIsExactlyOnce(t, ops);
    HeadLoses(Run(t, ops), limit, later);
  }

  lemma HeadLoses<D>(v: Tail<D>, limit: int, later: seq<Op<D>>)
    requires TailOk(v) && v.missed == {} && v.rows == v.ever
    requires forall i | 0 <= i < |later| :: later[i].Insert?
    ensures
      var u := Run(Apply(v, Read(limit)), later);
      && u.got + Matching(u.rows, v.s, u.cursor) == Matching(u.rows, v.s, v.start)
      && Matching(u.rows, v.s, Head(u.rows, v.s)) == []
      && (u.got == Matching(u.rows, v.s, v.start) <==> Head(u.rows, v.s) <= Max(0, u.cursor))
  {
    ReadKeeps(v, Read(limit));
    InsertsKeep(Apply(v, Read(limit)), later);
    var u := Run(Apply(v, Read(limit)), later);
    KeepAll(Matching(u.ever, v.s, v.start), NotIn(u.missed));
    NothingBeyondHead(u.rows, v.s, u.nextId);
    HeadTellsTheRest(u.rows, v.s, u.cursor, u.nextId);
  }

  // Something is left to read after a cursor exactly if the head is past it.
  lemma HeadTellsTheRest<D>(rows: seq<Row<D>>, s: Stream, cursor: int, nextId: nat)
    requires Ascending(rows, nextId)
    ensures Matching(rows, s, cursor) == [] <==> Head(rows, s) <= Max(0, cursor)
  {
    var rest, all := Matching(rows, s, cursor), Matching(rows, s, -1);
    MatchingIn(rows, s, cursor, nextId);
    MatchingIn(rows, s, -1, nextId);
    NothingBeyondHead(rows, s, nextId);
    if rest != [] {
      var last := Last(rest);
      assert last in rows;
      KeepNothing(rows, Beyond(s, Head(rows, s)));
      assert !Beyond(s, Head(rows, s))(last);
    } else if all != [] {
      var last := Last(all);
      assert last in rows;
      KeepNothing(rows, Beyond(s, cursor));
      assert !Beyond(s, cursor)(last);
    }
  }

  /** And it does lose rows: a page of one out of two rows already puts the head past the second. */
  lemma HeadCursorSkipsARow<D>(s: Stream, ts: int, x: D, y: D)
    ensures
      var rows := [Row(1, s, ts, x), Row(2, s, ts, y)];
      && Page(rows, s, 0, 1) == [rows[0]]
      && Head(rows, s) == 2
      && Matching(rows, s, 2) == []
  {
    var r1, r2 := Row(1, s, ts, x), Row(2, s, ts, y);
    var rows := [r1, r2];
    KeepAll(rows, Beyond(s, 0));
    KeepAll(rows, Beyond(s, -1));
    KeepNone(rows, Beyond(s, 2));
  }

  lemma NothingBeyondHead<D>(rows: seq<Row<D>>, s: Stream, nextId: nat)
    requires Ascending(rows, nextId)
    ensures Matching(rows, s, Head(rows, s)) == []
  {
    var all := Matching(rows, s, -1);
    if all == [] {
      KeepNothing(rows, Beyond(s, -1));
      forall i | 0 <= i < |rows| ensures !Beyond(s, 0)(rows[i]) {
        assert !Beyond(s, -1)(rows[i]);
      }
      KeepNone(rows, Beyond(s, 0));
    } else {
      MatchingAfter(rows, s, -1, nextId, |all|);
    }
  }

  lemma {:induction false} InsertsKeep<D>(t: Tail<D>, later: seq<Op<D>>)
    requires TailOk(t) && t.rows == t.ever
    requires forall i | 0 <= i < |later| :: later[i].Insert?
    ensures
      var u := Run(t, later);
      && TailOk(u) && u.cursor == t.cursor && u.start == t.start
      && u.rows == u.ever && u.s == t.s && u.missed == t.missed && u.got == t.got
  {
    if later != [] {
      InsertsKeep(t, Init(later));
      InsertKeeps(Run(t, Init(later)), Last(later));
    }
  }
}
