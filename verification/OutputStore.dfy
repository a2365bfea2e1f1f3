/**
 The agent_output table as the server keeps it: appended chunks with tags that are dropped
 unless they refer to the writer's own team and thread, tailing by cursor, and pruning.
 Each method is proved to be the operation of `Paging` of that name for every reader of the table,
 so `Paging.PagesAreTheStream` holds of tailing this store.
 */
module OutputStore {
  import opened Common
  import opened Paging

  datatype Chunk = Chunk(text: string, source: string, directive: Option<string>, session: Option<string>)

  datatype Thread = Thread(team: string, session: string, agent: string)

  datatype DirectiveRef = DirectiveRef(team: string, id: string)

  // The tags a chunk keeps: a directive of this team, a session of this team and this agent.
  function Tagged(team: string, agent: string, c: Chunk, directives: set<DirectiveRef>, threads: set<Thread>): Chunk {
    c.(directive := if c.directive.Some? && DirectiveRef(team, c.directive.value) in directives then c.directive else None,
    session := if c.session.Some? && Thread(team, c.session.value, agent) in threads then c.session else None)
  }

  /** A tag is kept exactly if it refers to a directive of the team, or to a session of the team that is the agent's own. */
  lemma TagsMean(team: string, agent: string, c: Chunk, directives: set<DirectiveRef>, threads: set<Thread>)
    ensures
      var kept := Tagged(team, agent, c, directives, threads);
      && kept.text == c.text && kept.source == c.source
      && (kept.directive == c.directive || kept.directive == None)
      && (kept.session == c.session || kept.session == None)
      && (forall d | c.directive == Some(d) :: kept.directive == Some(d) <==> DirectiveRef(team, d) in directives)
      && (forall s | c.session == Some(s) :: kept.session == Some(s) <==> Thread(team, s, agent) in threads)
  {
  }

  /** A reader's tail of a table with these rows. */
  ghost predicate TailOf(t: Tail<Chunk>, rows: seq<Row<Chunk>>, nextId: nat) {
    t.rows == rows && t.nextId == nextId
  }

  /** Insertions and prunings, as other callers make them. */
  predicate Others(ops: seq<Op<Chunk>>) {
    forall i | 0 <= i < |ops| :: !ops[i].Read?
  }

  /** A page, without its query: the rows past the cursor in order, leaving one out only past the last of a full page. */
  ghost predicate PageOf(rows: seq<Row<Chunk>>, s: Stream, since: int, limit: int, page: seq<Row<Chunk>>) {
    && (forall i, j | 0 <= i < j < |page| :: page[i].id < page[j].id)
    && |page| <= PageSize(s, limit)
    && (forall r :: r in page <==> Wanted(rows, s, since, r) && (|page| < PageSize(s, limit) || r.id <= Last(page).id))
  }

  /** The head: it bounds the stream and is one of its ids, or zero. */
  ghost predicate HeadOf(rows: seq<Row<Chunk>>, s: Stream, head: int) {
    && (forall r | r in rows && r.stream == s :: r.id <= head)
    && (head == 0 || exists r :: r in rows && r.stream == s && r.id == head)
  }

  // The head is below a page's last id only if the rows from that id on are gone.
  lemma HeadBelow(rows: seq<Row<Chunk>>, s: Stream, head: int, id: nat)
    requires HeadOf(rows, s, head) && id > 0
    ensures head < id <==> forall r | r in rows && r.stream == s :: r.id < id
  {
  }

  /** And that can happen: a row that is read and pruned before the head is asked for leaves the head at zero. */
  lemma HeadFallsBehind(r: Row<Chunk>)
    requires r.id > 0
    ensures Page([r], r.stream, 0, 1) == [r] && Head(Keep([r], Young(r.ts + 1)), r.stream) == 0
  {
    KeepAll([r], Beyond(r.stream, 0));
    KeepNone([r], Young(r.ts + 1));
    assert Matching([r], r.stream, 0) == [r] && PageSize(r.stream, 1) == 1;
    NothingLeft(r.stream);
  }

  lemma NothingLeft(s: Stream)
    ensures Head<Chunk>([], s) == 0
  {
  }

  class OutputStore {
    var rows: seq<Row<Chunk>>
    var nextId: nat
    const maxChunk: nat

    ghost predicate Valid()
      reads this
    {
      Ascending(rows, nextId)
    }

    constructor (maxChunk: nat)
      ensures Valid() && rows == [] && nextId == 1 && this.maxChunk == maxChunk
    {
      rows, nextId, this.maxChunk := [], 1, maxChunk;
    }

    method AppendOutput(team: string, agent: string, c: Chunk, directives: set<DirectiveRef>, threads: set<Thread>, now: int)
      returns (seqNo: nat)
      requires Valid()
      modifies this
      ensures Valid() && seqNo == old(nextId)
      ensures
        var kept := Tagged(team, agent, c, directives, threads).(text := Take(c.text, maxChunk));
        && rows == old(rows) + [Row(seqNo, AgentOutput(team, agent), now, kept)] && nextId == seqNo + 1
        && (forall t | TailOf(t, old(rows), old(nextId)) :: TailOf(Apply(t, Insert(AgentOutput(team, agent), now, kept)), rows, nextId))
    {
      var text := Take(c.text, maxChunk);
      var directive, session := c.directive, c.session;
      if directive.Some? && DirectiveRef(team, directive.value) !in directives {
        directive := None;
      }
      if session.Some? && Thread(team, session.value, agent) !in threads {
        session := None;
      }
      seqNo := nextId;
      rows := rows + [Row(nextId, AgentOutput(team, agent), now, Chunk(text, c.source, directive, session))];
      nextId := nextId + 1;
    }

    // What other callers do to the table in the meantime.
    method Meanwhile(ops: seq<Op<Chunk>>, ghost t: Tail<Chunk>)
      requires Valid() && TailOf(t, rows, nextId) && Others(ops)
      modifies this`rows, this`nextId
      ensures Valid() && TailOf(Run(t, ops), rows, nextId)
      ensures Run(t, ops).cursor == t.cursor && Run(t, ops).got == t.got && Run(t, ops).s == t.s
    {
      var i := 0;
      while i < |ops|
        invariant 0 <= i <= |ops| && Valid() && TailOf(Run(t, ops[..i]), rows, nextId)
        invariant Run(t, ops[..i]).cursor == t.cursor && Run(t, ops[..i]).got == t.got && Run(t, ops[..i]).s == t.s
      {
        assert Init(ops[..i + 1]) == ops[..i];
        match ops[i] {
          case Insert(stream, ts, data) =>
            AscendingAppend(rows, Row(nextId, stream, ts, data));
            rows, nextId := rows + [Row(nextId, stream, ts, data)], nextId + 1;
          case Prune(cutoff) =>
            KeepIn(rows, Young(cutoff), nextId);
            rows := Keep(rows, Young(cutoff));
        }
        i := i + 1;
      }
      assert ops[..i] == ops;
    }

    // One query for a page: for a reader at this cursor its next page, with the rows asked for and none skipped.
    method ReadPage(team: string, agent: string, since: int, limit: int) returns (page: seq<Row<Chunk>>)
      requires Valid()
      ensures page == Page(rows, AgentOutput(team, agent), since, limit)
      ensures PageOf(rows, AgentOutput(team, agent), since, limit, page)
      ensures page != [] ==> Last(page).id > 0
      ensures forall t | TailOf(t, rows, nextId) && t.s == AgentOutput(team, agent) && t.cursor == since ::
        Apply(t, Read(limit)).got == t.got + page && TailOf(Apply(t, Read(limit)), rows, nextId)
    {
      page := Page(rows, AgentOutput(team, agent), since, limit);
      forall r {
        PageHas(rows, AgentOutput(team, agent), since, limit, nextId, r);
      }
    }

    method ReadHead(team: string, agent: string) returns (head: int)
      requires Valid()
      ensures HeadOf(rows, AgentOutput(team, agent), head)
    {
      head := Head(rows, AgentOutput(team, agent));
      HeadBounds(rows, AgentOutput(team, agent), nextId);
    }

    /**
     get_output, for any reader `t` of this agent's output.  Other callers' operations fall where it waits, if
     its first read is empty and the wait does not time out, and again before it asks for the head.
     */
    method GetOutput(team: string, agent: string, since: int, limit: int, wakes: bool,
                     waited: seq<Op<Chunk>>, before: seq<Op<Chunk>>, ghost t: Tail<Chunk>)
      returns (page: seq<Row<Chunk>>, head: int, ghost u: Tail<Chunk>)
      requires Valid() && Others(waited) && Others(before)
      requires TailOf(t, rows, nextId) && t.s == AgentOutput(team, agent) && t.cursor == since
      modifies this`rows, this`nextId
      ensures Valid()
      ensures u == if wakes && Page(t.rows, t.s, since, limit) == [] then Run(t, waited) else t
      ensures PageOf(u.rows, t.s, since, limit, page)
      ensures
        var v := Run(Apply(u, Read(limit)), before);
        TailOf(v, rows, nextId) && v.got == t.got + page
      ensures HeadOf(rows, t.s, head)
      ensures page != [] ==> (head < Last(page).id <==> forall r | r in rows && r.stream == t.s :: r.id < Last(page).id)
    {
      u := t;
      page := ReadPage(team, agent, since, limit);
      if page == [] && wakes {
        Meanwhile(waited, t);
        u := Run(t, waited);
        page := ReadPage(team, agent, since, limit);
      }
      Meanwhile(before, Apply(u, Read(limit)));
      head := ReadHead(team, agent);
      if page != [] {
        HeadBelow(rows, t.s, head, Last(page).id);
      }
    }

    method PruneExpired(cutoff: int) returns (deleted: nat)
      requires Valid()
      modifies this`rows
      ensures Valid() && deleted == |old(rows)| - |rows|
      ensures rows == Keep(old(rows), Young(cutoff))
      ensures forall t | TailOf(t, old(rows), nextId) :: TailOf(Apply(t, Prune(cutoff)), rows, nextId)
    {
      KeepIn(rows, Young(cutoff), nextId);
      KeepShorter(rows, Young(cutoff));
      var kept := Keep(rows, Young(cutoff));
      deleted := |rows| - |kept|;
      rows := kept;
    }
  }

  lemma {:induction false} KeepShorter<T>(rows: seq<T>, p: T -> bool)
    ensures |Keep(rows, p)| <= |rows|
  {
    if rows != [] {
      KeepShorter(Init(rows), p);
    }
  }
}
