/**
 Shared knowledge: content-addressed entries that agents add and retract.  The current-entry
 projection and the search index are caches; the contributions table and the event log are the record.

 An entry is identified by its team and its content; tags are a set, already stripped and lower-cased,
 so equal content is equal identity.
 */
module Knowledge {
  import opened Common

  datatype Content = Content(title: string, body: string, tags: set<string>)

  datatype Entry = Entry(team: string, content: Content)

  /** A row of knowledge_contributions. */
  datatype Contribution = Contribution(entry: Entry, author: string, eventId: nat)

  /** A row of knowledge_current. */
  datatype Current = Current(firstAuthor: string, contributors: nat, present: bool, lastEventId: nat)

  datatype Event =
    | Added(entry: Entry, actor: string)
    | Retracted(entry: Entry, actor: string)
    | Elsewhere

  /** `index` holds the rows of the full-text table, which has no key of its own. */
  datatype Base = Base(contributions: seq<Contribution>, current: map<Entry, Current>, index: seq<Entry>, log: seq<Event>)

  const EMPTY := Base([], map[], [], [])

  // COUNT(DISTINCT author_agent) counts these.
  function Authors(rows: seq<Contribution>, e: Entry): set<string> {
    set c | c in rows && c.entry == e :: c.author
  }

  function Unindexed(index: seq<Entry>, e: Entry): seq<Entry> {
    if index == [] then []
    else Unindexed(Init(index), e) + (if Last(index) == e then [] else [Last(index)])
  }

  function Post(b: Base, e: Entry, author: string): Base {
    var id := |b.log| + 1;
    var rows := b.contributions + [Contribution(e, author, id)];
    var n := |Authors(rows, e)|;
    Base(rows,
         b.current[e := if e in b.current then b.current[e].(contributors := n, present := true, lastEventId := id)
                        else Current(author, n, true, id)],
         Unindexed(b.index, e) + [e],
         b.log + [Added(e, author)])
  }

  function Retract(b: Base, e: Entry, agent: string): Base {
    if e !in b.current then b
    else
      b.(current := b.current[e := b.current[e].(present := false, lastEventId := |b.log| + 1)],
      index := Unindexed(b.index, e),
      log := b.log + [Retracted(e, agent)])
  }

  // --------------------------------------------- what the two calls mean

  /** The index has this many rows of `e`, and of every other entry as many as before. */
  ghost predicate Reindexed(index: seq<Entry>, after: seq<Entry>, e: Entry, n: nat) {
    multiset(after)[e] == n && forall q | q != e :: multiset(after)[q] == multiset(index)[q]
  }

  ghost predicate OthersKept(b: Base, after: Base, e: Entry) {
    && (forall q | q != e :: q in after.current <==> q in b.current)
    && (forall q | q in b.current && q != e :: after.current[q] == b.current[q])
  }

  /** `n` is the number of different authors of `e`. */
  ghost predicate CountsAuthors(rows: seq<Contribution>, e: Entry, n: nat) {
    exists authors: set<string> :: |authors| == n &&
      forall a :: a in authors <==> exists i :: 0 <= i < |rows| && rows[i].entry == e && rows[i].author == a
  }

  lemma AuthorsCount(rows: seq<Contribution>, e: Entry)
    ensures CountsAuthors(rows, e, |Authors(rows, e)|)
  {
    forall a ensures a in Authors(rows, e) <==> exists i :: 0 <= i < |rows| && rows[i].entry == e && rows[i].author == a {
      if i :| 0 <= i < |rows| && rows[i].entry == e && rows[i].author == a {
        assert rows[i] in rows;
      }
    }
  }

  /** A post is logged and contributed, and leaves the entry present, counted and indexed once. */
  lemma PostMeans(b: Base, e: Entry, author: string)
    ensures
      var after := Post(b, e, author);
      && after.log == b.log + [Added(e, author)]
      && after.contributions == b.contributions + [Contribution(e, author, |after.log|)]
      && e in after.current && OthersKept(b, after, e)
      && (var row := after.current[e];
          && row.present && row.lastEventId == |after.log| && CountsAuthors(after.contributions, e, row.contributors)
          && row.firstAuthor == (if e in b.current then b.current[e].firstAuthor else author))
      && Reindexed(b.index, after.index, e, 1)
  {
    var after := Post(b, e, author);
    AuthorsCount(after.contributions, e);
    forall q {
      PostIndex(b.index, e, q);
    }
  }

  /** A retraction of a known entry is logged and leaves the entry absent and out of the index, its contributions kept. */
  lemma RetractMeans(b: Base, e: Entry, agent: string)
    ensures
      var after := Retract(b, e, agent);
      if e !in b.current then after == b
      else
        && after.log == b.log + [Retracted(e, agent)]
        && after.contributions == b.contributions
        && OthersKept(b, after, e)
        && e in after.current && after.current[e] == b.current[e].(present := false, lastEventId := |after.log|)
        && Reindexed(b.index, after.index, e, 0)
  {
    forall q {
      UnindexedCounts(b.index, e, q);
    }
  }

  datatype Step = DoPost(e: Entry, author: string) | DoRetract(e: Entry, agent: string) | DoOther

  ghost function Apply(b: Base, s: Step): Base {
    match s
    case DoPost(e, author) => Post(b, e, author)
    case DoRetract(e, agent) => Retract(b, e, agent)
    case DoOther => b.(log := b.log + [Elsewhere])
  }

  ghost function Run(steps: seq<Step>): Base {
    if steps == [] then EMPTY else Apply(Run(Init(steps)), Last(steps))
  }

  // ------------------------------------------------------ reading the record

  /** The additions the log records, with their event ids. */
  ghost function Additions(log: seq<Event>): seq<Contribution> {
    if log == [] then []
    else Additions(Init(log)) + (if Last(log).Added? then [Contribution(Last(log).entry, Last(log).actor, |log|)] else [])
  }

  /** The id of the latest event that added or retracted `e`; zero if there is none. */
  ghost function LatestId(log: seq<Event>, e: Entry): nat {
    if log == [] then 0
    else if !Last(log).Elsewhere? && Last(log).entry == e then |log|
    else LatestId(Init(log), e)
  }

  ghost predicate AddedLast(log: seq<Event>, e: Entry) {
    LatestId(log, e) > 0 && LatestId(log, e) <= |log| && log[LatestId(log, e) - 1].Added?
  }

  /** The author of the first contribution to `e`. */
  ghost function FirstAuthor(rows: seq<Contribution>, e: Entry): Option<string> {
    if rows == [] then None
    else
      var before := FirstAuthor(Init(rows), e);
      if before.Some? then before else if Last(rows).entry == e then Some(Last(rows).author) else None
  }

  ghost predicate EntryOk(b: Base, e: Entry) {
    && (e in b.current <==> LatestId(b.log, e) > 0)
    && (e in b.current ==>
          && (b.current[e].present <==> AddedLast(b.log, e))
          && b.current[e].lastEventId == LatestId(b.log, e)
          && b.current[e].contributors == |Authors(b.contributions, e)|
          && FirstAuthor(b.contributions, e) == Some(b.current[e].firstAuthor))
    && (e !in b.current ==> FirstAuthor(b.contributions, e) == None)
    && multiset(b.index)[e] == (if e in b.current && b.current[e].present then 1 else 0)
  }

  lemma {:induction false} UnindexedCounts(index: seq<Entry>, e: Entry, q: Entry)
    ensures multiset(Unindexed(index, e))[q] == if q == e then 0 else multiset(index)[q]
  {
    if index != [] {
      var front, last := Init(index), Last(index);
      UnindexedCounts(front, e, q);
      assert index == front + [last];
      assert multiset(index) == multiset(front) + multiset{last};
    }
  }

  lemma {:induction false} LatestInRange(log: seq<Event>, e: Entry)
    ensures LatestId(log, e) <= |log|
  {
    if log != [] {
      LatestInRange(Init(log), e);
    }
  }

  // One event appended: it is the latest about its own entry and changes nothing for others.
  lemma LogAppend(log: seq<Event>, ev: Event, e: Entry)
    ensures
      var after := log + [ev];
      if !ev.Elsewhere? && ev.entry == e then LatestId(after, e) == |log| + 1 && (AddedLast(after, e) <==> ev.Added?)
      else LatestId(after, e) == LatestId(log, e) && (AddedLast(after, e) <==> AddedLast(log, e))
  {
    assert Init(log + [ev]) == log;
    LatestInRange(log, e);
  }

  // A post leaves one index row for its entry and the others as they were.
  lemma PostIndex(index: seq<Entry>, e: Entry, q: Entry)
    ensures multiset(Unindexed(index, e) + [e])[q] == if q == e then 1 else multiset(index)[q]
  {
    UnindexedCounts(index, e, q);
    assert multiset(Unindexed(index, e) + [e]) == multiset(Unindexed(index, e)) + multiset{e};
  }

  // Adding a row changes only what is known of its own entry.
  lemma OneContribution(rows: seq<Contribution>, row: Contribution, q: Entry)
    requires q != row.entry
    ensures Authors(rows + [row], q) == Authors(rows, q) && FirstAuthor(rows + [row], q) == FirstAuthor(rows, q)
  {
    assert Init(rows + [row]) == rows;
  }

  lemma PostKeeps(b: Base, e: Entry, author: string, q: Entry)
    requires EntryOk(b, q)
    ensures EntryOk(Post(b, e, author), q)
  {
    var after := Post(b, e, author);
    var row := Last(after.contributions);
    LogAppend(b.log, Added(e, author), q);
    PostIndex(b.index, e, q);
    if q == e {
      assert Init(after.contributions) == b.contributions;
    } else {
      OneContribution(b.contributions, row, q);
    }
  }

  lemma RetractKeeps(b: Base, e: Entry, agent: string, q: Entry)
    requires EntryOk(b, q)
    ensures EntryOk(Retract(b, e, agent), q)
  {
    if e in b.current {
      LogAppend(b.log, Retracted(e, agent), q);
      UnindexedCounts(b.index, e, q);
    }
  }

  lemma AdditionsAppend(log: seq<Event>, e: Event)
    ensures Additions(log + [e]) == Additions(log) + (if e.Added? then [Contribution(e.entry, e.actor, |log| + 1)] else [])
  {
    assert Init(log + [e]) == log;
  }

  lemma StepAdds(b: Base, s: Step)
    requires b.contributions == Additions(b.log)
    ensures Apply(b, s).contributions == Additions(Apply(b, s).log)
  {
    match s
    case DoPost(x, author) => AdditionsAppend(b.log, Added(x, author));
    case DoRetract(x, agent) => AdditionsAppend(b.log, Retracted(x, agent));
    case DoOther => AdditionsAppend(b.log, Elsewhere);
  }

  lemma StepKeeps(b: Base, s: Step, e: Entry)
    requires EntryOk(b, e)
    ensures EntryOk(Apply(b, s), e)
  {
    match s
    case DoPost(x, author) => PostKeeps(b, x, author, e);
    case DoRetract(x, agent) => RetractKeeps(b, x, agent, e);
    case DoOther => LogAppend(b.log, Elsewhere, e);
  }

  /**
   The caches agree with the record in every reachable state, for every entry: the contributions are
   the additions in the log; an entry is present exactly when the latest event about it added it; its
   contributors are the distinct authors; its first author wrote the first contribution; and the
   search index holds one row for it if it is present and none otherwise.
   */
  lemma {:induction false} CachesAgree(steps: seq<Step>, e: Entry)
    ensures Run(steps).contributions == Additions(Run(steps).log)
    ensures EntryOk(Run(steps), e)
  {
    if steps != [] {
      CachesAgree(Init(steps), e);
      StepAdds(Run(Init(steps)), Last(steps));
      StepKeeps(Run(Init(steps)), Last(steps), e);
    }
  }

  // ---------------------------------------------------------------- the store

  datatype Posted = Posted(eventId: nat, deduped: bool, contributors: nat)

  class KnowledgeStore {
    var contributions: seq<Contribution>
    var current: map<Entry, Current>
    var index: seq<Entry>
    var log: seq<Event>

    constructor ()
      ensures View() == EMPTY
    {
      contributions, current, index, log := [], map[], [], [];
    }

    ghost function View(): Base
      reads this
    {
      Base(contributions, current, index, log)
    }

    method PostKnowledge(e: Entry, author: string) returns (reply: Posted)
      modifies this
      ensures View() == Post(old(View()), e, author)
      ensures log == old(log) + [Added(e, author)] && e in current && current[e].present
      ensures reply == Posted(|log|, e in old(current), current[e].contributors)
      ensures CountsAuthors(contributions, e, reply.contributors)
    {
      PostMeans(View(), e, author);
      log := log + [Added(e, author)];
      var eid := |log|;
      contributions := contributions + [Contribution(e, author, eid)];
      var n := |Authors(contributions, e)|;
      var deduped := e in current;
      if deduped {
        current := current[e := current[e].(contributors := n, present := true, lastEventId := eid)];
      } else {
        current := current[e := Current(author, n, true, eid)];
      }
      index := Unindexed(index, e);
      index := index + [e];
      reply := Posted(eid, deduped, n);
    }

    method RetractKnowledge(e: Entry, agent: string) returns (eventId: Option<nat>)
      modifies this
      ensures View() == Retract(old(View()), e, agent)
      ensures if e in old(current)
              then log == old(log) + [Retracted(e, agent)] && eventId == Some(|log|) && e in current && !current[e].present
              else eventId == None && View() == old(View())
    {
      if e !in current {
        return None;
      }
      log := log + [Retracted(e, agent)];
      current := current[e := current[e].(present := false, lastEventId := |log|)];
      index := Unindexed(index, e);
      eventId := Some(|log|);
    }
  }
}
