/**
 Long-polling `sync`, `get_output`, `inbox` and `wait_directive`: arm the team's generation, read, wait for
 the generation to move, read again.  Commits, directive calls, publications, ticks, prunings and the
 caller's own steps interleave freely.  The publication of a commit runs after the lock is released, so
 publications may be out of commit order, and in one batch one team's bump may be separated from the next
 team's.  An output chunk is announced the same way, by a tick that runs after its commit.
 */
module LongPoll {
  import opened Common
  import Bus = Directives

  /** What a caller asks for: events or output past a cursor, its open directives, or the end of one directive. */
  datatype Query =
    | Events(team: string, since: int)
    | Output(team: string, agent: string, since: int)
    | Inbox(team: string, agent: string, running: bool)
    | Outcome(team: string, id: string)

  /** What a read can return: an event, an output chunk, a directive that was sent, a directive that ended. */
  datatype Item = Event(n: nat) | Chunk(agent: string, n: nat) | Sent(id: string) | Ended(id: string)

  /** What a transaction still has to tell a team. */
  datatype Notice = Notice(team: string, items: set<Item>)

  /**
   Where the caller is.  `Entering` has read nothing and not looked at the generation again yet; a
   `Woken` caller is bound to read again; an `Expired` one is bound to come back with nothing.
   */
  datatype Phase =
    | Idle
    | Armed(gen0: nat)
    | Entering(gen0: nat)
    | Waiting(gen0: nat)
    | Woken
    | Expired
    | Returned(found: set<Item>)

  /** The long-polling caller: its query and limit, whether it asked to wait, and how far it is. */
  datatype Caller = Caller(query: Query, limit: int, waits: bool, phase: Phase)

  datatype ChunkRow = ChunkRow(team: string, agent: string, n: nat)

  /** `events[i]` is the team of event i+1; `gen` is the hub's counter, zero for a team it has not seen. */
  datatype World = World(
    events: seq<string>, chunks: set<ChunkRow>, nextChunk: nat, bus: Bus.Bus,
    pending: seq<Notice>, gen: map<string, nat>, caller: Caller)

  /** `page` is what the database returns to a read; a read that names anything but a page does not happen. */
  datatype Step =
    | Commit(batch: seq<string>)
    | Append(team: string, agent: string)
    | Prune(gone: set<nat>)
    | Call(call: Bus.Step)
    | Publish(i: nat)
    | Tick(team: string)
    | Arm
    | Read(page: set<Item>)
    | Enter
    | Expire
    | GiveUp
    | Reread(page: set<Item>)

  function GenOf(gen: map<string, nat>, team: string): nat {
    if team in gen then gen[team] else 0
  }

  function Bump(gen: map<string, nat>, team: string): map<string, nat> {
    gen[team := GenOf(gen, team) + 1]
  }

  // ----------------------------------------------------------------- queries

  predicate Listed(d: Bus.Directive, team: string, agent: string, running: bool) {
    d.team == team && d.receiver == agent && (d.status == Bus.Pending || (running && d.status == Bus.Running))
  }

  /** All the items that satisfy a query. */
  ghost function Visible(w: World, q: Query): set<Item> {
    match q
    case Events(team, since) => set i: nat | i < |w.events| && w.events[i] == team && i + 1 > since :: Event(i + 1)
    case Output(team, agent, since) =>
      set r | r in w.chunks && r.team == team && r.agent == agent && r.n > since :: Chunk(r.agent, r.n)
    case Inbox(team, agent, running) =>
      set id | id in w.bus.table && Listed(w.bus.table[id], team, agent, running) :: Sent(id)
    case Outcome(team, id) =>
      if id in w.bus.table && w.bus.table[id].team == team && Bus.Terminal(w.bus.table[id].status) then {Ended(id)} else {}
  }

  /** The query's order: by id, or by priority and then age. */
  ghost predicate Before(w: World, i: Item, j: Item) {
    match (i, j)
    case (Event(m), Event(n)) => m < n
    case (Chunk(_, m), Chunk(_, n)) => m < n
    case (Sent(a), Sent(b)) =>
      && a in w.bus.table && b in w.bus.table
      && (var d, e := w.bus.table[a], w.bus.table[b];
          d.priority > e.priority || (d.priority == e.priority && d.createdAt < e.createdAt))
    case _ => false
  }

  // The clamp each query puts on the caller's limit.
  function Limit(c: Caller): (n: nat)
    ensures n >= 1
  {
    match c.query
    case Events(_, _) => ClampLimit(c.limit, 200, 1000)
    case Output(_, _, _) => ClampLimit(c.limit, 200, 500)
    case Inbox(_, _, _) => ClampLimit(c.limit, 20, 100)
    case Outcome(_, _) => 1
  }

  /** A limit between one and the query's cap is honoured, and zero means its default. */
  lemma LimitsMean(c: Caller)
    requires !c.query.Outcome?
    ensures
      var cap := if c.query.Events? then 1000 else if c.query.Output? then 500 else 100;
      && (1 <= c.limit <= cap ==> Limit(c) == c.limit)
      && (c.limit == 0 ==> Limit(c) == if c.query.Inbox? then 20 else 200)
      && (c.limit < 0 ==> Limit(c) == 1)
      && (c.limit > cap ==> Limit(c) == cap)
  {
  }

  /** A page the database may return: as many items as the limit allows, none of them beaten by an item left out. */
  ghost predicate IsPage(w: World, c: Caller, page: set<Item>) {
    var all := Visible(w, c.query);
    && page <= all
    && |page| == Min(|all|, Limit(c))
    && (forall i, j | i in page && j in all && j !in page :: !Before(w, j, i))
  }

  lemma {:induction false} SomeFirst(w: World, items: set<Item>) returns (first: Item)
    requires items != {}
    ensures first in items && (forall j | j in items :: !Before(w, j, first))
  {
    var i :| i in items;
    if items == {i} {
      first := i;
    } else {
      var rest := SomeFirst(w, items - {i});
      first := if Before(w, i, rest) then i else rest;
      assert forall j | j in items :: j == i || (j in items - {i} && !Before(w, j, rest));
    }
  }

  lemma {:induction false} FirstItems(w: World, items: set<Item>, n: nat) returns (page: set<Item>)
    requires n <= |items|
    ensures page <= items && |page| == n
    ensures forall i, j | i in page && j in items && j !in page :: !Before(w, j, i)
  {
    if n == 0 {
      page := {};
    } else {
      var front := FirstItems(w, items, n - 1);
      assert |items - front| == |items| - |front|;
      var next := SomeFirst(w, items - front);
      page := front + {next};
    }
  }

  /** A read always has an answer. */
  lemma PageExists(w: World, c: Caller) returns (page: set<Item>)
    ensures IsPage(w, c, page)
  {
    page := FirstItems(w, Visible(w, c.query), Min(|Visible(w, c.query)|, Limit(c)));
  }

  /** A page leaves an item out only if it is full, and the item does not come before anything on it. */
  ghost predicate Covers(w: World, c: Caller, page: set<Item>, item: Item) {
    && page != {}
    && (item in page || (|page| == Limit(c) && forall i | i in page :: !Before(w, item, i)))
  }

  lemma PageCovers(w: World, c: Caller, page: set<Item>, item: Item)
    requires IsPage(w, c, page) && item in Visible(w, c.query)
    ensures Covers(w, c, page, item)
  {
    var all := Visible(w, c.query);
    assert |{item}| <= |all| by {
      Subset({item}, all);
    }
    if item !in page {
      Subset(page + {item}, all);
    }
  }

  lemma Subset(a: set<Item>, b: set<Item>)
    requires a <= b
    ensures |a| <= |b|
  {
    assert |b - a| == |b| - |a|;
  }

  // ------------------------------------------------------------------- steps

  // The items that a batch adds to the log for one team.
  function EventsOf(batch: seq<string>, first: nat, team: string): set<Item> {
    set i: nat | i < |batch| && batch[i] == team :: Event(first + i)
  }

  // One notice for each team that has events among the first n of the batch.
  function Notices(batch: seq<string>, first: nat, n: nat): seq<Notice>
    requires n <= |batch|
  {
    if n == 0 then []
    else
      var team := batch[n - 1];
      Notices(batch, first, n - 1) + (if team in batch[..n - 1] then [] else [Notice(team, EventsOf(batch, first, team))])
  }

  // What a directive call makes visible besides its event.
  ghost function Told(b: Bus.Bus, call: Bus.Step): set<Item>
    requires !call.DoOther?
  {
    var told := Bus.Told(b, call, call.id);
    if told == [Bus.Sent] then {Sent(call.id)}
    else if told != [] && told[0].Ended? then {Ended(call.id)}
    else {}
  }

  /** One bump of a team's generation, with the notification of its waiter. */
  function Bumped(w: World, team: string): World {
    var gen, c := Bump(w.gen, team), w.caller;
    var wakes := c.phase.Waiting? && GenOf(gen, c.query.team) > c.phase.gen0;
    w.(gen := gen, caller := if wakes then c.(phase := Woken) else c)
  }

  // `wait_directive` answers at once about a directive it does not know.
  predicate Waits(w: World, c: Caller) {
    c.waits && (c.query.Outcome? ==> c.query.id in w.bus.table && w.bus.table[c.query.id].team == c.query.team)
  }

  ghost function Apply(w: World, s: Step): World {
    var c := w.caller;
    match s
    case Commit(batch) =>
      w.(events := w.events + batch, pending := w.pending + Notices(batch, |w.events| + 1, |batch|))
    case Append(team, agent) =>
      w.(chunks := w.chunks + {ChunkRow(team, agent, w.nextChunk)}, nextChunk := w.nextChunk + 1,
      pending := w.pending + [Notice(team, {Chunk(agent, w.nextChunk)})])
    case Prune(gone) => w.(chunks := set r | r in w.chunks && r.n !in gone)
    case Call(call) =>
      if call.DoOther? || Bus.Told(w.bus, call, call.id) == [] then w
      else
        w.(bus := Bus.Apply(w.bus, call), events := w.events + [call.c.team],
        pending := w.pending + [Notice(call.c.team, {Event(|w.events| + 1)} + Told(w.bus, call))])
    case Publish(i) =>
      if i < |w.pending| then Bumped(w.(pending := w.pending[..i] + w.pending[i + 1..]), w.pending[i].team) else w
    case Tick(team) => Bumped(w, team)
    case Arm => if c.phase.Idle? then w.(caller := c.(phase := Armed(GenOf(w.gen, c.query.team)))) else w
    case Read(page) =>
      if c.phase.Armed? && IsPage(w, c, page) then
        w.(caller := c.(phase := if page == {} && Waits(w, c) then Entering(c.phase.gen0) else Returned(page)))
      else w
    case Enter =>
      if c.phase.Entering? then
        w.(caller := c.(phase := if GenOf(w.gen, c.query.team) > c.phase.gen0 then Woken else Waiting(c.phase.gen0)))
      else w
    case Expire => if c.phase.Waiting? then w.(caller := c.(phase := Expired)) else w
    case GiveUp => if c.phase.Expired? then w.(caller := c.(phase := Returned({}))) else w
    case Reread(page) =>
      if c.phase.Woken? && IsPage(w, c, page) then w.(caller := c.(phase := Returned(page))) else w
  }

  ghost function Run(w: World, steps: seq<Step>): World {
    if steps == [] then w else Apply(Run(w, Init(steps)), Last(steps))
  }

  // Committed, and its transaction has not told the team yet.
  ghost predicate Unpublished(w: World, team: string, item: Item) {
    exists i | 0 <= i < |w.pending| :: w.pending[i].team == team && item in w.pending[i].items
  }

  /** A committed and published item the caller has not been given. */
  ghost predicate Missed(w: World, item: Item) {
    item in Visible(w, w.caller.query) && !Unpublished(w, w.caller.query.team, item)
  }

  /**
   A caller that has read nothing misses nothing until its generation moves, and one that is
   still waiting has not seen it move.
   */
  ghost predicate NothingLost(w: World) {
    var gen := GenOf(w.gen, w.caller.query.team);
    match w.caller.phase
    case Armed(gen0) => gen0 <= gen
    case Entering(gen0) => gen0 <= gen && (gen == gen0 ==> forall item :: !Missed(w, item))
    case Waiting(gen0) => gen == gen0 && forall item :: !Missed(w, item)
    case _ => true
  }

  lemma {:induction false} NoticesCover(batch: seq<string>, first: nat, n: nat, team: string)
    requires n <= |batch| && team in batch[..n]
    ensures Notice(team, EventsOf(batch, first, team)) in Notices(batch, first, n)
  {
    if team in batch[..n - 1] {
      NoticesCover(batch, first, n - 1, team);
    } else {
      assert batch[..n] == batch[..n - 1] + [batch[n - 1]];
    }
  }

  // Adding notices publishes nothing.
  lemma StaysUnpublished(w: World, after: World, more: seq<Notice>, team: string, item: Item)
    requires after.pending == w.pending + more && Unpublished(w, team, item)
    ensures Unpublished(after, team, item)
  {
    var i :| 0 <= i < |w.pending| && w.pending[i].team == team && item in w.pending[i].items;
    assert after.pending[i] == w.pending[i];
  }

  // A notice that was just added is pending.
  lemma JustAdded(w: World, after: World, notice: Notice, item: Item)
    requires after.pending == w.pending + [notice] && item in notice.items
    ensures Unpublished(after, notice.team, item)
  {
    assert after.pending[|w.pending|] == notice;
  }

  // Every event that a commit adds is unpublished.
  lemma CommitIsUnpublished(w: World, batch: seq<string>, k: nat)
    requires k < |batch|
    ensures Unpublished(Apply(w, Commit(batch)), batch[k], Event(|w.events| + 1 + k))
  {
    var after, ns := Apply(w, Commit(batch)), Notices(batch, |w.events| + 1, |batch|);
    assert batch[..|batch|] == batch;
    NoticesCover(batch, |w.events| + 1, |batch|, batch[k]);
    var j :| 0 <= j < |ns| && ns[j] == Notice(batch[k], EventsOf(batch, |w.events| + 1, batch[k]));
    assert after.pending[|w.pending| + j] == ns[j];
  }

  lemma EventsAdded(w: World, s: Step, team: string, since: int, item: Item)
    requires s.Commit? || s.Call?
    requires item in Visible(Apply(w, s), Events(team, since)) && item !in Visible(w, Events(team, since))
    ensures Unpublished(Apply(w, s), team, item)
  {
    var after := Apply(w, s);
    var i: nat :| i < |after.events| && after.events[i] == team && item == Event(i + 1);
    assert forall j: nat | j < |w.events| :: after.events[j] == w.events[j];
    if s.Commit? {
      CommitIsUnpublished(w, s.batch, i - |w.events|);
    } else {
      CallEvent(w, s, i);
    }
  }

  lemma CallEvent(w: World, s: Step, i: nat)
    requires s.Call? && |w.events| <= i < |Apply(w, s).events|
    ensures Unpublished(Apply(w, s), Apply(w, s).events[i], Event(i + 1))
  {
    JustAdded(w, Apply(w, s), Last(Apply(w, s).pending), Event(i + 1));
  }

  // A directive call changes the listing or the end of its own directive only.
  lemma DirectiveTold(w: World, s: Step, q: Query, item: Item)
    requires s.Call? && (q.Inbox? || q.Outcome?)
    requires item in Visible(Apply(w, s), q) && item !in Visible(w, q)
    ensures Unpublished(Apply(w, s), q.team, item)
  {
    var after, id := Apply(w, s), item.id;
    Bus.StepRow(w.bus, s.call, id);
    assert id == s.call.id && item in Told(w.bus, s.call);
    JustAdded(w, after, Last(after.pending), item);
  }

  /** Whatever a step makes visible to a query is unpublished after it, until its own publication or tick. */
  lemma NewIsUnpublished(w: World, s: Step, q: Query, item: Item)
    requires item in Visible(Apply(w, s), q) && item !in Visible(w, q)
    ensures Unpublished(Apply(w, s), q.team, item)
  {
    if q.Events? {
      EventsAdded(w, s, q.team, q.since, item);
    } else if q.Output? {
      JustAdded(w, Apply(w, s), Last(Apply(w, s).pending), item);
    } else {
      DirectiveTold(w, s, q, item);
    }
  }

  // Publishing a notice to another team makes nothing of this team published.
  lemma OtherPublish(w: World, i: nat, team: string, item: Item)
    requires i < |w.pending| && w.pending[i].team != team && Unpublished(w, team, item)
    ensures Unpublished(Apply(w, Publish(i)), team, item)
  {
    var after := Apply(w, Publish(i));
    var j :| 0 <= j < |w.pending| && w.pending[j].team == team && item in w.pending[j].items;
    assert after.pending[if j < i then j else j - 1] == w.pending[j];
  }

  lemma UnpublishedStays(w: World, s: Step, team: string, item: Item)
    requires s.Publish? && s.i < |w.pending| ==> w.pending[s.i].team != team
    requires Unpublished(w, team, item)
    ensures Unpublished(Apply(w, s), team, item)
  {
    if s.Publish? && s.i < |w.pending| {
      OtherPublish(w, s.i, team, item);
    } else {
      var after := Apply(w, s);
      var more := after.pending[|w.pending|..];
      assert after.pending == w.pending + more;
      StaysUnpublished(w, after, more, team, item);
    }
  }

  // Only a publication to the caller's own team can make it miss something new.
  lemma NothingNewMissed(w: World, s: Step, item: Item)
    requires s.Publish? && s.i < |w.pending| ==> w.pending[s.i].team != w.caller.query.team
    ensures Missed(Apply(w, s), item) ==> Missed(w, item)
  {
    var q := w.caller.query;
    if Missed(Apply(w, s), item) {
      if item !in Visible(w, q) {
        NewIsUnpublished(w, s, q, item);
      } else if Unpublished(w, q.team, item) {
        UnpublishedStays(w, s, q.team, item);
      }
    }
  }

  // An empty page means there was nothing to read.
  lemma EmptyPage(w: World, c: Caller)
    requires IsPage(w, c, {})
    ensures Visible(w, c.query) == {}
  {
  }

  lemma StepLosesNothing(w: World, s: Step)
    requires NothingLost(w)
    ensures NothingLost(Apply(w, s))
  {
    if s.Read? && IsPage(w, w.caller, {}) {
      EmptyPage(w, w.caller);
    }
    if !(s.Publish? && s.i < |w.pending| && w.pending[s.i].team == w.caller.query.team) {
      forall item {
        NothingNewMissed(w, s, item);
      }
    }
  }

  lemma {:induction false} NeverLost(w: World, steps: seq<Step>)
    requires w.caller.phase.Idle?
    ensures NothingLost(Run(w, steps))
  {
    if steps != [] {
      NeverLost(w, Init(steps));
      StepLosesNothing(Run(w, Init(steps)), Last(steps));
    }
  }

  // ------------------------------------------------------- an empty answer

  /** At step `n` of the run nothing was missed, and from then on the caller was only on its way back from an expired wait. */
  ghost predicate Decided(w: World, steps: seq<Step>, n: nat)
    requires n <= |steps|
  {
    && (forall item :: !Missed(Run(w, steps[..n]), item))
    && (forall m | n <= m < |steps| :: Run(w, steps[..m]).caller.phase.Expired?)
  }

  // A moment before the last step of a run is a moment of the run without it.
  lemma SameMoment(w: World, steps: seq<Step>, m: nat)
    requires m < |steps|
    ensures Run(w, steps[..m]) == Run(w, Init(steps)[..m])
    ensures m == |steps| - 1 ==> Run(w, steps[..m]) == Run(w, Init(steps))
  {
    PrefixOfInit(steps, m);
  }

  lemma DecidedLater(w: World, steps: seq<Step>, n: nat)
    requires steps != [] && n <= |Init(steps)| && Decided(w, Init(steps), n)
    requires Run(w, Init(steps)).caller.phase.Expired?
    ensures Decided(w, steps, n)
  {
    SameMoment(w, steps, n);
    forall m | n <= m < |steps| ensures Run(w, steps[..m]).caller.phase.Expired? {
      SameMoment(w, steps, m);
    }
  }

  lemma DecidedNow(w: World, steps: seq<Step>)
    requires forall item :: !Missed(Run(w, steps), item)
    ensures Decided(w, steps, |steps|)
  {
    assert steps[..|steps|] == steps;
  }

  lemma {:induction false} ExpiredSince(w: World, steps: seq<Step>) returns (n: nat)
    requires w.caller.phase.Idle? && Run(w, steps).caller.phase.Expired?
    ensures n <= |steps| && Decided(w, steps, n)
  {
    var u := Run(w, Init(steps));
    if u.caller.phase.Expired? {
      n := ExpiredSince(w, Init(steps));
      DecidedLater(w, steps, n);
    } else {
      NeverLost(w, Init(steps));
      n := |steps|;
      forall item ensures !Missed(Run(w, steps), item) {
        assert !Missed(u, item);
      }
      DecidedNow(w, steps);
    }
  }

  /**
   No lost wake-up, seen at the answer.  Whenever a caller comes back empty-handed, there was a moment
   when nothing it asked for was both committed and published: either that of the answer itself, or
   that of the expiry of its wait, after which it did nothing but come back.
   */
  lemma EmptyAnswerMissedNothing(w: World, steps: seq<Step>) returns (n: nat)
    requires w.caller.phase.Idle? && steps != []
    requires Run(w, steps).caller.phase == Returned({}) && !Run(w, Init(steps)).caller.phase.Returned?
    ensures n <= |steps| && Decided(w, steps, n)
  {
    var u := Run(w, Init(steps));
    if u.caller.phase.Expired? {
      n := ExpiredSince(w, Init(steps));
      DecidedLater(w, steps, n);
    } else {
      n := |steps|;
      EmptyPage(u, u.caller);
      DecidedNow(w, steps);
    }
  }

  // A caller with nothing to read waits.
  lemma QuietCallerWaits(w: World)
    requires w.caller.phase.Idle? && Waits(w, w.caller) && Visible(w, w.caller.query) == {}
    ensures Apply(Apply(Apply(w, Arm), Read({})), Enter) ==
            w.(caller := w.caller.(phase := Waiting(GenOf(w.gen, w.caller.query.team))))
  {
    var armed := Apply(w, Arm);
    assert Visible(armed, armed.caller.query) == {};
    assert IsPage(armed, armed.caller, {});
  }

  // One event committed and published at once.
  lemma OneEvent(w: World, team: string)
    requires w.pending == [] && !w.caller.phase.Waiting?
    ensures
      var u := Apply(Apply(w, Commit([team])), Publish(0));
      && u.pending == [] && u.events == w.events + [team] && u.caller == w.caller
  {
    var committed := Apply(w, Commit([team]));
    var notice := Notice(team, EventsOf([team], |w.events| + 1, team));
    assert Notices([team], |w.events| + 1, 1) == Notices([team], |w.events| + 1, 0) + [notice];
    assert committed.pending == [notice];
  }

  lemma LateEvent(expired: World)
    requires expired.caller.phase.Expired? && expired.pending == []
    requires expired.caller.query.Events? && expired.caller.query.since <= |expired.events|
    ensures
      var u := Apply(Apply(Apply(expired, Commit([expired.caller.query.team])), Publish(0)), GiveUp);
      u.caller.phase == Returned({}) && Missed(u, Event(|expired.events| + 1))
  {
    var team := expired.caller.query.team;
    OneEvent(expired, team);
    assert (expired.events + [team])[|expired.events|] == team;
  }

  /** A caller that arms, reads nothing, waits and expires. */
  ghost function WaitedInVain(w: World): World {
    Apply(Apply(Apply(Apply(w, Arm), Read({})), Enter), Expire)
  }

  lemma QuietCallerExpires(w: World)
    requires w.caller.phase.Idle? && Waits(w, w.caller) && Visible(w, w.caller.query) == {}
    ensures WaitedInVain(w) == w.(caller := w.caller.(phase := Expired))
  {
    QuietCallerWaits(w);
  }

  /**
   The gap after the expiry is real: when an event is committed and published after the expiry, and before the
   caller is back, the caller comes back empty and has missed it.
   */
  lemma PublishedAfterExpiryIsMissed(w: World) returns (u: World)
    requires w.caller.phase.Idle? && w.caller.waits && Visible(w, w.caller.query) == {}
    requires w.caller.query.Events? && w.caller.query.since <= |w.events| && w.pending == []
    ensures u == Apply(Apply(Apply(WaitedInVain(w), Commit([w.caller.query.team])), Publish(0)), GiveUp)
    ensures u.caller.phase == Returned({}) && Missed(u, Event(|w.events| + 1))
  {
    QuietCallerExpires(w);
    var expired := w.(caller := w.caller.(phase := Expired));
    LateEvent(expired);
    u := Apply(Apply(Apply(expired, Commit([w.caller.query.team])), Publish(0)), GiveUp);
  }

  // ----------------------------------------------------- a published item

  /**
   The step takes the item away from the caller's query: an output chunk is pruned, or a listed directive
   ends or, for an inbox of pending ones only, is claimed.  Events and outcomes stay.
   */
  ghost predicate Drops(w: World, s: Step, item: Item) {
    match w.caller.query
    case Output(_, _, _) => s.Prune? && item.Chunk? && item.n in s.gone
    case Inbox(_, _, running) =>
      && s.Call? && item.Sent?
      && (var told := Bus.Told(w.bus, s.call, item.id);
          told != [] && (told[0].Ended? || (told[0].Claimed? && !running)))
    case _ => false
  }

  ghost predicate Dropped(w: World, steps: seq<Step>, item: Item) {
    steps != [] && (Dropped(w, Init(steps), item) || Drops(Run(w, Init(steps)), Last(steps), item))
  }

  lemma StepKeepsVisible(w: World, s: Step, item: Item)
    requires item in Visible(w, w.caller.query) && !Drops(w, s, item)
    ensures Apply(w, s).caller.query == w.caller.query && item in Visible(Apply(w, s), w.caller.query)
  {
    var after := Apply(w, s);
    match w.caller.query
    case Events(team, since) =>
      assert w.events <= after.events;
      assert after.events[item.n - 1] == w.events[item.n - 1];
    case Output(team, agent, since) => assert ChunkRow(team, agent, item.n) in after.chunks;
    case Inbox(_, _, _) =>
      if s.Call? {
        Bus.StepRow(w.bus, s.call, item.id);
      }
    case Outcome(_, _) =>
      if s.Call? {
        Bus.StepRow(w.bus, s.call, item.id);
      }
  }

  /** The caller is bound to read again, and finds the item then unless it was dropped before. */
  ghost predicate Bound(u: World, item: Item, dropped: bool) {
    && (dropped || item in Visible(u, u.caller.query))
    && (u.caller.phase.Entering? || u.caller.phase.Woken?)
    && (u.caller.phase.Entering? ==> GenOf(u.gen, u.caller.query.team) > u.caller.phase.gen0)
  }

  lemma StepBound(u: World, s: Step, item: Item, dropped: bool)
    requires Bound(u, item, dropped)
    ensures Bound(Apply(u, s), item, dropped || Drops(u, s, item)) || Rereads(u, s)
  {
    if !dropped && !Drops(u, s, item) {
      StepKeepsVisible(u, s, item);
    }
  }

  ghost predicate Rereads(u: World, s: Step) {
    u.caller.phase.Woken? && s.Reread? && IsPage(u, u.caller, s.page) && Apply(u, s).caller.phase == Returned(s.page)
  }

  /**
   The answer was given by the second read, the n-th of these steps, on a page that has the item unless the page
   is full of items that it does not come before, or the item was dropped before that read.
   */
  ghost predicate Answered(u: World, later: seq<Step>, n: nat, item: Item)
    requires n < |later|
  {
    var v := Run(u, later[..n]);
    && Rereads(v, later[n])
    && Run(u, later).caller.phase == Returned(later[n].page)
    && (Dropped(u, later[..n], item) || Covers(v, v.caller, later[n].page, item))
  }

  lemma AnsweredNow(u: World, later: seq<Step>, item: Item)
    requires later != [] && Rereads(Run(u, Init(later)), Last(later))
    requires Bound(Run(u, Init(later)), item, Dropped(u, Init(later), item))
    ensures Answered(u, later, |later| - 1, item)
  {
    var v := Run(u, Init(later));
    assert later[..|later| - 1] == Init(later);
    if !Dropped(u, Init(later), item) {
      PageCovers(v, v.caller, Last(later).page, item);
    }
  }

  lemma AnsweredStays(u: World, later: seq<Step>, n: nat, item: Item)
    requires later != [] && n < |Init(later)| && Answered(u, Init(later), n, item)
    ensures Answered(u, later, n, item)
  {
    PrefixOfInit(later, n);
  }

  /** The caller is still bound to read again, or has answered. */
  ghost predicate Settled(u: World, later: seq<Step>, item: Item) {
    || Bound(Run(u, later), item, Dropped(u, later, item))
    || (exists n :: 0 <= n < |later| && Answered(u, later, n, item))
  }

  lemma BoundStaysSettled(u: World, later: seq<Step>, item: Item)
    requires later != [] && Bound(Run(u, Init(later)), item, Dropped(u, Init(later), item))
    ensures Settled(u, later, item)
  {
    StepBound(Run(u, Init(later)), Last(later), item, Dropped(u, Init(later), item));
    if Rereads(Run(u, Init(later)), Last(later)) {
      AnsweredNow(u, later, item);
    }
  }

  lemma {:induction false} StaysSettled(u: World, later: seq<Step>, item: Item)
    requires Bound(u, item, false)
    ensures Settled(u, later, item)
  {
    if later != [] {
      var front := Init(later);
      StaysSettled(u, front, item);
      if Bound(Run(u, front), item, Dropped(u, front, item)) {
        BoundStaysSettled(u, later, item);
      } else {
        var n :| 0 <= n < |front| && Answered(u, front, n, item);
        AnsweredStays(u, later, n, item);
      }
    }
  }

  lemma NextPage(w: World) returns (page: set<Item>)
    requires w.caller.phase.Woken?
    ensures Rereads(w, Reread(page))
  {
    page := PageExists(w, w.caller);
  }

  /**
   No lost wake-up, seen while waiting.  If something that the first read missed is committed and published
   before the wait expires, the wait never expires: whatever follows, the caller reads again, and it either
   has yet to or has answered with what that second read gave.  That read is not empty and has the item,
   unless its page is full of items that the missed one does not come before, or the item was dropped first.
   */
  lemma PublishedItemIsDelivered(w: World, steps: seq<Step>, later: seq<Step>, item: Item)
    requires w.caller.phase.Idle?
    requires
      var phase := Run(w, steps).caller.phase;
      phase.Entering? || phase.Waiting? || phase.Woken?
    requires Missed(Run(w, steps), item)
    ensures
      var u, v := Run(w, steps), Run(Run(w, steps), later);
      || (v.caller.phase.Entering? && Apply(v, Enter).caller.phase.Woken?)
      || (v.caller.phase.Woken? && exists page :: Rereads(v, Reread(page)))
      || (v.caller.phase.Returned? && exists n :: 0 <= n < |later| && Answered(u, later, n, item))
  {
    NeverLost(w, steps);
    StaysSettled(Run(w, steps), later, item);
    var v := Run(Run(w, steps), later);
    if v.caller.phase.Woken? {
      var page := NextPage(v);
    }
  }

  /** The limit does leave items out: of two events past the cursor a caller with limit one is given the first. */
  lemma LimitLeavesOut(w: World, c: Caller, m: nat, n: nat, page: set<Item>)
    requires c.query.Events? && Limit(c) == 1 && m < n
    requires Event(m) in Visible(w, c.query) && Event(n) in Visible(w, c.query)
    requires IsPage(w, c, page)
    ensures Event(n) !in page
  {
    if Event(n) in page {
      assert Event(m) in page;
      Subset({Event(m), Event(n)}, page);
    }
  }

  // ---------------------------------------------------------------- the hub

  /** The counters after a run of publications, one bump for each notice. */
  function BumpAll(gen: map<string, nat>, notices: seq<Notice>): map<string, nat> {
    if notices == [] then gen else Bump(BumpAll(gen, Init(notices)), Last(notices).team)
  }

  lemma InOneMore(batch: seq<string>, n: nat, team: string)
    requires 0 < n <= |batch|
    ensures team in batch[..n] <==> team in batch[..n - 1] || team == batch[n - 1]
  {
    assert batch[..n] == batch[..n - 1] + [batch[n - 1]];
  }

  lemma BumpOneMore(gen: map<string, nat>, notices: seq<Notice>, more: Notice, team: string)
    ensures GenOf(BumpAll(gen, notices + [more]), team) ==
            GenOf(BumpAll(gen, notices), team) + (if team == more.team then 1 else 0)
  {
    assert Init(notices + [more]) == notices;
  }

  // The notices of a batch tell each team of it once.
  lemma {:induction false} NoticesBumpOnce(gen: map<string, nat>, batch: seq<string>, first: nat, n: nat, team: string)
    requires n <= |batch|
    ensures GenOf(BumpAll(gen, Notices(batch, first, n)), team) == GenOf(gen, team) + (if team in batch[..n] then 1 else 0)
  {
    if n > 0 {
      var front, last := Notices(batch, first, n - 1), batch[n - 1];
      NoticesBumpOnce(gen, batch, first, n - 1, team);
      InOneMore(batch, n, team);
      if last !in batch[..n - 1] {
        BumpOneMore(gen, front, Notice(last, EventsOf(batch, first, last)), team);
      } else {
        assert Notices(batch, first, n) == front;
      }
    }
  }

  lemma DispatchIsPublishing(gen: map<string, nat>, after: map<string, nat>, batch: seq<string>, first: nat)
    requires forall team :: GenOf(after, team) == GenOf(gen, team) + (if team in batch then 1 else 0)
    ensures forall team :: GenOf(after, team) == GenOf(BumpAll(gen, Notices(batch, first, |batch|)), team)
  {
    assert batch[..|batch|] == batch;
    forall team ensures GenOf(after, team) == GenOf(BumpAll(gen, Notices(batch, first, |batch|)), team) {
      NoticesBumpOnce(gen, batch, first, |batch|, team);
    }
  }

  /** The oldest `n` notices published one after the other. */
  ghost function PublishOldest(w: World, n: nat): World {
    if n == 0 then w else Apply(PublishOldest(w, n - 1), Publish(0))
  }

  lemma FirstOfPending(w: World)
    requires w.pending != []
    ensures Apply(w, Publish(0)).gen == Bump(w.gen, w.pending[0].team) && Apply(w, Publish(0)).pending == w.pending[1..]
  {
  }

  lemma OneMore(notices: seq<Notice>, n: nat)
    requires 0 < n <= |notices|
    ensures notices[..n] == notices[..n - 1] + [notices[n - 1]]
    ensures notices[n - 1..] != [] && notices[n - 1..][0] == notices[n - 1] && notices[n - 1..][1..] == notices[n..]
  {
  }

  lemma BumpAppend(gen: map<string, nat>, notices: seq<Notice>, more: Notice)
    ensures BumpAll(gen, notices + [more]) == Bump(BumpAll(gen, notices), more.team)
  {
    assert Init(notices + [more]) == notices;
  }

  lemma PublishOneMore(w: World, v: World, n: nat)
    requires 0 < n <= |w.pending|
    requires v.gen == BumpAll(w.gen, w.pending[..n - 1]) && v.pending == w.pending[n - 1..]
    ensures Apply(v, Publish(0)).gen == BumpAll(w.gen, w.pending[..n]) && Apply(v, Publish(0)).pending == w.pending[n..]
  {
    OneMore(w.pending, n);
    FirstOfPending(v);
    BumpAppend(w.gen, w.pending[..n - 1], w.pending[n - 1]);
  }

  /** Publishing notices one after the other bumps the counters by exactly those notices. */
  lemma {:induction false} PublishingBumps(w: World, n: nat)
    requires n <= |w.pending|
    ensures PublishOldest(w, n).gen == BumpAll(w.gen, w.pending[..n])
    ensures PublishOldest(w, n).pending == w.pending[n..]
  {
    if n > 0 {
      PublishingBumps(w, n - 1);
      PublishOneMore(w, PublishOldest(w, n - 1), n);
    }
  }

  /** The hub's counters. */
  class Hub {
    var gen: map<string, nat>

    constructor ()
      ensures gen == map[]
    {
      gen := map[];
    }

    method CurrentGen(team: string) returns (g: nat)
      ensures g == GenOf(gen, team)
    {
      g := if team in gen then gen[team] else 0;
    }

    /**
     One publication: every team with an event in the batch is bumped exactly once, and no other, which is
     what publishing the batch's notices one by one comes to.
     */
    method Dispatch(batch: seq<string>, ghost first: nat)
      modifies this
      ensures forall team :: GenOf(gen, team) == GenOf(BumpAll(old(gen), Notices(batch, first, |batch|)), team)
      ensures forall team :: GenOf(gen, team) == GenOf(old(gen), team) + (if team in batch then 1 else 0)
    {
      var touched := {};
      var i := 0;
      while i < |batch|
        invariant 0 <= i <= |batch| && gen == old(gen)
        invariant touched == set t | t in batch[..i]
      {
        touched := touched + {batch[i]};
        assert batch[..i + 1] == batch[..i] + [batch[i]];
        i := i + 1;
      }
      assert batch[..i] == batch;
      var left := touched;
      while left != {}
        invariant left <= touched
        invariant forall team :: GenOf(gen, team) == GenOf(old(gen), team) + (if team in touched - left then 1 else 0)
        decreases left
      {
        var team :| team in left;
        gen := gen[team := GenOf(gen, team) + 1];
        left := left - {team};
      }
      DispatchIsPublishing(old(gen), gen, batch, first);
    }

    method TickTeam(team: string)
      modifies this
      ensures gen == Bump(old(gen), team)
    {
      gen := gen[team := GenOf(gen, team) + 1];
    }
  }
}
