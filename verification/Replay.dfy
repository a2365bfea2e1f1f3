/**
 The event log is a complete record of the board: folding it from nothing gives every
 task's status, assignee, token, attempts, progress, priority, weight and result, and
 every dependency.  What it does not carry of a task is its lease, since heartbeats log nothing, and
 the settings it was created with: ttl, attempt limit and creation time.
 */
module Replay {
  import opened Common
  import opened TaskBoard
  import opened TaskRuns

  /** What a reader of the log can know about a task. */
  datatype Seen = Seen(
    status: Status,
    assignee: Option<string>,
    token: nat,
    attempts: nat,
    progress: int,
    priority: int,
    weight: int,
    result: Option<string>)

  datatype Picture = Picture(tasks: map<Key, Seen>, deps: set<Dep>)

  function SeenOf(t: Task): Seen {
    Seen(t.status, t.assignee, t.token, t.attempts, t.progress, t.priority, t.weight, t.result)
  }

  ghost function PictureOf(b: Board): Picture {
    Picture(map k | k in b.tasks :: SeenOf(b.tasks[k]), b.deps)
  }

  // ------------------------------------------------ the reader's side: a fold

  function Attempts(cause: Cause, was: nat): nat {
    if cause.AgentGone? then was else cause.attempts
  }

  function Result(cause: Cause, was: Option<string>): Option<string> {
    if cause.Reported? then cause.error else was
  }

  /** The event applied to the one task it names. */
  function Redo(t: Seen, e: Event): Seen {
    match e.body
    case TaskClaimed(_, token) => t.(status := Claimed, assignee := e.actor, token := token)
    case TaskProgress(_, pct, status) => t.(status := status, progress := if pct.Some? then pct.value else t.progress)
    case TaskCompleted(_, summary) => t.(status := Done, progress := 100, result := summary)
    case TaskFailed(_, cause) =>
      t.(status := Failed, assignee := None, attempts := Attempts(cause, t.attempts), result := Result(cause, t.result))
    case TaskRequeued(_, cause) =>
      t.(status := Open, assignee := None, attempts := Attempts(cause, t.attempts), result := Result(cause, t.result))
    case TaskReleased(_) => t.(status := Open, assignee := None)
    case _ => t
  }

  function Subject(e: Event): Option<Key> {
    match e.body
    case TaskCreated(id, _, _, _) => Some(Key(e.team, id))
    case TaskClaimed(id, _) => Some(Key(e.team, id))
    case TaskProgress(id, _, _) => Some(Key(e.team, id))
    case TaskCompleted(id, _) => Some(Key(e.team, id))
    case TaskFailed(id, _) => Some(Key(e.team, id))
    case TaskRequeued(id, _) => Some(Key(e.team, id))
    case TaskReleased(id) => Some(Key(e.team, id))
    case AgentLeft(_) => None
    case OtherKind(_) => None
  }

  ghost function Fold(p: Picture, e: Event): Picture {
    var k := Subject(e);
    if k.None? then p
    else if e.body.TaskCreated? then
      Picture(p.tasks[k.value := Seen(Open, None, 0, 0, 0, e.body.priority, e.body.weight, None)],
              p.deps + (set d | d in e.body.dependsOn :: Dep(k.value, Key(e.team, d))))
    else if k.value in p.tasks then p.(tasks := p.tasks[k.value := Redo(p.tasks[k.value], e)])
    else p
  }

  ghost function Replayed(log: seq<Event>): Picture {
    if log == [] then Picture(map[], {}) else Fold(Replayed(Init(log)), Last(log))
  }

  // ------------------------------------------------------------------ theorem

  // Appending one event folds that event; stated for use where a step appends.
  lemma ReplayedAppend(log: seq<Event>, e: Event)
    ensures Replayed(log + [e]) == Fold(Replayed(log), e)
  {
    assert Init(log + [e]) == log;
  }

  ghost predicate Faithful(b: Board) {
    Replayed(b.log) == PictureOf(b)
  }

  // One row replaced, one event about it appended.
  lemma OneTask(b: Board, k: Key, t: Task, claims: seq<ClaimRow>, e: Event)
    requires Faithful(b) && k in b.tasks
    requires Subject(e) == Some(k) && !e.body.TaskCreated?
    requires SeenOf(t) == Redo(SeenOf(b.tasks[k]), e)
    ensures Faithful(Board(b.tasks[k := t], b.deps, claims, b.log + [e]))
  {
    ReplayedAppend(b.log, e);
  }

  // One row and its dependencies added, the event that creates it appended.
  lemma NewTask(b: Board, k: Key, t: Task, deps: set<Dep>, e: Event)
    requires Faithful(b) && k !in b.tasks
    requires Subject(e) == Some(k) && e.body.TaskCreated?
    requires SeenOf(t) == Seen(Open, None, 0, 0, 0, e.body.priority, e.body.weight, None)
    requires deps == set d | d in e.body.dependsOn :: Dep(k, Key(e.team, d))
    ensures Faithful(Board(b.tasks[k := t], b.deps + deps, b.claims, b.log + [e]))
  {
    ReplayedAppend(b.log, e);
    assert PictureOf(b).deps == b.deps;
  }

  lemma CreateFaithful(b: Board, s: Step)
    requires Faithful(b) && s.DoCreate?
    ensures Faithful(Apply(b, s))
  {
    var k, after := Key(s.c.team, s.id), Apply(b, s);
    if k !in b.tasks {
      var added := set d | d in s.dependsOn :: Dep(k, Key(s.c.team, d));
      NewTask(b, k, after.tasks[k], added, Last(after.log));
    }
  }

  lemma LeaveOneFaithful(b: Board, c: Caller, k: Key, now: int)
    requires Faithful(b) && k.team == c.team
    ensures Faithful(LeaveOne(b, c, k, now))
  {
    if k in b.tasks {
      var after := LeaveOne(b, c, k, now);
      assert Key(k.team, k.id) == k;
      OneTask(b, k, after.tasks[k], after.claims, Last(after.log));
    }
  }

  lemma {:induction false} LeaveAllFaithful(b: Board, c: Caller, order: seq<Key>, now: int)
    requires Faithful(b) && (forall k | k in order :: k.team == c.team)
    ensures Faithful(LeaveAll(b, c, order, now))
  {
    if order != [] {
      LeaveAllFaithful(b, c, Init(order), now);
      LeaveOneFaithful(LeaveAll(b, c, Init(order), now), c, Last(order), now);
    }
  }

  // The calls that change one existing task and log one event about it.
  lemma OneTaskFaithful(b: Board, s: Step)
    requires Faithful(b)
    requires s.DoClaim? || s.DoProgress? || s.DoComplete? || s.DoFail? || s.DoRelease?
    ensures Faithful(Apply(b, s))
  {
    var k, after := Key(s.c.team, s.id), Apply(b, s);
    if after != b {
      OneTask(b, k, after.tasks[k], after.claims, Last(after.log));
    }
  }

  lemma ReapFaithful(b: Board, s: Step)
    requires Faithful(b) && s.DoReap?
    ensures Faithful(Apply(b, s))
  {
    var after := Apply(b, s);
    if after != b {
      assert Key(s.k.team, s.k.id) == s.k;
      OneTask(b, s.k, after.tasks[s.k], after.claims, Last(after.log));
    }
  }

  lemma HeartbeatFaithful(b: Board, s: Step)
    requires Faithful(b) && s.DoHeartbeat?
    ensures Faithful(Apply(b, s))
  {
    assert PictureOf(Apply(b, s)) == PictureOf(b);
  }

  lemma LeaveFaithful(b: Board, s: Step)
    requires Faithful(b) && s.DoLeave?
    ensures Faithful(Apply(b, s))
  {
    if Enumerates(s.order, Held(b, s.c)) {
      LeaveAllFaithful(b, s.c, s.order, s.now);
      ReplayedAppend(LeaveAll(b, s.c, s.order, s.now).log, Event(s.c.team, Some(s.c.agent), AgentLeft(s.c.agent)));
    }
  }

  lemma OtherFaithful(b: Board, s: Step)
    requires Faithful(b) && s.DoOther?
    ensures Faithful(Apply(b, s))
  {
    ReplayedAppend(b.log, Event(s.team, s.actor, OtherKind(s.kind)));
  }

  lemma StepFaithful(b: Board, s: Step)
    requires Faithful(b)
    ensures Faithful(Apply(b, s))
  {
    match s
    case DoCreate(_, _, _, _, _, _, _, _) => CreateFaithful(b, s);
    case DoHeartbeat(_, _, _) => HeartbeatFaithful(b, s);
    case DoLeave(_, _, _) => LeaveFaithful(b, s);
    case DoReap(_, _, _) => ReapFaithful(b, s);
    case DoOther(_, _, _) => OtherFaithful(b, s);
    case _ => OneTaskFaithful(b, s);
  }

  /** In every reachable state the log alone gives the exact board. */
  lemma {:induction false} ReplayIsExact(steps: seq<Step>)
    ensures Replayed(Run(EMPTY, steps).log) == PictureOf(Run(EMPTY, steps))
  {
    if steps == [] {
      assert PictureOf(EMPTY).tasks == map[];
    } else {
      ReplayIsExact(Init(steps));
      StepFaithful(Run(EMPTY, Init(steps)), Last(steps));
    }
  }

  /** Nor are a task's ttl, its attempt limit and its creation time: two creations that differ in them log the same. */
  lemma SettingsAreNotLogged(b: Board, c: Caller, id: string, on: seq<string>, priority: int, weight: int,
                             ttl: Option<int>, maxAttempts: int, now: int, ttl': Option<int>, maxAttempts': int, now': int)
    requires Key(c.team, id) !in b.tasks && (ttl, maxAttempts, now) != (ttl', maxAttempts', now')
    ensures
      var one := Create(b, c, id, on, priority, weight, ttl, maxAttempts, now);
      var two := Create(b, c, id, on, priority, weight, ttl', maxAttempts', now');
      one.log == two.log && one != two
  {
    var one := Create(b, c, id, on, priority, weight, ttl, maxAttempts, now);
    var two := Create(b, c, id, on, priority, weight, ttl', maxAttempts', now');
    assert one.tasks[Key(c.team, id)] != two.tasks[Key(c.team, id)];
  }

  /** No reader can do better on leases: two heartbeats that leave different leases leave the same log. */
  lemma LeasesAreNotLogged(b: Board, c: Caller, dflt: int, now: int, now': int)
    requires Held(b, c) != {} && now != now'
    ensures Heartbeat(b, c, dflt, now).log == Heartbeat(b, c, dflt, now').log == b.log
    ensures Heartbeat(b, c, dflt, now) != Heartbeat(b, c, dflt, now')
  {
    var k :| k in Held(b, c);
    assert Heartbeat(b, c, dflt, now).tasks[k].lease != Heartbeat(b, c, dflt, now').tasks[k].lease;
  }
}
