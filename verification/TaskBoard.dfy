/**
 The tables behind the task protocol and the effect of every tool call on them.

 Each function here is one transaction: it takes the tables as the single-writer lock
 hands them over and returns the tables as COMMIT leaves them.  A refused call returns
 the tables unchanged.  Rows are keyed by team as in the schema, so one `Board` holds
 every team.
 */
module TaskBoard {
  import opened Common

  datatype Key = Key(team: string, id: string)

  datatype Caller = Caller(team: string, agent: string)

  datatype Status = Open | Claimed | InProgress | Blocked | Done | Failed

  datatype Task = Task(
    status: Status,
    priority: int,
    weight: int,
    assignee: Option<string>,
    token: nat,
    ttl: Option<int>,
    lease: Option<int>,
    progress: int,
    attempts: nat,
    maxAttempts: int,
    createdAt: int,
    result: Option<string>)

  /** A row of task_deps: `task` waits for `on`, which need not exist. */
  datatype Dep = Dep(task: Key, on: Key)

  datatype Outcome = Completed | GaveUp | Expired | Released

  datatype Closing = Closing(at: int, outcome: Outcome)

  /** A row of task_claims; `closed` is its released_at and outcome. */
  datatype ClaimRow = ClaimRow(task: Key, agent: string, token: nat, claimedAt: int, closed: Option<Closing>)

  // Why a task went back to the queue or to the dead letters.
  datatype Cause =
    | Reported(error: Option<string>, attempts: nat)
    | LeaseExpired(attempts: nat)
    | AgentGone

  datatype Body =
    | TaskCreated(id: string, dependsOn: seq<string>, priority: int, weight: int)
    | TaskClaimed(id: string, token: nat)
    | TaskProgress(id: string, pct: Option<int>, status: Status)
    | TaskCompleted(id: string, summary: Option<string>)
    | TaskFailed(id: string, cause: Cause)
    | TaskRequeued(id: string, cause: Cause)
    | TaskReleased(id: string)
    | AgentLeft(agent: string)
    | OtherKind(kind: string)

  /** A row of the events log; its event_id is its position plus one. */
  datatype Event = Event(team: string, actor: Option<string>, body: Body)

  datatype Board = Board(
    tasks: map<Key, Task>,
    deps: set<Dep>,
    claims: seq<ClaimRow>,
    log: seq<Event>)

  const EMPTY := Board(map[], {}, [], [])

  // ---------------------------------------------------------------- readings

  predicate IsDone(b: Board, k: Key) {
    k in b.tasks && b.tasks[k].status == Done
  }

  /** The dependencies of `k` that are missing or not done. */
  function Unmet(b: Board, k: Key): set<Key> {
    set d | d in b.deps && d.task == k && !IsDone(b, d.on) :: d.on
  }

  /** The eligibility test written into the queue query. */
  predicate Eligible(b: Board, k: Key) {
    && k in b.tasks
    && b.tasks[k].status == Open
    && !(exists d :: d in b.deps && d.task == k && !IsDone(b, d.on))
  }

  /** The test every mutating call makes before it touches a task. */
  predicate Holds(b: Board, c: Caller, id: string, token: int) {
    var k := Key(c.team, id);
    && k in b.tasks
    && b.tasks[k].assignee == Some(c.agent)
    && b.tasks[k].token == token
  }

  predicate Running(s: Status) {
    s == Claimed || s == InProgress
  }

  // `lease_ttl_s or default`, used when a task is claimed.
  function ClaimTtl(t: Task, dflt: int): int {
    if t.ttl.Some? && t.ttl.value != 0 then t.ttl.value else dflt
  }

  // `COALESCE(lease_ttl_s, default)`, used when a lease is renewed.
  function RenewTtl(t: Task, dflt: int): int {
    if t.ttl.Some? then t.ttl.value else dflt
  }

  /** The tasks a heartbeat renews and a leaving agent gives back. */
  function Held(b: Board, c: Caller): set<Key> {
    set k | k in b.tasks && k.team == c.team && b.tasks[k].assignee == Some(c.agent) && Running(b.tasks[k].status)
  }

  function Overdue(b: Board, now: int): set<Key> {
    set k | k in b.tasks && Reapable(b.tasks[k], now)
  }

  predicate Reapable(t: Task, now: int) {
    Running(t.status) && t.lease.Some? && t.lease.value < now
  }

  // ------------------------------------------------------------------ writes

  /** Closes the unreleased rows of `agent` on `k`. */
  function Close(claims: seq<ClaimRow>, k: Key, agent: string, at: int, outcome: Outcome): seq<ClaimRow> {
    if claims == [] then []
    else
      var r := Last(claims);
      Close(Init(claims), k, agent, at, outcome) +
      [if r.task == k && r.agent == agent && r.closed.None? then r.(closed := Some(Closing(at, outcome))) else r]
  }

  function Create(b: Board, c: Caller, id: string, dependsOn: seq<string>, priority: int, weight: int,
                  ttl: Option<int>, maxAttempts: int, now: int): Board {
    var k := Key(c.team, id);
    if k in b.tasks then b  // primary key conflict: rolled back
    else
      Board(
        b.tasks[k := Task(Open, priority, Max(1, weight), None, 0, ttl, None, 0, 0, maxAttempts, now, None)],
        b.deps + (set d | d in dependsOn :: Dep(k, Key(c.team, d))),
        b.claims,
        b.log + [Event(c.team, Some(c.agent), TaskCreated(id, dependsOn, priority, Max(1, weight)))])
  }

  predicate CanClaim(b: Board, k: Key) {
    k in b.tasks && b.tasks[k].status == Open && Unmet(b, k) == {}
  }

  function Claim(b: Board, c: Caller, id: string, dflt: int, now: int): Board {
    var k := Key(c.team, id);
    if !CanClaim(b, k) then b
    else
      var t := b.tasks[k];
      var token := t.token + 1;
      b.(tasks := b.tasks[k := t.(status := Claimed, assignee := Some(c.agent), token := token,
                                  lease := Some(now + ClaimTtl(t, dflt) * 1000))],
      claims := b.claims + [ClaimRow(k, c.agent, token, now, None)],
      log := b.log + [Event(c.team, Some(c.agent), TaskClaimed(id, token))])
  }

  function ClampPct(pct: Option<int>): Option<int> {
    if pct.Some? then Some(Max(0, Min(100, pct.value))) else None
  }

  function ProgressStatus(was: Status, want: Option<Status>): Status {
    if want == Some(InProgress) || want == Some(Blocked) then want.value
    else if was == Claimed then InProgress
    else was
  }

  function Progress(b: Board, c: Caller, id: string, token: int, pct: Option<int>, want: Option<Status>,
                    dflt: int, now: int): Board {
    var k := Key(c.team, id);
    if !Holds(b, c, id, token) then b
    else
      var t := b.tasks[k];
      var status := ProgressStatus(t.status, want);
      var p := ClampPct(pct);
      b.(tasks := b.tasks[k := t.(status := status, lease := Some(now + RenewTtl(t, dflt) * 1000),
                                  progress := if p.Some? then p.value else t.progress)],
      log := b.log + [Event(c.team, Some(c.agent), TaskProgress(id, p, status))])
  }

  function Complete(b: Board, c: Caller, id: string, token: int, summary: Option<string>, now: int): Board {
    var k := Key(c.team, id);
    if !Holds(b, c, id, token) then b
    else
      b.(tasks := b.tasks[k := b.tasks[k].(status := Done, progress := 100, result := summary, lease := None)],
      claims := Close(b.claims, k, c.agent, now, Completed),
      log := b.log + [Event(c.team, Some(c.agent), TaskCompleted(id, summary))])
  }

  predicate Dead(t: Task) {
    t.attempts + 1 >= t.maxAttempts
  }

  // One more failed attempt: back to the queue, or to the dead letters.
  function Struck(t: Task): Task {
    t.(status := if Dead(t) then Failed else Open, assignee := None, attempts := t.attempts + 1, lease := None)
  }

  function StruckEvent(t: Task, id: string, cause: Cause): Body {
    if Dead(t) then TaskFailed(id, cause) else TaskRequeued(id, cause)
  }

  function Fail(b: Board, c: Caller, id: string, token: int, error: Option<string>, now: int): Board {
    var k := Key(c.team, id);
    if !Holds(b, c, id, token) then b
    else
      var t := b.tasks[k];
      b.(tasks := b.tasks[k := Struck(t).(result := error)],
      claims := Close(b.claims, k, c.agent, now, GaveUp),
      log := b.log + [Event(c.team, Some(c.agent), StruckEvent(t, id, Reported(error, t.attempts + 1)))])
  }

  function Freed(t: Task): Task {
    t.(status := Open, assignee := None, lease := None)
  }

  function Release(b: Board, c: Caller, id: string, token: int, now: int): Board {
    var k := Key(c.team, id);
    if !Holds(b, c, id, token) then b
    else
      b.(tasks := b.tasks[k := Freed(b.tasks[k])],
      claims := Close(b.claims, k, c.agent, now, Released),
      log := b.log + [Event(c.team, Some(c.agent), TaskReleased(id))])
  }

  function Heartbeat(b: Board, c: Caller, dflt: int, now: int): Board {
    b.(tasks := map k | k in b.tasks ::
      if k in Held(b, c) then b.tasks[k].(lease := Some(now + RenewTtl(b.tasks[k], dflt) * 1000)) else b.tasks[k])
  }

  function LeaveOne(b: Board, c: Caller, k: Key, now: int): Board {
    if k !in b.tasks then b
    else
      b.(tasks := b.tasks[k := Freed(b.tasks[k])],
      claims := Close(b.claims, k, c.agent, now, Released),
      log := b.log + [Event(c.team, Some(c.agent), TaskRequeued(k.id, AgentGone))])
  }

  function LeaveAll(b: Board, c: Caller, order: seq<Key>, now: int): Board {
    if order == [] then b
    else LeaveOne(LeaveAll(b, c, Init(order), now), c, Last(order), now)
  }

  /** leave_team, the held tasks being visited in `order`. */
  function Leave(b: Board, c: Caller, order: seq<Key>, now: int): Board {
    var freed := LeaveAll(b, c, order, now);
    freed.(log := freed.log + [Event(c.team, Some(c.agent), AgentLeft(c.agent))])
  }

  /** The locked re-check of one candidate: `now` is the clock of the re-check, `at` of the write. */
  function Reap(b: Board, k: Key, now: int, at: int): Board {
    if k !in b.tasks || !Reapable(b.tasks[k], now) then b
    else
      var t := b.tasks[k];
      b.(tasks := b.tasks[k := Struck(t)],
      claims := if t.assignee.Some? then Close(b.claims, k, t.assignee.value, at, Expired) else b.claims,
      log := b.log + [Event(k.team, t.assignee, StruckEvent(t, k.id, LeaseExpired(t.attempts + 1)))])
  }
}
