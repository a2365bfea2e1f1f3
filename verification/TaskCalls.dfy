/**
 What each task call means, spelled on the columns of the rows it reads and writes: when it is accepted,
 what it changes, and that it changes nothing else.
 */
module TaskCalls {
  import opened Common
  import opened TaskBoard
  import opened TaskRuns

  /** An open task each of whose dependencies exists and is done. */
  ghost predicate Ready(b: Board, k: Key) {
    && k in b.tasks && b.tasks[k].status == Open
    && (forall d | d in b.deps && d.task == k :: d.on in b.tasks && b.tasks[d.on].status == Done)
  }

  /** The caller is the task's assignee and presents its token. */
  ghost predicate Holder(b: Board, c: Caller, id: string, token: int) {
    var k := Key(c.team, id);
    k in b.tasks && b.tasks[k].assignee == Some(c.agent) && b.tasks[k].token == token
  }

  /** What a heartbeat renews and a leaving agent gives back. */
  ghost predicate HeldBy(b: Board, c: Caller, k: Key) {
    && k in b.tasks && k.team == c.team && b.tasks[k].assignee == Some(c.agent)
    && (b.tasks[k].status == Claimed || b.tasks[k].status == InProgress)
  }

  /** The row of `k` becomes `t`, and no other task and no dependency changes. */
  ghost predicate Becomes(b: Board, after: Board, k: Key, t: Task) {
    && k in after.tasks && after.tasks[k] == t && after.deps == b.deps
    && (forall j | j != k :: j in after.tasks <==> j in b.tasks)
    && (forall j | j in b.tasks && j != k :: after.tasks[j] == b.tasks[j])
  }

  ghost predicate Logs(b: Board, after: Board, c: Caller, body: Body) {
    after.log == b.log + [Event(c.team, Some(c.agent), body)]
  }

  /** Exactly the agent's unreleased rows of these tasks are closed. */
  ghost predicate RowsClosed(claims: seq<ClaimRow>, after: seq<ClaimRow>, keys: set<Key>, agent: string, at: int, outcome: Outcome) {
    && |after| == |claims|
    && (forall i | 0 <= i < |claims| :: after[i] ==
          if claims[i].task in keys && claims[i].agent == agent && claims[i].closed.None?
          then ClaimRow(claims[i].task, agent, claims[i].token, claims[i].claimedAt, Some(Closing(at, outcome)))
          else claims[i])
  }

  lemma {:induction false} CloseMeans(claims: seq<ClaimRow>, k: Key, agent: string, at: int, outcome: Outcome)
    ensures RowsClosed(claims, Close(claims, k, agent, at, outcome), {k}, agent, at, outcome)
  {
    if claims != [] {
      CloseMeans(Init(claims), k, agent, at, outcome);
    }
  }

  // ------------------------------------------------------------ create, claim

  lemma CreateMeans(b: Board, c: Caller, id: string, on: seq<string>, priority: int, weight: int,
                    ttl: Option<int>, maxAttempts: int, now: int)
    ensures
      var k, after := Key(c.team, id), Create(b, c, id, on, priority, weight, ttl, maxAttempts, now);
      var w := if weight < 1 then 1 else weight;
      if k in b.tasks then after == b
      else
        && Becomes(b.(deps := after.deps), after, k,
                   Task(Open, priority, w, None, 0, ttl, None, 0, 0, maxAttempts, now, None))
        && (forall d :: d in after.deps <==> d in b.deps || (d.task == k && d.on.team == c.team && d.on.id in on))
        && after.claims == b.claims
        && Logs(b, after, c, TaskCreated(id, on, priority, w))
  {
    var k, after := Key(c.team, id), Create(b, c, id, on, priority, weight, ttl, maxAttempts, now);
    if k !in b.tasks {
      forall d ensures d in after.deps <==> d in b.deps || (d.task == k && d.on.team == c.team && d.on.id in on) {
        if d.task == k && d.on.team == c.team && d.on.id in on {
          assert d == Dep(k, Key(c.team, d.on.id));
        }
      }
    }
  }

  /** The dependency check of a claim is what the name says. */
  lemma CanClaimMeans(b: Board, k: Key)
    ensures CanClaim(b, k) <==> Ready(b, k)
    ensures Eligible(b, k) <==> Ready(b, k)
    ensures forall on :: on in Unmet(b, k) <==> Dep(k, on) in b.deps && (on !in b.tasks || b.tasks[on].status != Done)
  {
    forall on ensures on in Unmet(b, k) <==> Dep(k, on) in b.deps && (on !in b.tasks || b.tasks[on].status != Done) {
      if Dep(k, on) in b.deps {
        assert Dep(k, on).on == on;
      }
    }
    if CanClaim(b, k) {
      forall d | d in b.deps && d.task == k ensures d.on in b.tasks && b.tasks[d.on].status == Done {
        assert d.on !in Unmet(b, k);
        assert d == Dep(k, d.on);
      }
    }
  }

  /** A claim takes exactly a ready task, under the next token, for the task's own ttl unless that is absent or zero. */
  lemma ClaimMeans(b: Board, c: Caller, id: string, dflt: int, now: int)
    ensures
      var k, after := Key(c.team, id), Claim(b, c, id, dflt, now);
      if !Ready(b, k) then after == b
      else
        var t := b.tasks[k];
        var seconds := if t.ttl == None || t.ttl == Some(0) then dflt else t.ttl.value;
        && Becomes(b, after, k, t.(status := Claimed, assignee := Some(c.agent), token := t.token + 1,
                                   lease := Some(now + 1000 * seconds)))
        && after.claims == b.claims + [ClaimRow(k, c.agent, t.token + 1, now, None)]
        && Logs(b, after, c, TaskClaimed(id, t.token + 1))
  {
    CanClaimMeans(b, Key(c.team, id));
  }

  // ----------------------------------------------------- the holder's calls

  /** How a progress report moves the status. */
  ghost predicate StatusMoves(was: Status, want: Option<Status>, now: Status) {
    && (want == Some(InProgress) ==> now == InProgress)
    && (want == Some(Blocked) ==> now == Blocked)
    && (want != Some(InProgress) && want != Some(Blocked) ==> now == if was == Claimed then InProgress else was)
  }

  /** A progress report of the holder clamps the percentage, moves the status and renews the lease for the task's ttl if it has one. */
  lemma ProgressMeans(b: Board, c: Caller, id: string, token: int, pct: Option<int>, want: Option<Status>, dflt: int, now: int)
    ensures
      var k, after := Key(c.team, id), Progress(b, c, id, token, pct, want, dflt, now);
      if !Holder(b, c, id, token) then after == b
      else
        var t := b.tasks[k];
        var p := if pct.None? then t.progress else if pct.value < 0 then 0 else if pct.value > 100 then 100 else pct.value;
        var seconds := if t.ttl == None then dflt else t.ttl.value;
        && k in after.tasks && StatusMoves(t.status, want, after.tasks[k].status)
        && Becomes(b, after, k, t.(status := after.tasks[k].status, progress := p, lease := Some(now + 1000 * seconds)))
        && after.claims == b.claims
        && Logs(b, after, c, TaskProgress(id, if pct.None? then None else Some(p), after.tasks[k].status))
  {
  }

  lemma CompleteMeans(b: Board, c: Caller, id: string, token: int, summary: Option<string>, now: int)
    ensures
      var k, after := Key(c.team, id), Complete(b, c, id, token, summary, now);
      if !Holder(b, c, id, token) then after == b
      else
        && Becomes(b, after, k, b.tasks[k].(status := Done, progress := 100, result := summary, lease := None))
        && RowsClosed(b.claims, after.claims, {k}, c.agent, now, Completed)
        && Logs(b, after, c, TaskCompleted(id, summary))
  {
    CloseMeans(b.claims, Key(c.team, id), c.agent, now, Completed);
  }

  /** A strike counts the attempt; the task is dead-lettered when the count reaches its limit and queued again before that. */
  ghost predicate StruckOnce(t: Task, after: Task, result: Option<string>) {
    after == t.(status := if t.attempts + 1 < t.maxAttempts then Open else Failed, assignee := None,
                attempts := t.attempts + 1, lease := None, result := result)
  }

  lemma FailMeans(b: Board, c: Caller, id: string, token: int, error: Option<string>, now: int)
    ensures
      var k, after := Key(c.team, id), Fail(b, c, id, token, error, now);
      if !Holder(b, c, id, token) then after == b
      else
        var t, cause := b.tasks[k], Reported(error, b.tasks[k].attempts + 1);
        && k in after.tasks && StruckOnce(t, after.tasks[k], error) && Becomes(b, after, k, after.tasks[k])
        && RowsClosed(b.claims, after.claims, {k}, c.agent, now, GaveUp)
        && Logs(b, after, c, if t.attempts + 1 < t.maxAttempts then TaskRequeued(id, cause) else TaskFailed(id, cause))
  {
    CloseMeans(b.claims, Key(c.team, id), c.agent, now, GaveUp);
  }

  lemma ReleaseMeans(b: Board, c: Caller, id: string, token: int, now: int)
    ensures
      var k, after := Key(c.team, id), Release(b, c, id, token, now);
      if !Holder(b, c, id, token) then after == b
      else
        && Becomes(b, after, k, b.tasks[k].(status := Open, assignee := None, lease := None))
        && RowsClosed(b.claims, after.claims, {k}, c.agent, now, Released)
        && Logs(b, after, c, TaskReleased(id))
  {
    CloseMeans(b.claims, Key(c.team, id), c.agent, now, Released);
  }

  // ------------------------------------------------ heartbeat, leave, reaper

  /** A heartbeat grants each task the caller holds its own ttl, zero included, and the default only if it has none. */
  lemma HeartbeatMeans(b: Board, c: Caller, dflt: int, now: int)
    ensures
      var after := Heartbeat(b, c, dflt, now);
      && after.deps == b.deps && after.claims == b.claims && after.log == b.log
      && (forall k :: k in after.tasks <==> k in b.tasks)
      && (forall k | k in b.tasks :: after.tasks[k] ==
            if !HeldBy(b, c, k) then b.tasks[k]
            else b.tasks[k].(lease := Some(now + 1000 * (if b.tasks[k].ttl == None then dflt else b.tasks[k].ttl.value))))
  {
  }

  lemma {:induction false} LeaveAllRows(b: Board, c: Caller, order: seq<Key>, now: int)
    requires forall k | k in order :: k in b.tasks
    ensures LeaveAll(b, c, order, now).tasks.Keys == b.tasks.Keys
    ensures RowsClosed(b.claims, LeaveAll(b, c, order, now).claims, (set k | k in order), c.agent, now, Released)
  {
    if order != [] {
      var front, k, mid := Init(order), Last(order), LeaveAll(b, c, Init(order), now);
      SplitLast(order);
      LeaveAllRows(b, c, front, now);
      CloseMeans(mid.claims, k, c.agent, now, Released);
      CloseAlso(b.claims, mid.claims, Close(mid.claims, k, c.agent, now, Released), (set j | j in front), k, c.agent, now);
      assert (set j | j in order) == (set j | j in front) + {k};
    }
  }

  lemma {:induction false} LeaveAllMeans(b: Board, c: Caller, order: seq<Key>, now: int)
    requires Distinct(order) && (forall k | k in order :: k in b.tasks)
    ensures
      var after := LeaveAll(b, c, order, now);
      && after.deps == b.deps && |after.log| == |b.log| + |order|
      && (forall k :: k in after.tasks <==> k in b.tasks)
      && (forall k | k in b.tasks :: after.tasks[k] ==
            if k in order then b.tasks[k].(status := Open, assignee := None, lease := None) else b.tasks[k])
      && (forall i | 0 <= i < |b.log| :: after.log[i] == b.log[i])
      && (forall i | 0 <= i < |order| ::
            after.log[|b.log| + i] == Event(c.team, Some(c.agent), TaskRequeued(order[i].id, AgentGone)))
  {
    if order != [] {
      var front, k := Init(order), Last(order);
      SplitLast(order);
      LeaveAllMeans(b, c, front, now);
      assert k !in front && k in LeaveAll(b, c, front, now).tasks;
    }
  }

  lemma CloseAlso(claims: seq<ClaimRow>, mid: seq<ClaimRow>, after: seq<ClaimRow>, keys: set<Key>, k: Key, agent: string, at: int)
    requires RowsClosed(claims, mid, keys, agent, at, Released) && RowsClosed(mid, after, {k}, agent, at, Released)
    ensures RowsClosed(claims, after, keys + {k}, agent, at, Released)
  {
    forall i | 0 <= i < |claims| ensures after[i] ==
      if claims[i].task in keys + {k} && claims[i].agent == agent && claims[i].closed.None?
      then ClaimRow(claims[i].task, agent, claims[i].token, claims[i].claimedAt, Some(Closing(at, Released)))
      else claims[i]
    {
      assert mid[i].task == claims[i].task && mid[i].agent == claims[i].agent;
    }
  }

  /** A leaving agent gives back exactly the tasks it holds, with one event each in their order and one that it left. */
  lemma LeaveMeans(b: Board, c: Caller, order: seq<Key>, now: int)
    requires Enumerates(order, Held(b, c))
    ensures forall k :: k in order <==> HeldBy(b, c, k)
    ensures
      var after := Leave(b, c, order, now);
      && after.deps == b.deps && |after.log| == |b.log| + |order| + 1
      && (forall k :: k in after.tasks <==> k in b.tasks)
      && (forall k | k in b.tasks :: after.tasks[k] ==
            if HeldBy(b, c, k) then b.tasks[k].(status := Open, assignee := None, lease := None) else b.tasks[k])
      && RowsClosed(b.claims, after.claims, (set k | k in order), c.agent, now, Released)
      && (forall i | 0 <= i < |b.log| :: after.log[i] == b.log[i])
      && (forall i | 0 <= i < |order| ::
            after.log[|b.log| + i] == Event(c.team, Some(c.agent), TaskRequeued(order[i].id, AgentGone)))
      && Last(after.log) == Event(c.team, Some(c.agent), AgentLeft(c.agent))
  {
    forall k ensures k in order <==> HeldBy(b, c, k) {
      assert k in Held(b, c) <==> HeldBy(b, c, k);
    }
    LeaveAllMeans(b, c, order, now);
    LeaveAllRows(b, c, order, now);
  }

  /** A re-check strikes a claimed or running task whose lease ended before its clock, and leaves anything else alone. */
  lemma ReapMeans(b: Board, k: Key, now: int, at: int)
    ensures
      var after := Reap(b, k, now, at);
      if !(k in b.tasks && (b.tasks[k].status == Claimed || b.tasks[k].status == InProgress)
           && b.tasks[k].lease.Some? && b.tasks[k].lease.value < now)
      then after == b
      else
        var t, cause := b.tasks[k], LeaseExpired(b.tasks[k].attempts + 1);
        && k in after.tasks && StruckOnce(t, after.tasks[k], t.result) && Becomes(b, after, k, after.tasks[k])
        && (if t.assignee.Some? then RowsClosed(b.claims, after.claims, {k}, t.assignee.value, at, Expired)
            else after.claims == b.claims)
        && after.log == b.log + [Event(k.team, t.assignee,
                                       if t.attempts + 1 < t.maxAttempts then TaskRequeued(k.id, cause) else TaskFailed(k.id, cause))]
  {
    if k in b.tasks && b.tasks[k].assignee.Some? {
      CloseMeans(b.claims, k, b.tasks[k].assignee.value, at, Expired);
    }
  }
}
