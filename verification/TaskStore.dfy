/**
 The task tools as the server runs them: each method is one transaction that updates the
 tables in place, and is proved to leave exactly the tables and to give exactly the reply
 that the functions of TaskBoard describe.
 */
module TaskStore {
  import opened Common
  import opened TaskBoard
  import opened TaskReplies
  import opened TaskCalls
  import opened Idempotency
  import TaskRuns
  import Scheduling
  import Leases

  // Every call leads from a reachable board to a reachable one, so the theorems about runs hold of the store.
  lemma CreateReaches(b: Board, c: Caller, id: string, on: seq<string>, priority: int, weight: int,
                      ttl: Option<int>, maxAttempts: int, now: int)
    ensures TaskRuns.Reachable(b) ==> TaskRuns.Reachable(Create(b, c, id, on, priority, weight, ttl, maxAttempts, now))
  {
    if TaskRuns.Reachable(b) {
      TaskRuns.StepReaches(b, TaskRuns.DoCreate(c, id, on, priority, weight, ttl, maxAttempts, now));
    }
  }

  lemma ClaimReaches(b: Board, c: Caller, id: string, dflt: int, now: int)
    ensures TaskRuns.Reachable(b) ==> TaskRuns.Reachable(Claim(b, c, id, dflt, now))
  {
    if TaskRuns.Reachable(b) {
      TaskRuns.StepReaches(b, TaskRuns.DoClaim(c, id, dflt, now));
    }
  }

  lemma ProgressReaches(b: Board, c: Caller, id: string, token: int, pct: Option<int>, want: Option<Status>, dflt: int, now: int)
    ensures TaskRuns.Reachable(b) ==> TaskRuns.Reachable(Progress(b, c, id, token, pct, want, dflt, now))
  {
    if TaskRuns.Reachable(b) {
      TaskRuns.StepReaches(b, TaskRuns.DoProgress(c, id, token, pct, want, dflt, now));
    }
  }

  lemma CompleteReaches(b: Board, c: Caller, id: string, token: int, summary: Option<string>, now: int)
    ensures TaskRuns.Reachable(b) ==> TaskRuns.Reachable(Complete(b, c, id, token, summary, now))
  {
    if TaskRuns.Reachable(b) {
      TaskRuns.StepReaches(b, TaskRuns.DoComplete(c, id, token, summary, now));
    }
  }

  lemma FailReaches(b: Board, c: Caller, id: string, token: int, error: Option<string>, now: int)
    ensures TaskRuns.Reachable(b) ==> TaskRuns.Reachable(Fail(b, c, id, token, error, now))
  {
    if TaskRuns.Reachable(b) {
      TaskRuns.StepReaches(b, TaskRuns.DoFail(c, id, token, error, now));
    }
  }

  lemma ReleaseReaches(b: Board, c: Caller, id: string, token: int, now: int)
    ensures TaskRuns.Reachable(b) ==> TaskRuns.Reachable(Release(b, c, id, token, now))
  {
    if TaskRuns.Reachable(b) {
      TaskRuns.StepReaches(b, TaskRuns.DoRelease(c, id, token, now));
    }
  }

  lemma HeartbeatReaches(b: Board, c: Caller, dflt: int, now: int)
    ensures TaskRuns.Reachable(b) ==> TaskRuns.Reachable(Heartbeat(b, c, dflt, now))
  {
    if TaskRuns.Reachable(b) {
      TaskRuns.StepReaches(b, TaskRuns.DoHeartbeat(c, dflt, now));
    }
  }

  lemma LeaveReaches(b: Board, c: Caller, order: seq<Key>, now: int)
    requires Enumerates(order, Held(b, c))
    ensures TaskRuns.Reachable(b) ==> TaskRuns.Reachable(Leave(b, c, order, now))
  {
    if TaskRuns.Reachable(b) {
      TaskRuns.StepReaches(b, TaskRuns.DoLeave(c, order, now));
    }
  }

  lemma SweepReaches(b: Board, order: seq<Key>, clock: nat -> int, plays: nat -> seq<TaskRuns.Step>)
    ensures TaskRuns.Reachable(b) ==> TaskRuns.Reachable(Leases.SweepAmid(b, order, clock, plays))
  {
    if TaskRuns.Reachable(b) {
      Leases.SweepIsRun(b, order, clock, plays);
      TaskRuns.RunReaches(b, Leases.SweepSteps(order, clock, plays));
    }
  }

  lemma SweptUndisturbed(b: Board, order: seq<Key>, clock: nat -> int, plays: nat -> seq<TaskRuns.Step>)
    requires Enumerates(order, Overdue(b, clock(0)))
    ensures Leases.Undisturbed(plays) && Leases.NeverBeforeScan(clock) ==>
      && Leases.Taken(b, order, clock, plays) == |order|
      && Overdue(Leases.SweepAmid(b, order, clock, plays), clock(0)) == {}
  {
    if Leases.Undisturbed(plays) && Leases.NeverBeforeScan(clock) {
      Leases.UndisturbedSweep(b, order, clock, plays);
      Leases.SweepIsComplete(b, order, clock);
    }
  }

  class TaskStore {
    var tasks: map<Key, Task>
    var deps: set<Dep>
    var claims: seq<ClaimRow>
    var log: seq<Event>
    var saved: map<IdemKey, Saved<Reply>>
    const leaseTtl: int
    const maxAttempts: int

    constructor (leaseTtl: int, maxAttempts: int)
      ensures View() == EMPTY && TaskRuns.Reachable(View()) && saved == map[]
      ensures this.leaseTtl == leaseTtl && this.maxAttempts == maxAttempts
    {
      tasks, deps, claims, log, saved := map[], {}, [], [], map[];
      this.leaseTtl, this.maxAttempts := leaseTtl, maxAttempts;
      assert EMPTY == TaskRuns.Run(EMPTY, []);
    }

    ghost function View(): Board
      reads this
    {
      Board(tasks, deps, claims, log)
    }

    ghost function All(): Store<Board, Reply>
      reads this
    {
      Store(View(), saved)
    }

    /** A keyed call that finds no stored reply, or an unkeyed one. */
    ghost predicate FirstTime(c: Caller, idemKey: Option<string>)
      reads this
    {
      idemKey == None || idemKey == Some("") || IdemKey(c.team, c.agent, idemKey.value) !in saved
    }

    /** A later call under a key: the stored reply, and nothing done. */
    twostate predicate Replayed(c: Caller, idemKey: Option<string>, reply: Reply)
      reads this
    {
      && idemKey.Some? && IdemKey(c.team, c.agent, idemKey.value) in old(saved)
      && reply == old(saved)[IdemKey(c.team, c.agent, idemKey.value)].reply && All() == old(All())
    }

    method Append(team: string, actor: Option<string>, body: Body) returns (eventId: nat)
      modifies this`log
      ensures log == old(log) + [Event(team, actor, body)] && eventId == |log|
    {
      log := log + [Event(team, actor, body)];
      eventId := |log|;
    }

    method Remembered(c: Caller, idemKey: Option<string>) returns (prior: Option<Reply>)
      ensures
        var k := KeyOf(c.team, c.agent, idemKey);
        prior == if k.Some? && k.value in saved then Some(saved[k.value].reply) else None
    {
      var k := KeyOf(c.team, c.agent, idemKey);
      prior := if k.Some? && k.value in saved then Some(saved[k.value].reply) else None;
    }

    method Save(c: Caller, idemKey: Option<string>, reply: Reply, at: int)
      modifies this`saved
      ensures
        var k := KeyOf(c.team, c.agent, idemKey);
        saved == if k.Some? then Remember(old(saved), k.value, reply, at) else old(saved)
    {
      var k := KeyOf(c.team, c.agent, idemKey);
      if k.Some? {
        saved := Remember(saved, k.value, reply, at);
      }
    }

    // The loop of create_task over the dependencies it names.
    method AddDeps(k: Key, dependsOn: seq<string>)
      modifies this`deps
      ensures deps == old(deps) + (set d | d in dependsOn :: Dep(k, Key(k.team, d)))
    {
      var i := 0;
      while i < |dependsOn|
        invariant 0 <= i <= |dependsOn|
        invariant deps == old(deps) + (set d | d in dependsOn[..i] :: Dep(k, Key(k.team, d)))
      {
        deps := deps + {Dep(k, Key(k.team, dependsOn[i]))};
        assert dependsOn[..i + 1] == dependsOn[..i] + [dependsOn[i]];
        i := i + 1;
      }
      assert dependsOn[..i] == dependsOn;
    }

    /** `id` is the identifier drawn by new_id before the transaction. */
    method CreateTask(c: Caller, id: string, dependsOn: seq<string>, priority: int, weight: int, ttl: Option<int>,
                      idemKey: Option<string>, now: int, at: int)
      returns (reply: Reply)
      modifies this
      ensures (All(), reply) == Call(old(All()), KeyOf(c.team, c.agent, idemKey),
                                     b => CreateWork(b, c, id, dependsOn, priority, weight, ttl, maxAttempts, now), at)
      ensures if old(FirstTime(c, idemKey)) then CreateAnswers(old(View()), View(), c, id, reply) else Replayed(c, idemKey, reply)
      ensures TaskRuns.Reachable(old(View())) ==> TaskRuns.Reachable(View())
    {
      CreateAnswered(View(), c, id, dependsOn, priority, weight, ttl, maxAttempts, now);
      CreateReaches(View(), c, id, dependsOn, priority, weight, ttl, maxAttempts, now);
      var prior := Remembered(c, idemKey);
      if prior.Some? {
        return prior.value;
      }
      var k := Key(c.team, id);
      if k in tasks {
        return Aborted;
      }
      tasks := tasks[k := Task(Open, priority, Max(1, weight), None, 0, ttl, None, 0, 0, maxAttempts, now, None)];
      AddDeps(k, dependsOn);
      var eid := Append(c.team, Some(c.agent), TaskCreated(id, dependsOn, priority, Max(1, weight)));
      reply := Created(k, eid);
      Save(c, idemKey, reply, at);
    }

    method DoClaim(c: Caller, id: string, now: int) returns (reply: Reply)
      modifies this
      ensures Idempotency.Effect(View(), reply, true) == ClaimWork(old(View()), c, id, leaseTtl, now)
      ensures saved == old(saved)
      ensures ClaimAnswers(old(View()), View(), c, id, now, reply)
      ensures TaskRuns.Reachable(old(View())) ==> TaskRuns.Reachable(View())
    {
      ClaimAnswered(View(), c, id, leaseTtl, now);
      ClaimReaches(View(), c, id, leaseTtl, now);
      var k := Key(c.team, id);
      if k !in tasks {
        return UnknownTask;
      }
      var t := tasks[k];
      if t.status != Open {
        return NotOpen(t.status, t.assignee);
      }
      var unmet := set d | d in deps && d.task == k && (d.on !in tasks || tasks[d.on].status != Done) :: d.on;
      assert unmet == Unmet(View(), k);
      if unmet != {} {
        return DepsUnmet(unmet);
      }
      var ttl := ClaimTtl(t, leaseTtl);
      var lease := now + ttl * 1000;
      tasks := tasks[k := t.(status := Claimed, assignee := Some(c.agent), token := t.token + 1, lease := Some(lease))];
      var token := tasks[k].token;
      claims := claims + [ClaimRow(k, c.agent, token, now, None)];
      var _ := Append(c.team, Some(c.agent), TaskClaimed(id, token));
      reply := ClaimOk(k, token, lease, ttl);
    }

    method ClaimTask(c: Caller, id: string, idemKey: Option<string>, now: int, at: int) returns (reply: Reply)
      modifies this
      ensures (All(), reply) == Call(old(All()), KeyOf(c.team, c.agent, idemKey), b => ClaimWork(b, c, id, leaseTtl, now), at)
      ensures if old(FirstTime(c, idemKey)) then ClaimAnswers(old(View()), View(), c, id, now, reply)
              else Replayed(c, idemKey, reply)
      ensures TaskRuns.Reachable(old(View())) ==> TaskRuns.Reachable(View())
    {
      var prior := Remembered(c, idemKey);
      if prior.Some? {
        return prior.value;
      }
      reply := DoClaim(c, id, now);
      Save(c, idemKey, reply, at);
    }

    /** The queue query: an open task of the team with no unmet dependency that no other such task beats. */
    method NextRow(team: string) returns (row: Option<Key>)
      ensures Scheduling.QueueAnswer(View(), team, row)
    {
      var b := Board(tasks, deps, claims, log);
      var claimable := Scheduling.Claimable(b, team);
      if claimable == {} {
        return None;
      }
      ghost var best := Scheduling.SomeUnbeaten(b, claimable);
      assert Scheduling.IsNext(b, team, best);
      var k :| k in claimable && Scheduling.IsNext(b, team, k);
      row := Some(k);
    }

    /** An unkeyed or first-time call reports none exactly when nothing is claimable, and otherwise claims an unbeaten task. */
    method ClaimNextTask(c: Caller, idemKey: Option<string>, now: int, at: int)
      returns (reply: Reply, ghost answer: Option<Key>)
      modifies this
      ensures Scheduling.QueueAnswer(old(View()), c.team, answer)
      ensures (All(), reply) == Call(old(All()), KeyOf(c.team, c.agent, idemKey),
                                     b => ClaimNextWork(b, c, answer, leaseTtl, now), at)
      ensures if old(FirstTime(c, idemKey)) then NextAnswers(old(View()), View(), c, now, reply) else Replayed(c, idemKey, reply)
      ensures TaskRuns.Reachable(old(View())) ==> TaskRuns.Reachable(View())
    {
      var prior := Remembered(c, idemKey);
      if prior.Some? {
        answer := NextRow(c.team);
        return prior.value, answer;
      }
      var row := NextRow(c.team);
      answer := row;
      NextAnswered(View(), c, row, leaseTtl, now);
      if row.None? {
        reply := NothingEligible;
      } else {
        Scheduling.EligibilityTestsAgree(View(), row.value);
        assert Key(c.team, row.value.id) == row.value;
        reply := DoClaim(c, row.value.id, now);
      }
      Save(c, idemKey, reply, at);
    }

    method UpdateProgress(c: Caller, id: string, token: int, pct: Option<int>, want: Option<Status>, now: int)
      returns (reply: Reply)
      modifies this
      ensures View() == Progress(old(View()), c, id, token, pct, want, leaseTtl, now) && saved == old(saved)
      ensures
        var k := Key(c.team, id);
        if Holder(old(View()), c, id, token)
        then k in tasks && tasks[k].lease.Some? && reply == ProgressOk(k, tasks[k].status, tasks[k].lease.value)
        else Refused(old(View()), View(), c, id, token, reply)
      ensures TaskRuns.Reachable(old(View())) ==> TaskRuns.Reachable(View())
    {
      ProgressReaches(View(), c, id, token, pct, want, leaseTtl, now);
      var k := Key(c.team, id);
      if k !in tasks {
        return UnknownTask;
      }
      var t := tasks[k];
      if t.assignee != Some(c.agent) || t.token != token {
        return Stale(t.token, t.assignee);
      }
      var status := ProgressStatus(t.status, want);
      var lease := now + RenewTtl(t, leaseTtl) * 1000;
      t := t.(status := status, lease := Some(lease));
      var clamped := None;
      if pct.Some? {
        clamped := Some(Max(0, Min(100, pct.value)));
        t := t.(progress := clamped.value);
      }
      tasks := tasks[k := t];
      var _ := Append(c.team, Some(c.agent), TaskProgress(id, clamped, status));
      reply := ProgressOk(k, status, lease);
    }

    // The completion itself, in the transaction of complete_task.
    method Finish(c: Caller, id: string, token: int, summary: Option<string>, now: int) returns (reply: Reply)
      modifies this
      ensures Idempotency.Effect(View(), reply, true) == CompleteWork(old(View()), c, id, token, summary, now)
      ensures saved == old(saved)
    {
      var k := Key(c.team, id);
      if k !in tasks {
        return UnknownTask;
      }
      if tasks[k].assignee != Some(c.agent) || tasks[k].token != token {
        return Stale(tasks[k].token, tasks[k].assignee);
      }
      tasks := tasks[k := tasks[k].(status := Done, progress := 100, result := summary, lease := None)];
      claims := Close(claims, k, c.agent, now, Completed);
      var eid := Append(c.team, Some(c.agent), TaskCompleted(id, summary));
      var unblocked := set d | d in deps && d.on == k && d.task.team == c.team && d.task in tasks
        && tasks[d.task].status == Open
        && !(exists e :: e in deps && e.task == d.task && !(e.on in tasks && tasks[e.on].status == Done)) :: d.task;
      assert unblocked == Scheduling.Unblocked(View(), k);
      reply := CompleteOk(k, eid, unblocked);
    }

    method CompleteTask(c: Caller, id: string, token: int, summary: Option<string>, idemKey: Option<string>, now: int, at: int)
      returns (reply: Reply)
      modifies this
      ensures (All(), reply) == Call(old(All()), KeyOf(c.team, c.agent, idemKey),
                                     b => CompleteWork(b, c, id, token, summary, now), at)
      ensures if old(FirstTime(c, idemKey)) then CompleteAnswers(old(View()), View(), c, id, token, summary, reply)
              else Replayed(c, idemKey, reply)
      ensures TaskRuns.Reachable(old(View())) ==> TaskRuns.Reachable(View())
      ensures old(FirstTime(c, idemKey)) ==> ReportsNewlyReady(old(View()), View(), c, id, reply)
    {
      CompleteAnswered(View(), c, id, token, summary, now);
      CompletionReports(View(), c, id, token, summary, now);
      CompleteReaches(View(), c, id, token, summary, now);
      var prior := Remembered(c, idemKey);
      if prior.Some? {
        return prior.value;
      }
      reply := Finish(c, id, token, summary, now);
      Save(c, idemKey, reply, at);
    }

    method FailTask(c: Caller, id: string, token: int, error: Option<string>, now: int) returns (reply: Reply)
      modifies this
      ensures View() == Fail(old(View()), c, id, token, error, now) && saved == old(saved)
      ensures
        var k := Key(c.team, id);
        if Holder(old(View()), c, id, token)
        then k in tasks && reply == FailOk(k, tasks[k].status == Failed, tasks[k].attempts)
        else Refused(old(View()), View(), c, id, token, reply)
      ensures TaskRuns.Reachable(old(View())) ==> TaskRuns.Reachable(View())
    {
      FailReaches(View(), c, id, token, error, now);
      var k := Key(c.team, id);
      if k !in tasks {
        return UnknownTask;
      }
      var t := tasks[k];
      if t.assignee != Some(c.agent) || t.token != token {
        return Stale(t.token, t.assignee);
      }
      var attempts := t.attempts + 1;
      var dead := attempts >= t.maxAttempts;
      tasks := tasks[k := t.(status := if dead then Failed else Open, assignee := None, attempts := attempts,
                             lease := None, result := error)];
      claims := Close(claims, k, c.agent, now, GaveUp);
      var cause := Reported(error, attempts);
      var _ := Append(c.team, Some(c.agent), if dead then TaskFailed(id, cause) else TaskRequeued(id, cause));
      reply := FailOk(k, dead, attempts);
    }

    method ReleaseTask(c: Caller, id: string, token: int, now: int) returns (reply: Reply)
      modifies this
      ensures View() == Release(old(View()), c, id, token, now) && saved == old(saved)
      ensures if Holder(old(View()), c, id, token) then reply == ReleaseOk(Key(c.team, id))
              else Refused(old(View()), View(), c, id, token, reply)
      ensures TaskRuns.Reachable(old(View())) ==> TaskRuns.Reachable(View())
    {
      ReleaseReaches(View(), c, id, token, now);
      var k := Key(c.team, id);
      if k !in tasks {
        return UnknownTask;
      }
      var t := tasks[k];
      if t.assignee != Some(c.agent) || t.token != token {
        return Stale(t.token, t.assignee);
      }
      tasks := tasks[k := t.(status := Open, assignee := None, lease := None)];
      claims := Close(claims, k, c.agent, now, Released);
      var _ := Append(c.team, Some(c.agent), TaskReleased(id));
      reply := ReleaseOk(k);
    }

    method HeartbeatOf(c: Caller, now: int) returns (held: set<Key>)
      modifies this`tasks
      ensures View() == Heartbeat(old(View()), c, leaseTtl, now)
      ensures held == Held(old(View()), c) && forall k :: k in held <==> HeldBy(old(View()), c, k)
      ensures TaskRuns.Reachable(old(View())) ==> TaskRuns.Reachable(View())
    {
      HeartbeatReaches(View(), c, leaseTtl, now);
      held := set k | k in tasks && k.team == c.team && tasks[k].assignee == Some(c.agent) && Running(tasks[k].status);
      var left := held;
      while left != {}
        invariant left <= held == Held(old(View()), c)
        invariant tasks == map k | k in old(tasks) :: if k in held - left
          then old(tasks)[k].(lease := Some(now + RenewTtl(old(tasks)[k], leaseTtl) * 1000)) else old(tasks)[k]
        decreases left
      {
        var k :| k in left;
        tasks := tasks[k := tasks[k].(lease := Some(now + RenewTtl(tasks[k], leaseTtl) * 1000))];
        left := left - {k};
      }
    }

    // The loop of leave_team over the tasks the agent holds.
    method GiveBack(c: Caller, now: int) returns (requeued: seq<Key>)
      modifies this
      ensures Enumerates(requeued, Held(old(View()), c))
      ensures View() == LeaveAll(old(View()), c, requeued, now) && saved == old(saved)
    {
      var held := set k | k in tasks && k.team == c.team && tasks[k].assignee == Some(c.agent) && Running(tasks[k].status);
      var left := held;
      requeued := [];
      while left != {}
        invariant left <= held == Held(old(View()), c)
        invariant Enumerates(requeued, held - left)
        invariant tasks.Keys == old(tasks).Keys && saved == old(saved)
        invariant View() == LeaveAll(old(View()), c, requeued, now)
        decreases left
      {
        var k :| k in left;
        tasks := tasks[k := tasks[k].(status := Open, assignee := None, lease := None)];
        claims := Close(claims, k, c.agent, now, Released);
        var _ := Append(c.team, Some(c.agent), TaskRequeued(k.id, AgentGone));
        assert Init(requeued + [k]) == requeued;
        requeued := requeued + [k];
        left := left - {k};
      }
    }

    method LeaveTeam(c: Caller, now: int) returns (requeued: seq<Key>)
      modifies this
      ensures Enumerates(requeued, Held(old(View()), c))
      ensures View() == Leave(old(View()), c, requeued, now) && saved == old(saved)
      ensures forall k :: k in requeued <==> HeldBy(old(View()), c, k)
      ensures TaskRuns.Reachable(old(View())) ==> TaskRuns.Reachable(View())
    {
      requeued := GiveBack(c, now);
      var _ := Append(c.team, Some(c.agent), AgentLeft(c.agent));
      LeaveMeans(old(View()), c, requeued, now);
      LeaveReaches(old(View()), c, requeued, now);
    }

    /** One candidate of a sweep, re-checked under the lock. */
    method Recheck(k: Key, now: int, at: int) returns (took: bool)
      modifies this
      ensures View() == Reap(old(View()), k, now, at) && saved == old(saved)
      ensures took <==> k in old(tasks) && Reapable(old(tasks)[k], now)
    {
      if k !in tasks || !Running(tasks[k].status) {
        return false;
      }
      var t := tasks[k];
      if t.lease.None? || t.lease.value >= now {
        return false;
      }
      var attempts := t.attempts + 1;
      var dead := attempts >= t.maxAttempts;
      tasks := tasks[k := t.(status := if dead then Failed else Open, assignee := None, attempts := attempts, lease := None)];
      if t.assignee.Some? {
        claims := Close(claims, k, t.assignee.value, at, Expired);
      }
      var cause := LeaseExpired(attempts);
      var _ := Append(k.team, t.assignee, if dead then TaskFailed(k.id, cause) else TaskRequeued(k.id, cause));
      took := true;
    }

    // What other callers do before the i-th candidate, and its re-check.
    method NextCandidate(k: Key, i: nat, clock: nat -> int, others: (nat, Board) -> Board, ghost plays: nat -> seq<TaskRuns.Step>)
      returns (took: bool)
      requires forall i, b :: others(i, b) == TaskRuns.Run(b, plays(i))
      modifies this
      ensures saved == old(saved)
      ensures View() == Leases.AmidOne(old(View()), k, i, clock, plays)
      ensures took <==> Leases.Takes(old(View()), k, i, clock, plays)
    {
      var b := others(i, Board(tasks, deps, claims, log));
      tasks, deps, claims, log := b.tasks, b.deps, b.claims, b.log;
      took := Recheck(k, clock(2 * i + 1), clock(2 * i + 2));
    }

    /**
     One sweep.  `clock` lists the readings it makes, and `others(i, b)` is the board that other callers,
     playing `plays(i)`, make of `b` before its i-th re-check.
     */
    method SweepOnce(clock: nat -> int, others: (nat, Board) -> Board, ghost plays: nat -> seq<TaskRuns.Step>)
      returns (reaped: nat, ghost order: seq<Key>)
      requires forall i, b :: others(i, b) == TaskRuns.Run(b, plays(i))
      modifies this
      ensures Enumerates(order, Overdue(old(View()), clock(0)))
      ensures View() == Leases.SweepAmid(old(View()), order, clock, plays) && saved == old(saved)
      ensures reaped == Leases.Taken(old(View()), order, clock, plays)
      ensures Leases.Undisturbed(plays) && Leases.NeverBeforeScan(clock) ==>
        reaped == |order| && Overdue(View(), clock(0)) == {}
      ensures TaskRuns.Reachable(old(View())) ==> TaskRuns.Reachable(View())
    {
      var now := clock(0);
      var candidates := set k | k in tasks && Reapable(tasks[k], now);
      order, reaped := [], 0;
      var left, i := candidates, 0;
      while left != {}
        invariant left <= candidates == Overdue(old(View()), now)
        invariant Enumerates(order, candidates - left) && i == |order|
        invariant View() == Leases.SweepAmid(old(View()), order, clock, plays) && saved == old(saved)
        invariant reaped == Leases.Taken(old(View()), order, clock, plays)
        decreases left
      {
        var k :| k in left;
        left := left - {k};
        Leases.AmidAppend(old(View()), order, clock, plays, k);
        var took := NextCandidate(k, i, clock, others, plays);
        order, i := order + [k], i + 1;
        if took {
          reaped := reaped + 1;
        }
      }
      SweptUndisturbed(old(View()), order, clock, plays);
      SweepReaches(old(View()), order, clock, plays);
    }

    method PruneIdempotency(cutoff: int)
      modifies this`saved
      ensures All() == Idempotency.Apply(old(All()), Prune(cutoff))
    {
      saved := map k | k in saved && saved[k].at >= cutoff :: saved[k];
    }
  }
}
