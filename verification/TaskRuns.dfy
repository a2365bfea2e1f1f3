/**
 Every interleaving of the task protocol: calls by any agents of any teams, the reaper's
 locked re-checks at any moment, and events other tools put in the log in between.

 A reaper step may name any task at any time, so a run covers every way the steps of
 other callers can fall between the reaper's scan and its re-check of a candidate.
 Each step carries its own clock readings; they need not grow along a run.
*/
module TaskRuns {
  import opened Common
  import opened TaskBoard

  datatype Step =
    | DoCreate(c: Caller, id: string, dependsOn: seq<string>, priority: int, weight: int, ttl: Option<int>, maxAttempts: int, now: int)
    | DoClaim(c: Caller, id: string, dflt: int, now: int)
    | DoProgress(c: Caller, id: string, token: int, pct: Option<int>, want: Option<Status>, dflt: int, now: int)
    | DoComplete(c: Caller, id: string, token: int, summary: Option<string>, now: int)
    | DoFail(c: Caller, id: string, token: int, error: Option<string>, now: int)
    | DoRelease(c: Caller, id: string, token: int, now: int)
    | DoHeartbeat(c: Caller, dflt: int, now: int)
    | DoLeave(c: Caller, order: seq<Key>, now: int)
    | DoReap(k: Key, now: int, at: int)
    | DoOther(team: string, actor: Option<string>, kind: string)

  ghost function Apply(b: Board, s: Step): Board {
    match s
    case DoCreate(c, id, dependsOn, priority, weight, ttl, maxAttempts, now) =>
      Create(b, c, id, dependsOn, priority, weight, ttl, maxAttempts, now)
    case DoClaim(c, id, dflt, now) => Claim(b, c, id, dflt, now)
    case DoProgress(c, id, token, pct, want, dflt, now) => Progress(b, c, id, token, pct, want, dflt, now)
    case DoComplete(c, id, token, summary, now) => Complete(b, c, id, token, summary, now)
    case DoFail(c, id, token, error, now) => Fail(b, c, id, token, error, now)
    case DoRelease(c, id, token, now) => Release(b, c, id, token, now)
    case DoHeartbeat(c, dflt, now) => Heartbeat(b, c, dflt, now)
    case DoLeave(c, order, now) => if Enumerates(order, Held(b, c)) then Leave(b, c, order, now) else b
    case DoReap(k, now, at) => Reap(b, k, now, at)
    case DoOther(team, actor, kind) => b.(log := b.log + [Event(team, actor, OtherKind(kind))])
  }

  ghost function Run(b: Board, steps: seq<Step>): Board {
    if steps == [] then b else Apply(Run(b, Init(steps)), Last(steps))
  }

  /** A board that some run leads to from the empty one. */
  ghost predicate Reachable(b: Board) {
    exists steps :: b == Run(EMPTY, steps)
  }

  lemma StepReaches(b: Board, s: Step)
    requires Reachable(b)
    ensures Reachable(Apply(b, s))
  {
    var steps :| b == Run(EMPTY, steps);
    RunAppend(EMPTY, steps, s);
  }

  lemma RunReaches(b: Board, more: seq<Step>)
    requires Reachable(b)
    ensures Reachable(Run(b, more))
  {
    var steps :| b == Run(EMPTY, steps);
    RunConcat(EMPTY, steps, more);
  }

  lemma RunAppend(b: Board, steps: seq<Step>, s: Step)
    ensures Run(b, steps + [s]) == Apply(Run(b, steps), s)
  {
    assert Init(steps + [s]) == steps;
  }

  /** A run of two parts is the second part run from where the first ended. */
  lemma {:induction false} RunConcat(b: Board, first: seq<Step>, second: seq<Step>)
    ensures Run(b, first + second) == Run(Run(b, first), second)
  {
    if second == [] {
      assert first + second == first;
    } else {
      SplitOver(first, second);
      RunConcat(b, first, Init(second));
      RunAppend(b, first + Init(second), Last(second));
    }
  }

  // The last step of a run that continues another.
  lemma RunLast(before: seq<Step>, after: seq<Step>)
    requires after != []
    ensures Run(EMPTY, before + after) == Apply(Run(EMPTY, before + Init(after)), Last(after))
  {
    SplitOver(before, after);
    RunAppend(EMPTY, before + Init(after), Last(after));
  }

  // ------------------------------------------------- what one step may change

  /** The rows of task_claims that belong to `k`, oldest first. */
  ghost function Ledger(claims: seq<ClaimRow>, k: Key): seq<ClaimRow> {
    if claims == [] then []
    else Ledger(Init(claims), k) + (if Last(claims).task == k then [Last(claims)] else [])
  }

  lemma {:induction false} LedgerOfClose(claims: seq<ClaimRow>, k: Key, agent: string, at: int, outcome: Outcome, q: Key)
    ensures Ledger(Close(claims, k, agent, at, outcome), q) ==
            if q == k then Close(Ledger(claims, k), k, agent, at, outcome) else Ledger(claims, q)
  {
    if claims != [] {
      LedgerOfClose(Init(claims), k, agent, at, outcome, q);
      var closed := Close(claims, k, agent, at, outcome);
      assert Init(closed) == Close(Init(claims), k, agent, at, outcome);
      var front := Ledger(Init(claims), k);
      if q == k && Last(claims).task == k {
        assert Init(front + [Last(claims)]) == front;
      } else if q == k {
        assert Ledger(claims, k) == front;
      }
    }
  }

  /** What one step does to one task: its row and its ledger. */
  datatype Move =
    | Stay
    | Take(agent: string, lease: int, now: int)
    | Advance(agent: string, status: Status, lease: int, progress: int)
    | Finish(agent: string, summary: Option<string>, at: int)
    | Strike(holder: Option<string>, result: Option<string>, outcome: Outcome, at: int)
    | GiveBack(agent: string, at: int)
    | Renew(agent: string, lease: int)

  ghost function MoveOf(b: Board, s: Step, k: Key): Move
    requires k in b.tasks
  {
    var t := b.tasks[k];
    match s
    case DoClaim(c, id, dflt, now) =>
      if k == Key(c.team, id) && CanClaim(b, k) then Take(c.agent, now + ClaimTtl(t, dflt) * 1000, now) else Stay
    case DoProgress(c, id, token, pct, want, dflt, now) =>
      if k == Key(c.team, id) && Holds(b, c, id, token) then
        Advance(c.agent, ProgressStatus(t.status, want), now + RenewTtl(t, dflt) * 1000,
                if pct.Some? then Max(0, Min(100, pct.value)) else t.progress)
      else Stay
    case DoComplete(c, id, token, summary, now) =>
      if k == Key(c.team, id) && Holds(b, c, id, token) then Finish(c.agent, summary, now) else Stay
    case DoFail(c, id, token, error, now) =>
      if k == Key(c.team, id) && Holds(b, c, id, token) then Strike(Some(c.agent), error, GaveUp, now) else Stay
    case DoRelease(c, id, token, now) =>
      if k == Key(c.team, id) && Holds(b, c, id, token) then GiveBack(c.agent, now) else Stay
    case DoHeartbeat(c, dflt, now) =>
      if k in Held(b, c) then Renew(c.agent, now + RenewTtl(t, dflt) * 1000) else Stay
    case DoLeave(c, order, now) =>
      if Enumerates(order, Held(b, c)) && k in Held(b, c) then GiveBack(c.agent, now) else Stay
    case DoReap(q, now, at) =>
      if q == k && Reapable(t, now) then Strike(t.assignee, t.result, Expired, at) else Stay
    case _ => Stay
  }

  // The states of a task in which a move can happen.
  ghost predicate Allowed(t: Task, m: Move) {
    match m
    case Stay => true
    case Take(_, _, _) => t.status == Open
    case Advance(agent, status, _, _) =>
      t.assignee == Some(agent) && (status == t.status || status == InProgress || status == Blocked) && status != Claimed
    case Finish(agent, _, _) => t.assignee == Some(agent)
    case Strike(holder, _, outcome, _) =>
      && t.assignee == holder
      && (outcome == GaveUp || outcome == Expired)
      && (outcome == GaveUp ==> holder.Some?)
      && (outcome == Expired ==> Running(t.status))
    case GiveBack(agent, _) => t.assignee == Some(agent)
    case Renew(agent, _) => t.assignee == Some(agent) && Running(t.status)
  }

  ghost function Moved(t: Task, m: Move): Task {
    match m
    case Stay => t
    case Take(agent, lease, _) => t.(status := Claimed, assignee := Some(agent), token := t.token + 1, lease := Some(lease))
    case Advance(_, status, lease, progress) => t.(status := status, lease := Some(lease), progress := progress)
    case Finish(_, summary, _) => t.(status := Done, progress := 100, result := summary, lease := None)
    case Strike(_, result, _, _) => Struck(t).(result := result)
    case GiveBack(_, _) => Freed(t)
    case Renew(_, lease) => t.(lease := Some(lease))
  }

  ghost function MovedLedger(rows: seq<ClaimRow>, k: Key, t: Task, m: Move): seq<ClaimRow> {
    match m
    case Take(agent, _, now) => rows + [ClaimRow(k, agent, t.token + 1, now, None)]
    case Finish(agent, _, at) => Close(rows, k, agent, at, Completed)
    case Strike(holder, _, outcome, at) => if holder.Some? then Close(rows, k, holder.value, at, outcome) else rows
    case GiveBack(agent, at) => Close(rows, k, agent, at, Released)
    case _ => rows
  }

  lemma {:induction false} LeaveAllEffect(b: Board, c: Caller, order: seq<Key>, now: int, k: Key)
    requires Distinct(order)
    ensures
      var after := LeaveAll(b, c, order, now);
      && after.tasks.Keys == b.tasks.Keys
      && after.deps == b.deps
      && (k in b.tasks ==> after.tasks[k] == (if k in order then Freed(b.tasks[k]) else b.tasks[k]))
      && Ledger(after.claims, k) ==
         (if k in b.tasks && k in order then Close(Ledger(b.claims, k), k, c.agent, now, Released) else Ledger(b.claims, k))
  {
    if order != [] {
      LeaveAllEffect(b, c, Init(order), now, k);
      var before := LeaveAll(b, c, Init(order), now);
      LedgerOfClose(before.claims, Last(order), c.agent, now, Released, k);
      assert order == Init(order) + [Last(order)];
    }
  }

  /** Every step acts on the row of every existing task as exactly one allowed move. */
  lemma StepMoves(b: Board, s: Step, k: Key)
    requires k in b.tasks
    ensures Allowed(b.tasks[k], MoveOf(b, s, k))
    ensures k in Apply(b, s).tasks && Apply(b, s).tasks[k] == Moved(b.tasks[k], MoveOf(b, s, k))
  {
    if s.DoLeave? && Enumerates(s.order, Held(b, s.c)) {
      LeaveAllEffect(b, s.c, s.order, s.now, k);
    }
  }

  // The ledger after a step, whether or not the task exists.
  ghost function LedgerAfter(b: Board, s: Step, k: Key): seq<ClaimRow> {
    var rows := Ledger(b.claims, k);
    if k in b.tasks then MovedLedger(rows, k, b.tasks[k], MoveOf(b, s, k)) else rows
  }

  lemma ClaimLedger(b: Board, s: Step, k: Key)
    requires s.DoClaim?
    ensures Ledger(Apply(b, s).claims, k) == LedgerAfter(b, s, k)
  {
    var after := Apply(b, s);
    if CanClaim(b, Key(s.c.team, s.id)) {
      assert Init(after.claims) == b.claims;
    }
  }

  lemma ReapLedger(b: Board, s: Step, k: Key)
    requires s.DoReap?
    ensures Ledger(Apply(b, s).claims, k) == LedgerAfter(b, s, k)
  {
    if s.k in b.tasks && Reapable(b.tasks[s.k], s.now) && b.tasks[s.k].assignee.Some? {
      assert Apply(b, s).claims == Close(b.claims, s.k, b.tasks[s.k].assignee.value, s.at, Expired);
      LedgerOfClose(b.claims, s.k, b.tasks[s.k].assignee.value, s.at, Expired, k);
    }
  }

  lemma LeaveLedger(b: Board, s: Step, k: Key)
    requires s.DoLeave?
    ensures Ledger(Apply(b, s).claims, k) == LedgerAfter(b, s, k)
  {
    if Enumerates(s.order, Held(b, s.c)) {
      LeaveAllEffect(b, s.c, s.order, s.now, k);
    }
  }

  lemma CompleteLedger(b: Board, s: Step, k: Key)
    requires s.DoComplete?
    ensures Ledger(Apply(b, s).claims, k) == LedgerAfter(b, s, k)
  {
    if Holds(b, s.c, s.id, s.token) {
      assert Apply(b, s).claims == Close(b.claims, Key(s.c.team, s.id), s.c.agent, s.now, Completed);
      LedgerOfClose(b.claims, Key(s.c.team, s.id), s.c.agent, s.now, Completed, k);
    }
  }

  lemma FailLedger(b: Board, s: Step, k: Key)
    requires s.DoFail?
    ensures Ledger(Apply(b, s).claims, k) == LedgerAfter(b, s, k)
  {
    if Holds(b, s.c, s.id, s.token) {
      assert Apply(b, s).claims == Close(b.claims, Key(s.c.team, s.id), s.c.agent, s.now, GaveUp);
      LedgerOfClose(b.claims, Key(s.c.team, s.id), s.c.agent, s.now, GaveUp, k);
    }
  }

  lemma ReleaseLedger(b: Board, s: Step, k: Key)
    requires s.DoRelease?
    ensures Ledger(Apply(b, s).claims, k) == LedgerAfter(b, s, k)
  {
    if Holds(b, s.c, s.id, s.token) {
      assert Apply(b, s).claims == Close(b.claims, Key(s.c.team, s.id), s.c.agent, s.now, Released);
      LedgerOfClose(b.claims, Key(s.c.team, s.id), s.c.agent, s.now, Released, k);
    }
  }

  /** The same move says what happens to the ledger; tasks that do not exist have no rows to change. */
  lemma StepLedger(b: Board, s: Step, k: Key)
    ensures Ledger(Apply(b, s).claims, k) == LedgerAfter(b, s, k)
  {
    if s.DoClaim? {
      ClaimLedger(b, s, k);
    } else if s.DoReap? {
      ReapLedger(b, s, k);
    } else if s.DoLeave? {
      LeaveLedger(b, s, k);
    } else if s.DoComplete? {
      CompleteLedger(b, s, k);
    } else if s.DoFail? {
      FailLedger(b, s, k);
    } else if s.DoRelease? {
      ReleaseLedger(b, s, k);
    }
  }

  /** A task that did not exist either still does not, or was just created with a fresh row. */
  lemma StepElsewhere(b: Board, s: Step, k: Key)
    requires k !in b.tasks
    ensures k in Apply(b, s).tasks ==>
      && s.DoCreate? && k == Key(s.c.team, s.id)
      && Apply(b, s).tasks[k] ==
         Task(Open, s.priority, Max(1, s.weight), None, 0, s.ttl, None, 0, 0, s.maxAttempts, s.now, None)
  {
    if s.DoLeave? && Enumerates(s.order, Held(b, s.c)) {
      LeaveAllEffect(b, s.c, s.order, s.now, k);
    }
  }
}
