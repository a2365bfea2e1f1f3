/**
 Tenant isolation of the task protocol, as non-interference: what a team's board looks like after
 any run is what it would have been had the other teams done nothing at all.
 */
module Isolation {
  import opened Common
  import opened TaskBoard
  import opened TaskRuns
  import Scheduling

  function TeamOf(s: Step): string {
    match s
    case DoReap(k, _, _) => k.team
    case DoOther(team, _, _) => team
    case _ => s.c.team
  }

  function OwnRows(claims: seq<ClaimRow>, team: string): seq<ClaimRow> {
    if claims == [] then []
    else OwnRows(Init(claims), team) + (if Last(claims).task.team == team then [Last(claims)] else [])
  }

  function OwnEvents(log: seq<Event>, team: string): seq<Event> {
    if log == [] then []
    else OwnEvents(Init(log), team) + (if Last(log).team == team then [Last(log)] else [])
  }

  function OwnSteps(steps: seq<Step>, team: string): seq<Step> {
    if steps == [] then []
    else OwnSteps(Init(steps), team) + (if TeamOf(Last(steps)) == team then [Last(steps)] else [])
  }

  /** The part of every table that belongs to `team`. */
  ghost function Own(b: Board, team: string): Board {
    Board((map k | k in b.tasks && k.team == team :: b.tasks[k]),
          (set d | d in b.deps && d.task.team == team),
          OwnRows(b.claims, team),
          OwnEvents(b.log, team))
  }

  lemma {:induction false} OwnRowsOfClose(claims: seq<ClaimRow>, k: Key, agent: string, at: int, outcome: Outcome, team: string)
    ensures OwnRows(Close(claims, k, agent, at, outcome), team) ==
            if k.team == team then Close(OwnRows(claims, team), k, agent, at, outcome) else OwnRows(claims, team)
  {
    if claims != [] {
      OwnRowsOfClose(Init(claims), k, agent, at, outcome, team);
      var closed := Close(claims, k, agent, at, outcome);
      assert Init(closed) == Close(Init(claims), k, agent, at, outcome);
      var front := OwnRows(Init(claims), team);
      if Last(claims).task.team == team {
        assert Init(front + [Last(claims)]) == front;
      } else {
        assert OwnRows(claims, team) == front;
      }
    }
  }

  lemma OwnRowsAppend(claims: seq<ClaimRow>, r: ClaimRow, team: string)
    ensures OwnRows(claims + [r], team) == if r.task.team == team then OwnRows(claims, team) + [r] else OwnRows(claims, team)
  {
    assert Init(claims + [r]) == claims;
  }

  lemma OwnAppend(log: seq<Event>, e: Event, team: string)
    ensures OwnEvents(log + [e], team) == if e.team == team then OwnEvents(log, team) + [e] else OwnEvents(log, team)
  {
    assert Init(log + [e]) == log;
  }

  // One task of some team replaced, one event of that team appended.
  lemma OwnUpdate(b: Board, k: Key, t: Task, claims: seq<ClaimRow>, e: Event, team: string)
    requires e.team == k.team
    ensures
      var own := Own(b, team);
      Own(Board(b.tasks[k := t], b.deps, claims, b.log + [e]), team) ==
      if k.team == team then Board(own.tasks[k := t], own.deps, OwnRows(claims, team), own.log + [e])
      else own.(claims := OwnRows(claims, team))
  {
    OwnAppend(b.log, e, team);
  }

  // A team's own tasks, holders and unmet dependencies read the same on its part of the tables.
  lemma OwnTask(b: Board, k: Key)
    ensures k in b.tasks <==> k in Own(b, k.team).tasks
    ensures k in b.tasks ==> Own(b, k.team).tasks[k] == b.tasks[k]
  {
  }

  lemma OwnCanClaim(b: Board, k: Key)
    requires Scheduling.DepsWithinTeams(b)
    ensures CanClaim(Own(b, k.team), k) <==> CanClaim(b, k)
  {
    var own := Own(b, k.team);
    forall d | d in b.deps && d.task == k ensures d in own.deps && (IsDone(b, d.on) <==> IsDone(own, d.on)) {
    }
    assert Unmet(b, k) == Unmet(own, k);
  }

  lemma OwnHeld(b: Board, c: Caller)
    ensures Held(Own(b, c.team), c) == Held(b, c)
  {
  }

  lemma OwnLeaveOne(b: Board, c: Caller, k: Key, now: int, team: string)
    requires k.team == c.team
    ensures Own(LeaveOne(b, c, k, now), team) ==
            if c.team == team then LeaveOne(Own(b, team), c, k, now) else Own(b, team)
  {
    if k in b.tasks {
      var after := LeaveOne(b, c, k, now);
      OwnUpdate(b, k, after.tasks[k], after.claims, Last(after.log), team);
      OwnRowsOfClose(b.claims, k, c.agent, now, Released, team);
    }
  }

  lemma {:induction false} OwnLeaveAll(b: Board, c: Caller, order: seq<Key>, now: int, team: string)
    requires forall k | k in order :: k.team == c.team
    ensures Own(LeaveAll(b, c, order, now), team) ==
            if c.team == team then LeaveAll(Own(b, team), c, order, now) else Own(b, team)
  {
    if order != [] {
      OwnLeaveAll(b, c, Init(order), now, team);
      OwnLeaveOne(LeaveAll(b, c, Init(order), now), c, Last(order), now, team);
    }
  }

  /** What one step does to a team's part: the same step on that part if it is the team's own, nothing otherwise. */
  ghost predicate Isolated(b: Board, s: Step, team: string) {
    Own(Apply(b, s), team) == if TeamOf(s) == team then Apply(Own(b, team), s) else Own(b, team)
  }

  // One task of some team added with its dependencies, one event of that team appended.
  lemma OwnNew(b: Board, k: Key, t: Task, deps: set<Dep>, e: Event, team: string)
    requires e.team == k.team && (forall d | d in deps :: d.task == k)
    ensures
      var own := Own(b, team);
      Own(Board(b.tasks[k := t], b.deps + deps, b.claims, b.log + [e]), team) ==
      if k.team == team then Board(own.tasks[k := t], own.deps + deps, own.claims, own.log + [e]) else own
  {
    OwnAppend(b.log, e, team);
  }

  lemma CreateIsolated(b: Board, s: Step, team: string)
    requires s.DoCreate?
    ensures Isolated(b, s, team)
  {
    var k, after := Key(s.c.team, s.id), Apply(b, s);
    OwnTask(b, k);
    if k !in b.tasks {
      var added := set d | d in s.dependsOn :: Dep(k, Key(s.c.team, d));
      OwnNew(b, k, after.tasks[k], added, Last(after.log), team);
    }
  }

  // A granted claim replaces the task, adds a ledger row and logs one event.
  lemma Granted(b: Board, s: Step) returns (t: Task, r: ClaimRow, e: Event)
    requires s.DoClaim? && CanClaim(b, Key(s.c.team, s.id))
    ensures r.task == Key(s.c.team, s.id) && e.team == s.c.team
    ensures Apply(b, s) == Board(b.tasks[Key(s.c.team, s.id) := t], b.deps, b.claims + [r], b.log + [e])
    ensures t == Moved(b.tasks[Key(s.c.team, s.id)], MoveOf(b, s, Key(s.c.team, s.id)))
    ensures r == ClaimRow(Key(s.c.team, s.id), s.c.agent, t.token, s.now, None)
    ensures e == Event(s.c.team, Some(s.c.agent), TaskClaimed(s.id, t.token))
  {
    var k := Key(s.c.team, s.id);
    t := Apply(b, s).tasks[k];
    r, e := ClaimRow(k, s.c.agent, t.token, s.now, None), Event(s.c.team, Some(s.c.agent), TaskClaimed(s.id, t.token));
  }

  lemma GrantedIsolated(b: Board, s: Step, team: string)
    requires s.DoClaim? && CanClaim(b, Key(s.c.team, s.id)) && CanClaim(Own(b, s.c.team), Key(s.c.team, s.id))
    ensures Isolated(b, s, team)
  {
    var k := Key(s.c.team, s.id);
    OwnTask(b, k);
    var t, r, e := Granted(b, s);
    OwnUpdate(b, k, t, b.claims + [r], e, team);
    OwnRowsAppend(b.claims, r, team);
    if s.c.team == team {
      var t', r', e' := Granted(Own(b, team), s);
    }
  }

  lemma ClaimIsolated(b: Board, s: Step, team: string)
    requires s.DoClaim? && Scheduling.DepsWithinTeams(b)
    ensures Isolated(b, s, team)
  {
    var k := Key(s.c.team, s.id);
    OwnCanClaim(b, k);
    if CanClaim(b, k) {
      GrantedIsolated(b, s, team);
    }
  }

  lemma ProgressIsolated(b: Board, s: Step, team: string)
    requires s.DoProgress?
    ensures Isolated(b, s, team)
  {
    var k, after := Key(s.c.team, s.id), Apply(b, s);
    OwnTask(b, k);
    if Holds(b, s.c, s.id, s.token) {
      OwnUpdate(b, k, after.tasks[k], after.claims, Last(after.log), team);
    }
  }

  lemma CompleteIsolated(b: Board, s: Step, team: string)
    requires s.DoComplete?
    ensures Isolated(b, s, team)
  {
    var k, after := Key(s.c.team, s.id), Apply(b, s);
    OwnTask(b, k);
    if Holds(b, s.c, s.id, s.token) {
      OwnUpdate(b, k, after.tasks[k], after.claims, Last(after.log), team);
      OwnRowsOfClose(b.claims, k, s.c.agent, s.now, Completed, team);
    }
  }

  lemma FailIsolated(b: Board, s: Step, team: string)
    requires s.DoFail?
    ensures Isolated(b, s, team)
  {
    var k, after := Key(s.c.team, s.id), Apply(b, s);
    OwnTask(b, k);
    if Holds(b, s.c, s.id, s.token) {
      OwnUpdate(b, k, after.tasks[k], after.claims, Last(after.log), team);
      OwnRowsOfClose(b.claims, k, s.c.agent, s.now, GaveUp, team);
    }
  }

  lemma ReleaseIsolated(b: Board, s: Step, team: string)
    requires s.DoRelease?
    ensures Isolated(b, s, team)
  {
    var k, after := Key(s.c.team, s.id), Apply(b, s);
    OwnTask(b, k);
    if Holds(b, s.c, s.id, s.token) {
      OwnUpdate(b, k, after.tasks[k], after.claims, Last(after.log), team);
      OwnRowsOfClose(b.claims, k, s.c.agent, s.now, Released, team);
    }
  }

  lemma ReapIsolated(b: Board, s: Step, team: string)
    requires s.DoReap?
    ensures Isolated(b, s, team)
  {
    var k, after := s.k, Apply(b, s);
    OwnTask(b, k);
    if k in b.tasks && Reapable(b.tasks[k], s.now) {
      OwnUpdate(b, k, after.tasks[k], after.claims, Last(after.log), team);
      if b.tasks[k].assignee.Some? {
        OwnRowsOfClose(b.claims, k, b.tasks[k].assignee.value, s.at, Expired, team);
      }
    }
  }

  lemma LeaveIsolated(b: Board, s: Step, team: string)
    requires s.DoLeave?
    ensures Isolated(b, s, team)
  {
    OwnHeld(b, s.c);
    if Enumerates(s.order, Held(b, s.c)) {
      OwnLeaveAll(b, s.c, s.order, s.now, team);
      OwnAppend(LeaveAll(b, s.c, s.order, s.now).log, Event(s.c.team, Some(s.c.agent), AgentLeft(s.c.agent)), team);
    }
  }

  lemma StepIsolated(b: Board, s: Step, team: string)
    requires Scheduling.DepsWithinTeams(b)
    ensures Isolated(b, s, team)
  {
    match s
    case DoCreate(_, _, _, _, _, _, _, _) => CreateIsolated(b, s, team);
    case DoClaim(_, _, _, _) => ClaimIsolated(b, s, team);
    case DoProgress(_, _, _, _, _, _, _) => ProgressIsolated(b, s, team);
    case DoHeartbeat(c, dflt, now) => OwnHeld(b, c);
    case DoLeave(_, _, _) => LeaveIsolated(b, s, team);
    case DoReap(_, _, _) => ReapIsolated(b, s, team);
    case DoOther(t, actor, kind) => OwnAppend(b.log, Event(t, actor, OtherKind(kind)), team);
    case DoComplete(_, _, _, _, _) => CompleteIsolated(b, s, team);
    case DoFail(_, _, _, _, _) => FailIsolated(b, s, team);
    case DoRelease(_, _, _, _) => ReleaseIsolated(b, s, team);
  }

  ghost predicate Invisible(steps: seq<Step>, team: string) {
    Own(Run(EMPTY, steps), team) == Run(EMPTY, OwnSteps(steps, team))
  }

  lemma InvisibleStep(front: seq<Step>, s: Step, team: string)
    requires Invisible(front, team)
    ensures Invisible(front + [s], team)
  {
    Scheduling.DepsStayWithinTeams(front);
    StepIsolated(Run(EMPTY, front), s, team);
    RunAppend(EMPTY, front, s);
    RunAppend(EMPTY, OwnSteps(front, team), s);
    OwnStepsAppend(front, s, team);
  }

  lemma {:induction false} AllInvisible(steps: seq<Step>, team: string)
    ensures Invisible(steps, team)
  {
    if steps == [] {
      NothingOwned(team);
    } else {
      AllInvisible(Init(steps), team);
      InvisibleStep(Init(steps), Last(steps), team);
      assert Init(steps) + [Last(steps)] == steps;
    }
  }

  /** Non-interference: deleting every other team's steps from a run changes nothing a team can see. */
  lemma OtherTeamsAreInvisible(steps: seq<Step>, team: string)
    ensures Own(Run(EMPTY, steps), team) == Run(EMPTY, OwnSteps(steps, team))
  {
    AllInvisible(steps, team);
  }

  lemma OwnStepsAppend(front: seq<Step>, s: Step, team: string)
    ensures OwnSteps(front + [s], team) == if TeamOf(s) == team then OwnSteps(front, team) + [s] else OwnSteps(front, team)
  {
    assert Init(front + [s]) == front;
  }

  lemma NothingOwned(team: string)
    ensures Own(EMPTY, team) == EMPTY
  {
    assert Own(EMPTY, team).tasks == map[];
  }
}
