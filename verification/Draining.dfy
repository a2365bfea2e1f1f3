/** Why a settled board always drains: no deadlock among its tasks unless their dependencies form a cycle. */
module Draining {
  import opened Common
  import opened TaskBoard
  import opened TaskRuns
  import opened Scheduling
  import opened Cycles

  function OpenTasks(b: Board, team: string): set<Key> {
    set k | k in b.tasks && k.team == team && b.tasks[k].status == Open
  }

  /** Every task of the team is open or done and every dependency exists. */
  ghost predicate Settled(b: Board, team: string) {
    && (forall k | k in b.tasks && k.team == team :: b.tasks[k].status == Open || b.tasks[k].status == Done)
    && (forall d | d in b.deps && d.task.team == team :: d.on in b.tasks)
  }

  /** No task of the team is on a cycle of dependencies. */
  ghost predicate TeamAcyclic(deps: set<Dep>, team: string) {
    forall path: seq<Key> | Cycle(deps, path) :: path[0].team != team
  }

  // From an open task of a settled board one can follow unmet dependencies, never coming back, to an eligible one.
  lemma {:induction false} SomeEligible(b: Board, team: string, k: Key, visited: set<Key>)
    requires DepsWithinTeams(b) && Settled(b, team) && TeamAcyclic(b.deps, team)
    requires k in visited && visited <= OpenTasks(b, team)
    requires forall v | v in visited :: v == k || DependsOn(b.deps, v, k)
    ensures Claimable(b, team) != {}
    decreases OpenTasks(b, team) - visited
  {
    if Eligible(b, k) {
      assert k in Claimable(b, team);
    } else {
      var d :| d in b.deps && d.task == k && !IsDone(b, d.on);
      if d.on in visited {
        var path := EdgeCloses(b.deps, k, d.on);
        assert false;
      }
      forall v | v in visited ensures DependsOn(b.deps, v, d.on) {
        if v == k {
          OneEdge(b.deps, k, d.on);
        } else {
          EdgeAfter(b.deps, v, k, d.on);
        }
      }
      SomeEligible(b, team, d.on, visited + {d.on});
    }
  }

  /** One round of an agent: ask the queue, and complete what it hands out. */
  datatype Round = Round(agent: string, answer: Option<Key>, dflt: int, claimedAt: int, doneAt: int, summary: Option<string>)

  ghost function Play(b: Board, team: string, r: Round): Board {
    if r.answer.None? || r.answer.value !in b.tasks then b
    else
      var c, k := Caller(team, r.agent), r.answer.value;
      Complete(Claim(b, c, k.id, r.dflt, r.claimedAt), c, k.id, b.tasks[k].token + 1, r.summary, r.doneAt)
  }

  ghost function PlayAll(b: Board, team: string, rounds: seq<Round>): Board {
    if rounds == [] then b else Play(PlayAll(b, team, Init(rounds)), team, Last(rounds))
  }

  ghost predicate Genuine(b: Board, team: string, rounds: seq<Round>) {
    rounds != [] ==>
      && Genuine(b, team, Init(rounds))
      && QueueAnswer(PlayAll(b, team, Init(rounds)), team, Last(rounds).answer)
  }

  // The tasks finished by the rounds so far.
  ghost function Finished(rounds: seq<Round>): set<Key> {
    set r | r in rounds && r.answer.Some? :: r.answer.value
  }

  // A round that is handed a task finishes it and leaves every other task as it was.
  lemma RoundFinishes(b: Board, team: string, r: Round)
    requires r.answer.Some? && IsNext(b, team, r.answer.value)
    ensures
      var k, after := r.answer.value, Play(b, team, r);
      && k in b.tasks && k.team == team && b.tasks[k].status == Open
      && after.deps == b.deps
      && after.tasks.Keys == b.tasks.Keys
      && after.tasks[k].status == Done
      && (forall j | j in b.tasks && j != k :: after.tasks[j] == b.tasks[j])
      && (forall d | d in b.deps && d.task == k :: IsDone(b, d.on))
  {
    EligibilityTestsAgree(b, r.answer.value);
    assert Key(team, r.answer.value.id) == r.answer.value;
  }

  ghost predicate Sound(b: Board, team: string) {
    DepsWithinTeams(b) && TeamAcyclic(b.deps, team)
  }

  // The state of a draining board: the team's open tasks that are left, and who has been finished.
  ghost predicate Draining(b: Board, team: string, finished: set<Key>, now: Board) {
    && now.deps == b.deps && now.tasks.Keys == b.tasks.Keys
    && Settled(now, team)
    && finished <= OpenTasks(b, team)
    && OpenTasks(now, team) == OpenTasks(b, team) - finished
    && (forall k :: IsDone(now, k) <==> IsDone(b, k) || k in finished)
  }

  lemma DrainStep(b: Board, team: string, finished: set<Key>, mid: Board, r: Round)
    requires Draining(b, team, finished, mid)
    requires r.answer.Some? && IsNext(mid, team, r.answer.value)
    ensures Draining(b, team, finished + {r.answer.value}, Play(mid, team, r))
    ensures r.answer.value in OpenTasks(b, team) - finished
  {
    RoundFinishes(mid, team, r);
    var k, after := r.answer.value, Play(mid, team, r);
    assert k in OpenTasks(mid, team);
    assert OpenTasks(after, team) == OpenTasks(mid, team) - {k};
    assert forall j :: IsDone(after, j) <==> IsDone(mid, j) || j == k;
  }

  // While something is left, the queue hands out an unbeaten task.
  lemma QueueHandsOut(b: Board, team: string, finished: set<Key>, mid: Board, answer: Option<Key>)
    requires Sound(b, team) && Draining(b, team, finished, mid) && |finished| < |OpenTasks(b, team)|
    requires QueueAnswer(mid, team, answer)
    ensures answer.Some? && IsNext(mid, team, answer.value)
  {
    assert |OpenTasks(mid, team)| == |OpenTasks(b, team)| - |finished|;
    var k :| k in OpenTasks(mid, team);
    SomeEligible(mid, team, k, {k});
  }

  lemma FinishedAppend(front: seq<Round>, r: Round)
    requires r.answer.Some?
    ensures Finished(front + [r]) == Finished(front) + {r.answer.value}
  {
    assert r in front + [r];
  }

  // Every round so far was handed a different task, and the board has drained by those tasks.
  ghost predicate Productive(b: Board, team: string, rounds: seq<Round>, now: Board) {
    && (forall r | r in rounds :: r.answer.Some?)
    && Draining(b, team, Finished(rounds), now)
    && |Finished(rounds)| == |rounds|
  }

  // One more round, once `front` has led to `mid`.
  lemma RoundStep(b: Board, team: string, front: seq<Round>, mid: Board, r: Round)
    requires Sound(b, team) && Productive(b, team, front, mid) && QueueAnswer(mid, team, r.answer)
    requires |front| < |OpenTasks(b, team)|
    ensures Productive(b, team, front + [r], Play(mid, team, r))
  {
    QueueHandsOut(b, team, Finished(front), mid, r.answer);
    DrainStep(b, team, Finished(front), mid, r);
    FinishedAppend(front, r);
  }

  lemma {:induction false} RoundsFinish(b: Board, team: string, rounds: seq<Round>)
    requires Sound(b, team) && Settled(b, team) && Genuine(b, team, rounds)
    requires |rounds| <= |OpenTasks(b, team)|
    ensures Productive(b, team, rounds, PlayAll(b, team, rounds))
  {
    if rounds != [] {
      var front, r := Init(rounds), Last(rounds);
      SplitLast(rounds);
      RoundsFinish(b, team, front);
      RoundStep(b, team, front, PlayAll(b, team, front), r);
    }
  }

  /**
   Deadlock freedom.  From any reachable board of open and done tasks with no dangling dependency and
   no cycle in the team, as many rounds as there are open tasks finish them all, whatever the queue
   answers and whoever plays: no round comes back empty, no task is played twice, and every task is
   played after everything it depends on.
   */
  lemma BoardDrains(steps: seq<Step>, team: string, rounds: seq<Round>)
    requires Settled(Run(EMPTY, steps), team) && TeamAcyclic(Run(EMPTY, steps).deps, team)
    requires Genuine(Run(EMPTY, steps), team, rounds)
    requires |rounds| == |OpenTasks(Run(EMPTY, steps), team)|
    ensures forall r | r in rounds :: r.answer.Some?
    ensures
      var b := Run(EMPTY, steps);
      var after := PlayAll(b, team, rounds);
      && Finished(rounds) == OpenTasks(b, team)
      && |Finished(rounds)| == |rounds|
      && Drained(after, team)
      && Claimable(after, team) == {}
      && (forall i, d | 0 <= i < |rounds| && d in b.deps && d.task == rounds[i].answer.value ::
            IsDone(b, d.on) || d.on in Finished(rounds[..i]))
  {
    var b := Run(EMPTY, steps);
    DepsStayWithinTeams(steps);
    RoundsFinish(b, team, rounds);
    SameSize(Finished(rounds), OpenTasks(b, team));
    var after := PlayAll(b, team, rounds);
    assert OpenTasks(after, team) == {};
    forall k | k in after.tasks && k.team == team ensures after.tasks[k].status == Done {
      assert k !in OpenTasks(after, team);
    }
    forall i, d | 0 <= i < |rounds| && d in b.deps && d.task == rounds[i].answer.value
      ensures IsDone(b, d.on) || d.on in Finished(rounds[..i])
    {
      DependenciesFirst(b, team, rounds, i);
    }
  }

  // A task is handed out only after everything it depends on is done.
  lemma DependenciesFirst(b: Board, team: string, rounds: seq<Round>, i: nat)
    requires Sound(b, team) && Settled(b, team) && Genuine(b, team, rounds)
    requires i < |rounds| <= |OpenTasks(b, team)| && rounds[i].answer.Some?
    ensures forall d | d in b.deps && d.task == rounds[i].answer.value :: IsDone(b, d.on) || d.on in Finished(rounds[..i])
  {
    GenuineAt(b, team, rounds, i);
    RoundsFinish(b, team, rounds[..i]);
    RoundFinishes(PlayAll(b, team, rounds[..i]), team, rounds[i]);
  }

  lemma GenuineAt(b: Board, team: string, rounds: seq<Round>, i: nat)
    requires Genuine(b, team, rounds) && i < |rounds|
    ensures Genuine(b, team, rounds[..i]) && QueueAnswer(PlayAll(b, team, rounds[..i]), team, rounds[i].answer)
  {
    GenuinePrefix(b, team, rounds, i + 1);
    assert Init(rounds[..i + 1]) == rounds[..i];
  }

  lemma {:induction false} GenuinePrefix(b: Board, team: string, rounds: seq<Round>, n: nat)
    requires Genuine(b, team, rounds) && n <= |rounds|
    ensures Genuine(b, team, rounds[..n])
  {
    if n == |rounds| {
      assert rounds[..n] == rounds;
    } else {
      GenuinePrefix(b, team, Init(rounds), n);
      assert Init(rounds)[..n] == rounds[..n];
    }
  }

  // A subset as large as the whole is the whole.
  lemma SameSize(part: set<Key>, whole: set<Key>)
    requires part <= whole && |part| == |whole|
    ensures part == whole
  {
    assert |whole - part| == |whole| - |part|;
  }

  // ------------------------------------------------------- exactly when

  /** The queue always answers, so genuine rounds of any number exist on any board. */
  lemma {:induction false} RoundsExist(b: Board, team: string, n: nat) returns (rounds: seq<Round>)
    ensures |rounds| == n && Genuine(b, team, rounds)
  {
    if n == 0 {
      rounds := [];
    } else {
      var front := RoundsExist(b, team, n - 1);
      QueueNeverStuck(PlayAll(b, team, front), team);
      var answer :| QueueAnswer(PlayAll(b, team, front), team, answer);
      rounds := front + [Round("", answer, 0, 0, 0, None)];
      assert Init(rounds) == front;
    }
  }

  // A round is a claim and a completion.
  ghost function RoundSteps(b: Board, team: string, r: Round): seq<Step> {
    if r.answer.None? || r.answer.value !in b.tasks then []
    else
      var c, k := Caller(team, r.agent), r.answer.value;
      [DoClaim(c, k.id, r.dflt, r.claimedAt), DoComplete(c, k.id, b.tasks[k].token + 1, r.summary, r.doneAt)]
  }

  lemma RoundIsRun(b: Board, team: string, r: Round)
    ensures Run(b, RoundSteps(b, team, r)) == Play(b, team, r)
  {
    var steps := RoundSteps(b, team, r);
    if steps != [] {
      assert Init(steps) == [steps[0]] && Init([steps[0]]) == [];
      assert Run(b, [steps[0]]) == Apply(b, steps[0]);
    }
  }

  lemma {:induction false} RoundsAreRun(steps: seq<Step>, team: string, rounds: seq<Round>) returns (more: seq<Step>)
    ensures PlayAll(Run(EMPTY, steps), team, rounds) == Run(EMPTY, steps + more)
  {
    if rounds == [] {
      more := [];
      assert steps + more == steps;
    } else {
      var front := RoundsAreRun(steps, team, Init(rounds));
      var mid := Run(EMPTY, steps + front);
      var last := RoundSteps(mid, team, Last(rounds));
      RoundIsRun(mid, team, Last(rounds));
      RunConcat(EMPTY, steps + front, last);
      more := front + last;
      assert steps + front + last == steps + more;
    }
  }

  ghost predicate Drained(b: Board, team: string) {
    forall k | k in b.tasks && k.team == team :: b.tasks[k].status == Done
  }

  /** A cycle in the team can never be drained, by any rounds. */
  lemma CyclesNeverDrain(steps: seq<Step>, team: string, rounds: seq<Round>)
    requires Drained(PlayAll(Run(EMPTY, steps), team, rounds), team)
    ensures TeamAcyclic(Run(EMPTY, steps).deps, team)
  {
    var more := RoundsAreRun(steps, team, rounds);
    forall path: seq<Key> | Cycle(Run(EMPTY, steps).deps, path) ensures path[0].team != team {
      CyclesWaitForever(steps, more, path, 0);
    }
  }

  /**
   So a reachable board of open and done tasks with no dangling dependency drains if and only if no task
   of the team is on a cycle, and whatever the queue answers makes no difference.
   */
  lemma DrainsExactlyWhenAcyclic(steps: seq<Step>, team: string, rounds: seq<Round>)
    requires Settled(Run(EMPTY, steps), team) && Genuine(Run(EMPTY, steps), team, rounds)
    requires |rounds| == |OpenTasks(Run(EMPTY, steps), team)|
    ensures Drained(PlayAll(Run(EMPTY, steps), team, rounds), team) <==> TeamAcyclic(Run(EMPTY, steps).deps, team)
  {
    if TeamAcyclic(Run(EMPTY, steps).deps, team) {
      BoardDrains(steps, team, rounds);
    }
    if Drained(PlayAll(Run(EMPTY, steps), team, rounds), team) {
      CyclesNeverDrain(steps, team, rounds);
    }
  }
}
