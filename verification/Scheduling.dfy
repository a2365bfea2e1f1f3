/** The queue: what claim_next answers, and what completing a task makes claimable. */
module Scheduling {
  import opened Common
  import opened TaskBoard
  import opened TaskRuns
  import opened TaskSafety
  import opened TaskCalls

  /** The tasks of `team` that the queue may hand out. */
  function Claimable(b: Board, team: string): set<Key> {
    set k | k in b.tasks && k.team == team && Eligible(b, k)
  }

  // The queue's order: higher priority first, then earlier creation.
  predicate Beats(b: Board, j: Key, k: Key)
    requires j in b.tasks && k in b.tasks
  {
    var s, t := b.tasks[j], b.tasks[k];
    s.priority > t.priority || (s.priority == t.priority && s.createdAt < t.createdAt)
  }

  predicate IsNext(b: Board, team: string, k: Key) {
    k in Claimable(b, team) && (forall j | j in Claimable(b, team) :: !Beats(b, j, k))
  }

  /** An answer the queue query may give: none only when there is nothing, otherwise an unbeaten task. */
  ghost predicate QueueAnswer(b: Board, team: string, answer: Option<Key>) {
    if answer.None? then Claimable(b, team) == {} else IsNext(b, team, answer.value)
  }

  /** The queue query and the claim's own dependency check accept the same tasks. */
  lemma EligibilityTestsAgree(b: Board, k: Key)
    ensures Eligible(b, k) <==> CanClaim(b, k)
  {
    if k in b.tasks {
      if d :| d in b.deps && d.task == k && !IsDone(b, d.on) {
        assert d.on in Unmet(b, k);
      }
    }
  }

  /** What may be handed out is what is ready. */
  lemma ClaimableMeans(b: Board, team: string)
    ensures forall k :: k in Claimable(b, team) <==> k.team == team && Ready(b, k)
  {
    forall k ensures k in Claimable(b, team) <==> k.team == team && Ready(b, k) {
      CanClaimMeans(b, k);
    }
  }

  /** The next task of a team is ready, no ready one has a higher priority, and none of the same priority is older. */
  lemma NextMeans(b: Board, team: string, k: Key)
    ensures IsNext(b, team, k) <==>
      && k.team == team && Ready(b, k)
      && (forall j: Key | j.team == team && Ready(b, j) ::
            && b.tasks[j].priority <= b.tasks[k].priority
            && (b.tasks[j].priority == b.tasks[k].priority ==> b.tasks[k].createdAt <= b.tasks[j].createdAt))
  {
    ClaimableMeans(b, team);
  }

  // Among finitely many tasks some task is unbeaten.
  lemma {:induction false} SomeUnbeaten(b: Board, keys: set<Key>) returns (best: Key)
    requires keys != {} && keys <= b.tasks.Keys
    ensures best in keys && (forall j | j in keys :: !Beats(b, j, best))
  {
    var k :| k in keys;
    if keys == {k} {
      best := k;
    } else {
      var rest := SomeUnbeaten(b, keys - {k});
      best := if Beats(b, k, rest) then k else rest;
      assert forall j | j in keys :: j == k || (j in keys - {k} && !Beats(b, j, rest));
    }
  }

  /** The queue always has an answer, and whatever it answers can be claimed. */
  lemma QueueNeverStuck(b: Board, team: string)
    ensures exists answer :: QueueAnswer(b, team, answer)
    ensures forall k :: QueueAnswer(b, team, Some(k)) ==> CanClaim(b, k)
  {
    if Claimable(b, team) == {} {
      assert QueueAnswer(b, team, None);
    } else {
      var k := SomeUnbeaten(b, Claimable(b, team));
      assert QueueAnswer(b, team, Some(k));
    }
    forall k | QueueAnswer(b, team, Some(k)) ensures CanClaim(b, k) {
      EligibilityTestsAgree(b, k);
    }
  }

  // --------------------------------------------------- completion unblocks

  /** The eligible_unblocked list of complete_task, computed on the tables after the completion. */
  function Unblocked(after: Board, k: Key): set<Key> {
    set d | d in after.deps && d.on == k && d.task.team == k.team && Eligible(after, d.task) :: d.task
  }

  /** The query joins tasks with dependency rows, yet reports no task twice: it has one row for each reported task. */
  lemma UnblockedHasNoDuplicates(after: Board, k: Key)
    ensures |set d | d in after.deps && d.on == k && d.task.team == k.team && Eligible(after, d.task)| == |Unblocked(after, k)|
  {
    var rows := set d | d in after.deps && d.on == k && d.task.team == k.team && Eligible(after, d.task);
    OneRowPerTask(rows, k);
    assert Unblocked(after, k) == set d | d in rows :: d.task;
  }

  lemma {:induction false} OneRowPerTask(rows: set<Dep>, k: Key)
    requires forall d | d in rows :: d.on == k
    ensures |set d | d in rows :: d.task| == |rows|
  {
    var waiting := set d | d in rows :: d.task;
    if rows != {} {
      var row :| row in rows;
      OneRowPerTask(rows - {row}, k);
      assert (set d | d in rows - {row} :: d.task) == waiting - {row.task};
    }
  }

  // Dependencies never cross teams.
  ghost predicate DepsWithinTeams(b: Board) {
    forall d | d in b.deps :: d.task in b.tasks && d.task.team == d.on.team
  }

  // Only create_task adds tasks or dependencies.
  lemma StepKeepsShape(b: Board, s: Step)
    requires !s.DoCreate?
    ensures Apply(b, s).tasks.Keys == b.tasks.Keys && Apply(b, s).deps == b.deps
  {
    if s.DoLeave? && Enumerates(s.order, Held(b, s.c)) {
      LeaveAllEffect(b, s.c, s.order, s.now, Key("", ""));
    }
  }

  lemma {:induction false} DepsStayWithinTeams(steps: seq<Step>)
    ensures DepsWithinTeams(Run(EMPTY, steps))
  {
    if steps != [] {
      DepsStayWithinTeams(Init(steps));
      if !Last(steps).DoCreate? {
        StepKeepsShape(Run(EMPTY, Init(steps)), Last(steps));
      }
    }
  }

  /**
   Incremental eligibility equals recomputation.  After a completion the claimable tasks are the
   old ones and the reported ones; the two are disjoint unless an already done task is completed
   again, in which case the report only repeats tasks that were claimable before.
   */
  lemma CompletionUnblocks(steps: seq<Step>, c: Caller, id: string, token: int, summary: Option<string>, now: int)
    requires Holds(Run(EMPTY, steps), c, id, token)
    ensures
      var b, k := Run(EMPTY, steps), Key(c.team, id);
      var after := Complete(b, c, id, token, summary, now);
      && Claimable(after, c.team) == Claimable(b, c.team) + Unblocked(after, k)
      && (!IsDone(b, k) ==> Claimable(b, c.team) !! Unblocked(after, k))
      && (IsDone(b, k) ==> Unblocked(after, k) <= Claimable(b, c.team))
      && (forall team | team != c.team :: Claimable(after, team) == Claimable(b, team))
  {
    var b, k := Run(EMPTY, steps), Key(c.team, id);
    var after := Complete(b, c, id, token, summary, now);
    DepsStayWithinTeams(steps);
    LedgerAgrees(steps, k);
    assert b.tasks[k].status != Open;
    assert forall j :: IsDone(after, j) <==> IsDone(b, j) || j == k;
    forall j | j in b.tasks
      ensures Eligible(after, j) <==> Eligible(b, j) || j in Unblocked(after, k)
      ensures !IsDone(b, k) && j in Unblocked(after, k) ==> !Eligible(b, j)
      ensures IsDone(b, k) ==> (Eligible(after, j) <==> Eligible(b, j))
    {
      if Eligible(after, j) && !Eligible(b, j) {
        var d :| d in b.deps && d.task == j && !IsDone(b, d.on);
        assert d.on == k;
        assert d in after.deps && d.task.team == k.team;
      }
    }
  }
}
