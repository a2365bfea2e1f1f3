/**
 What every run of the task protocol keeps: the claim ledger agrees with the task row,
 attempts are bounded, dead letters stay dead, and a lost claim never works again.
 */
module TaskSafety {
  import opened Common
  import opened TaskBoard
  import opened TaskRuns

  // ------------------------------------------------------------- invariants

  // The number of failed attempts that dead-letters a task.
  function Cap(t: Task): int {
    Max(1, t.maxAttempts)
  }

  predicate Active(s: Status) {
    s == Claimed || s == InProgress || s == Blocked
  }

  ghost predicate TaskOk(t: Task) {
    && (t.assignee.None? <==> t.status == Open || t.status == Failed)
    && t.attempts <= Cap(t)
    && (t.status == Failed <==> t.attempts == Cap(t))
    && (Running(t.status) ==> t.lease.Some?)
  }

  /** The ledger rows of a task carry the tokens 1..token in order, and only the last may be unreleased. */
  ghost predicate RowsOk(k: Key, t: Task, rows: seq<ClaimRow>) {
    && |rows| == t.token
    && (forall i | 0 <= i < |rows| :: rows[i].task == k && rows[i].token == i + 1)
    && (forall i | 0 <= i < |rows| - 1 :: rows[i].closed.Some?)
    && (rows != [] && Last(rows).closed.None? ==> t.assignee == Some(Last(rows).agent) && Active(t.status))
  }

  // Closing rows that are all closed already changes nothing.
  lemma {:induction false} CloseNothing(rows: seq<ClaimRow>, k: Key, agent: string, at: int, outcome: Outcome)
    requires forall i | 0 <= i < |rows| :: rows[i].closed.Some?
    ensures Close(rows, k, agent, at, outcome) == rows
  {
    if rows != [] {
      CloseNothing(Init(rows), k, agent, at, outcome);
    }
  }

  /** The holder closes its own unreleased row, if there is one, and no other. */
  lemma CloseOwn(k: Key, t: Task, rows: seq<ClaimRow>, agent: string, at: int, outcome: Outcome)
    requires RowsOk(k, t, rows) && t.assignee == Some(agent)
    ensures Close(rows, k, agent, at, outcome) ==
            if rows != [] && Last(rows).closed.None?
            then Init(rows) + [Last(rows).(closed := Some(Closing(at, outcome)))]
            else rows
  {
    if rows != [] {
      CloseNothing(Init(rows), k, agent, at, outcome);
    }
  }

  lemma MoveKeepsTask(t: Task, m: Move)
    requires TaskOk(t) && Allowed(t, m)
    ensures TaskOk(Moved(t, m))
  {
  }

  // Once the holder's row is closed nothing is left open, whatever becomes of the task.
  lemma CloseKeepsRows(k: Key, t: Task, rows: seq<ClaimRow>, agent: string, at: int, outcome: Outcome, after: Task)
    requires RowsOk(k, t, rows) && t.assignee == Some(agent) && after.token == t.token
    ensures RowsOk(k, after, Close(rows, k, agent, at, outcome))
  {
    CloseOwn(k, t, rows, agent, at, outcome);
  }

  lemma StrikeKeepsRows(k: Key, t: Task, rows: seq<ClaimRow>, m: Move)
    requires TaskOk(t) && RowsOk(k, t, rows) && Allowed(t, m) && m.Strike?
    ensures RowsOk(k, Moved(t, m), MovedLedger(rows, k, t, m))
  {
    if m.holder.Some? {
      CloseKeepsRows(k, t, rows, m.holder.value, m.at, m.outcome, Moved(t, m));
    }
  }

  lemma TakeKeepsRows(k: Key, t: Task, rows: seq<ClaimRow>, m: Move)
    requires TaskOk(t) && RowsOk(k, t, rows) && Allowed(t, m) && m.Take?
    ensures RowsOk(k, Moved(t, m), MovedLedger(rows, k, t, m))
  {
  }

  lemma MoveKeepsRows(k: Key, t: Task, rows: seq<ClaimRow>, m: Move)
    requires TaskOk(t) && RowsOk(k, t, rows) && Allowed(t, m)
    ensures RowsOk(k, Moved(t, m), MovedLedger(rows, k, t, m))
  {
    match m
    case Take(_, _, _) => TakeKeepsRows(k, t, rows, m);
    case Finish(agent, _, at) => CloseKeepsRows(k, t, rows, agent, at, Completed, Moved(t, m));
    case Strike(_, _, _, _) => StrikeKeepsRows(k, t, rows, m);
    case GiveBack(agent, at) => CloseKeepsRows(k, t, rows, agent, at, Released, Moved(t, m));
    case _ =>
  }

  ghost predicate KeyOk(b: Board, k: Key) {
    if k in b.tasks then TaskOk(b.tasks[k]) && RowsOk(k, b.tasks[k], Ledger(b.claims, k))
    else Ledger(b.claims, k) == []
  }

  lemma StepKeeps(b: Board, s: Step, k: Key)
    requires KeyOk(b, k)
    ensures KeyOk(Apply(b, s), k)
  {
    StepLedger(b, s, k);
    if k in b.tasks {
      StepMoves(b, s, k);
      MoveKeepsTask(b.tasks[k], MoveOf(b, s, k));
      MoveKeepsRows(k, b.tasks[k], Ledger(b.claims, k), MoveOf(b, s, k));
    } else {
      StepElsewhere(b, s, k);
    }
  }

  /** The ledger and the task row agree, and the row is well formed, in every reachable state. */
  lemma {:induction false} LedgerAgrees(steps: seq<Step>, k: Key)
    ensures KeyOk(Run(EMPTY, steps), k)
  {
    if steps != [] {
      LedgerAgrees(Init(steps), k);
      StepKeeps(Run(EMPTY, Init(steps)), Last(steps), k);
    }
  }

  // --------------------------------------------------- attempts and strikes

  /** `s` is a fail call that is accepted for `k`, or a reaper re-check that takes `k` away. */
  ghost predicate Strikes(b: Board, s: Step, k: Key) {
    || (s.DoFail? && k == Key(s.c.team, s.id) && Holds(b, s.c, s.id, s.token))
    || (s.DoReap? && k == s.k && k in b.tasks && Reapable(b.tasks[k], s.now))
  }

  ghost predicate HasOpenRow(b: Board, k: Key) {
    Ledger(b.claims, k) != [] && Last(Ledger(b.claims, k)).closed.None?
  }

  // How many of the steps struck `k`; `orphans` counts only those that found no unreleased row.
  ghost function StrikeCount(steps: seq<Step>, k: Key, orphans: bool): nat {
    if steps == [] then 0
    else
      var b := Run(EMPTY, Init(steps));
      StrikeCount(Init(steps), k, orphans) +
      (if Strikes(b, Last(steps), k) && (orphans ==> !HasOpenRow(b, k)) then 1 else 0)
  }

  ghost function StruckRows(rows: seq<ClaimRow>): nat {
    if rows == [] then 0
    else
      var c := Last(rows).closed;
      StruckRows(Init(rows)) + (if c.Some? && (c.value.outcome == GaveUp || c.value.outcome == Expired) then 1 else 0)
  }

  lemma StruckAppend(rows: seq<ClaimRow>, r: ClaimRow)
    ensures
      var c := r.closed;
      StruckRows(rows + [r]) ==
      StruckRows(rows) + (if c.Some? && (c.value.outcome == GaveUp || c.value.outcome == Expired) then 1 else 0)
  {
    assert Init(rows + [r]) == rows;
  }

  // Closing the holder's row adds a struck row exactly if there was one to close and it ended in failure.
  lemma CloseCounts(k: Key, t: Task, rows: seq<ClaimRow>, agent: string, at: int, outcome: Outcome)
    requires RowsOk(k, t, rows) && t.assignee == Some(agent)
    ensures StruckRows(Close(rows, k, agent, at, outcome)) ==
            StruckRows(rows) +
            (if rows != [] && Last(rows).closed.None? && (outcome == GaveUp || outcome == Expired) then 1 else 0)
  {
    CloseOwn(k, t, rows, agent, at, outcome);
    if rows != [] {
      assert rows == Init(rows) + [Last(rows)];
      StruckAppend(Init(rows), Last(rows).(closed := Some(Closing(at, outcome))));
    }
  }

  // A strike closes the holder's row as a failure, if there is one to close.
  lemma StrikeCounts(k: Key, t: Task, rows: seq<ClaimRow>, m: Move)
    requires TaskOk(t) && RowsOk(k, t, rows) && Allowed(t, m) && m.Strike?
    ensures StruckRows(MovedLedger(rows, k, t, m)) ==
            StruckRows(rows) + (if rows != [] && Last(rows).closed.None? then 1 else 0)
  {
    if m.holder.Some? {
      CloseCounts(k, t, rows, m.holder.value, m.at, m.outcome);
    }
  }

  // No other move changes the number of struck rows.
  lemma OthersCountNothing(k: Key, t: Task, rows: seq<ClaimRow>, m: Move)
    requires TaskOk(t) && RowsOk(k, t, rows) && Allowed(t, m) && !m.Strike?
    ensures StruckRows(MovedLedger(rows, k, t, m)) == StruckRows(rows)
  {
    match m
    case Take(agent, _, now) => StruckAppend(rows, ClaimRow(k, agent, t.token + 1, now, None));
    case Finish(agent, _, at) => CloseCounts(k, t, rows, agent, at, Completed);
    case GiveBack(agent, at) => CloseCounts(k, t, rows, agent, at, Released);
    case _ =>
  }

  // A move changes attempts and struck rows together, except for a strike without an unreleased row.
  lemma MoveCounts(k: Key, t: Task, rows: seq<ClaimRow>, m: Move)
    requires TaskOk(t) && RowsOk(k, t, rows) && Allowed(t, m)
    ensures Moved(t, m).attempts == t.attempts + (if m.Strike? then 1 else 0)
    ensures StruckRows(MovedLedger(rows, k, t, m)) ==
            StruckRows(rows) + (if m.Strike? && rows != [] && Last(rows).closed.None? then 1 else 0)
  {
    if m.Strike? {
      StrikeCounts(k, t, rows, m);
    } else {
      OthersCountNothing(k, t, rows, m);
    }
  }

  // The same, for one step of a run.
  lemma StepCounts(b: Board, s: Step, k: Key)
    requires KeyOk(b, k) && k in b.tasks
    ensures k in Apply(b, s).tasks
    ensures Apply(b, s).tasks[k].attempts == b.tasks[k].attempts + (if Strikes(b, s, k) then 1 else 0)
    ensures StruckRows(Ledger(Apply(b, s).claims, k)) ==
            StruckRows(Ledger(b.claims, k)) + (if Strikes(b, s, k) && HasOpenRow(b, k) then 1 else 0)
  {
    StepLedger(b, s, k);
    StepMoves(b, s, k);
    MoveCounts(k, b.tasks[k], Ledger(b.claims, k), MoveOf(b, s, k));
    assert MoveOf(b, s, k).Strike? <==> Strikes(b, s, k);
  }

  /**
   The exact account of attempts: every accepted fail and every reaping counts once, and each
   is also a failed or expired ledger row unless it struck a task with no unreleased row.
   */
  lemma {:induction false} AttemptsAccount(steps: seq<Step>, k: Key)
    ensures
      var b := Run(EMPTY, steps);
      if k in b.tasks then
        && b.tasks[k].attempts == StrikeCount(steps, k, false)
        && b.tasks[k].attempts == StruckRows(Ledger(b.claims, k)) + StrikeCount(steps, k, true)
      else StrikeCount(steps, k, false) == StrikeCount(steps, k, true) == 0
  {
    if steps != [] {
      var b, s := Run(EMPTY, Init(steps)), Last(steps);
      AttemptsAccount(Init(steps), k);
      LedgerAgrees(Init(steps), k);
      if k in b.tasks {
        StepCounts(b, s, k);
      } else {
        StepElsewhere(b, s, k);
        StepLedger(b, s, k);
      }
    }
  }

  /** Dead-letter bound: fails and reapings of one task over any run, and when they bury it. */
  lemma DeadLetterBound(steps: seq<Step>, k: Key)
    requires k in Run(EMPTY, steps).tasks
    ensures
      var t := Run(EMPTY, steps).tasks[k];
      && StrikeCount(steps, k, false) <= Max(1, t.maxAttempts)
      && (t.status == Failed <==> StrikeCount(steps, k, false) == Max(1, t.maxAttempts))
  {
    AttemptsAccount(steps, k);
    LedgerAgrees(steps, k);
  }

  /** A dead-lettered task is never touched again: neither its row nor its ledger. */
  lemma {:induction false} FailedForever(before: seq<Step>, after: seq<Step>, k: Key)
    requires k in Run(EMPTY, before).tasks && Run(EMPTY, before).tasks[k].status == Failed
    ensures
      var b, later := Run(EMPTY, before), Run(EMPTY, before + after);
      && k in later.tasks && later.tasks[k] == b.tasks[k]
      && Ledger(later.claims, k) == Ledger(b.claims, k)
  {
    if after == [] {
      assert before + after == before;
    } else {
      RunLast(before, after);
      FailedForever(before, Init(after), k);
      var steps := before + Init(after);
      var b := Run(EMPTY, steps);
      LedgerAgrees(steps, k);
      StepMoves(b, Last(after), k);
      StepLedger(b, Last(after), k);
      assert MoveOf(b, Last(after), k).Stay?;
    }
  }

  // ------------------------------------------------------- leaving done again

  /** A fail, a release, or a progress report that asks for another status, by the caller that completed `k`. */
  ghost predicate Reopens(b: Board, s: Step, k: Key) {
    && (s.DoFail? || s.DoRelease? || (s.DoProgress? && (s.want == Some(InProgress) || s.want == Some(Blocked))))
    && k == Key(s.c.team, s.id)
    && Holds(b, s.c, s.id, s.token)
  }

  /** Done is not final: these calls, and no other step, take a done task out of it. */
  lemma DoneLeftExactlyBy(b: Board, s: Step, k: Key)
    requires k in b.tasks && b.tasks[k].status == Done
    ensures k in Apply(b, s).tasks
    ensures Apply(b, s).tasks[k].status != Done <==> Reopens(b, s, k)
  {
    StepMoves(b, s, k);
  }

  lemma DoneStep(b: Board, s: Step, k: Key)
    requires k in b.tasks && b.tasks[k].status == Done && !Reopens(b, s, k)
    ensures k in Apply(b, s).tasks
    ensures
      var t, t' := b.tasks[k], Apply(b, s).tasks[k];
      t'.status == Done && t'.assignee == t.assignee && t'.token == t.token && t'.attempts == t.attempts
  {
    StepMoves(b, s, k);
  }

  ghost predicate NeverReopened(before: seq<Step>, after: seq<Step>, k: Key) {
    after != [] ==> NeverReopened(before, Init(after), k) && !Reopens(Run(EMPTY, before + Init(after)), Last(after), k)
  }

  /** While its holder makes none of them a completed task stays done, with its holder, token and attempts, through any run. */
  lemma {:induction false} DoneUntilReopened(before: seq<Step>, after: seq<Step>, k: Key)
    requires k in Run(EMPTY, before).tasks && Run(EMPTY, before).tasks[k].status == Done
    requires NeverReopened(before, after, k)
    ensures
      var b, later := Run(EMPTY, before), Run(EMPTY, before + after);
      && k in later.tasks && later.tasks[k].status == Done
      && later.tasks[k].assignee == b.tasks[k].assignee
      && later.tasks[k].token == b.tasks[k].token
      && later.tasks[k].attempts == b.tasks[k].attempts
  {
    if after == [] {
      assert before + after == before;
    } else {
      RunLast(before, after);
      DoneUntilReopened(before, Init(after), k);
      DoneStep(Run(EMPTY, before + Init(after)), Last(after), k);
    }
  }

  // A task created, claimed and completed by one agent.
  function Finishing(c: Caller, id: string, dflt: int): seq<Step> {
    [DoCreate(c, id, [], 0, 1, None, 5, 0), DoClaim(c, id, dflt, 0), DoComplete(c, id, 1, None, 0)]
  }

  lemma FirstClaim(c: Caller, id: string, dflt: int)
    ensures
      var k, b := Key(c.team, id), Claim(Create(EMPTY, c, id, [], 0, 1, None, 5, 0), c, id, dflt, 0);
      && Holds(b, c, id, 1) && b.tasks[k].attempts == 0 && b.tasks[k].maxAttempts == 5
      && b.claims == [ClaimRow(k, c.agent, 1, 0, None)]
  {
    var created := Create(EMPTY, c, id, [], 0, 1, None, 5, 0);
    assert created.deps == {};
    assert Unmet(created, Key(c.team, id)) == {};
  }

  lemma FinishingDoes(c: Caller, id: string, dflt: int)
    ensures
      var b, k := Run(EMPTY, Finishing(c, id, dflt)), Key(c.team, id);
      && Holds(b, c, id, 1) && b.tasks[k].status == Done && b.tasks[k].attempts == 0 && b.tasks[k].maxAttempts == 5
      && b.claims == [ClaimRow(k, c.agent, 1, 0, Some(Closing(0, Completed)))]
  {
    var steps, k := Finishing(c, id, dflt), Key(c.team, id);
    var claimed := Apply(Apply(EMPTY, steps[0]), steps[1]);
    ThreeSteps(EMPTY, steps[0], steps[1], steps[2]);
    FirstClaim(c, id, dflt);
    assert Init(claimed.claims) == [] && Last(claimed.claims) == ClaimRow(k, c.agent, 1, 0, None);
    assert Close([], k, c.agent, 0, Completed) == [];
  }

  lemma ThreeSteps(b: Board, s1: Step, s2: Step, s3: Step)
    ensures Run(b, [s1, s2, s3]) == Apply(Apply(Apply(b, s1), s2), s3)
  {
    assert Init([s1, s2, s3]) == [s1, s2] && Init([s1, s2]) == [s1] && Init([s1]) == [];
    assert Run(b, [s1]) == Apply(b, s1);
    assert Run(b, [s1, s2]) == Apply(Apply(b, s1), s2);
  }

  /** An input that shows it: a task released by the agent that completed it is open again, under the old token. */
  lemma DoneCanBeReleased(c: Caller, id: string, dflt: int)
    ensures
      var k, b := Key(c.team, id), Run(EMPTY, Finishing(c, id, dflt));
      var after := Run(EMPTY, Finishing(c, id, dflt) + [DoRelease(c, id, 1, 0)]);
      && k in b.tasks && b.tasks[k].status == Done
      && k in after.tasks && after.tasks[k].status == Open && after.tasks[k].token == 1
  {
    FinishingDoes(c, id, dflt);
    RunAppend(EMPTY, Finishing(c, id, dflt), DoRelease(c, id, 1, 0));
  }

  /** And another: failed by that agent it is open with one attempt, though no ledger row records a failure. */
  lemma DoneCanBeFailed(c: Caller, id: string, dflt: int)
    ensures
      var k, b := Key(c.team, id), Run(EMPTY, Finishing(c, id, dflt));
      var after := Run(EMPTY, Finishing(c, id, dflt) + [DoFail(c, id, 1, None, 0)]);
      && k in b.tasks && b.tasks[k].status == Done
      && k in after.tasks && after.tasks[k].status == Open && after.tasks[k].attempts == 1
      && StruckRows(Ledger(after.claims, k)) == 0
  {
    var k, b, fail := Key(c.team, id), Run(EMPTY, Finishing(c, id, dflt)), DoFail(c, id, 1, None, 0);
    FinishingDoes(c, id, dflt);
    RunAppend(EMPTY, Finishing(c, id, dflt), fail);
    LedgerAgrees(Finishing(c, id, dflt), k);
    OneClosedRow(b.claims[0]);
    StepCounts(b, fail, k);
  }

  lemma OneClosedRow(r: ClaimRow)
    requires r.closed.Some? && r.closed.value.outcome == Completed
    ensures Ledger([r], r.task) == [r] && StruckRows([r]) == 0
  {
    assert Init([r]) == [] && Last([r]) == r;
  }

  // ------------------------------------------- runs without post-completion acts

  /** A call the holder of a task makes on it after it was completed. */
  ghost predicate ActsOnDone(b: Board, s: Step) {
    && (s.DoProgress? || s.DoComplete? || s.DoFail? || s.DoRelease?)
    && Holds(b, s.c, s.id, s.token)
    && b.tasks[Key(s.c.team, s.id)].status == Done
  }

  ghost predicate NeverActsOnDone(steps: seq<Step>) {
    steps != [] ==> NeverActsOnDone(Init(steps)) && !ActsOnDone(Run(EMPTY, Init(steps)), Last(steps))
  }

  /**
   When no holder acts on a task after completing it, an active task has its unreleased row,
   and attempts is exactly the number of rows closed as failed or expired.
   */
  lemma {:induction false} DisciplinedLedger(steps: seq<Step>, k: Key)
    requires NeverActsOnDone(steps)
    ensures
      var b := Run(EMPTY, steps);
      && StrikeCount(steps, k, true) == 0
      && (k in b.tasks ==>
            && (Active(b.tasks[k].status) <==> HasOpenRow(b, k))
            && b.tasks[k].attempts == StruckRows(Ledger(b.claims, k)))
  {
    if steps != [] {
      var b, s := Run(EMPTY, Init(steps)), Last(steps);
      DisciplinedLedger(Init(steps), k);
      LedgerAgrees(Init(steps), k);
      if k in b.tasks {
        DisciplinedStep(b, s, k);
      } else {
        StepElsewhere(b, s, k);
        StepLedger(b, s, k);
      }
    }
    AttemptsAccount(steps, k);
  }

  lemma DisciplinedStep(b: Board, s: Step, k: Key)
    requires KeyOk(b, k) && k in b.tasks && !ActsOnDone(b, s)
    requires Active(b.tasks[k].status) <==> HasOpenRow(b, k)
    ensures k in Apply(b, s).tasks && (Active(Apply(b, s).tasks[k].status) <==> HasOpenRow(Apply(b, s), k))
    ensures Strikes(b, s, k) ==> HasOpenRow(b, k)
  {
    StepLedger(b, s, k);
    StepMoves(b, s, k);
    DisciplinedMove(k, b.tasks[k], Ledger(b.claims, k), MoveOf(b, s, k));
    assert MoveOf(b, s, k).Strike? <==> Strikes(b, s, k);
  }

  lemma DisciplinedMove(k: Key, t: Task, rows: seq<ClaimRow>, m: Move)
    requires TaskOk(t) && RowsOk(k, t, rows) && Allowed(t, m)
    requires m.Stay? || t.status != Done
    requires Active(t.status) <==> rows != [] && Last(rows).closed.None?
    ensures
      var after := MovedLedger(rows, k, t, m);
      Active(Moved(t, m).status) <==> after != [] && Last(after).closed.None?
    ensures m.Strike? ==> rows != [] && Last(rows).closed.None?
  {
    match m
    case Finish(agent, _, at) => CloseOwn(k, t, rows, agent, at, Completed);
    case Strike(holder, _, outcome, at) =>
      if holder.Some? {
        CloseOwn(k, t, rows, holder.value, at, outcome);
      }
    case GiveBack(agent, at) => CloseOwn(k, t, rows, agent, at, Released);
    case _ =>
  }

  // ------------------------------------------------------------- zombie claims

  // The claim (agent, token) on `k` has been given out, and is not the current one.
  ghost predicate Lost(b: Board, k: Key, agent: string, token: int) {
    k in b.tasks && b.tasks[k].token >= token && !(b.tasks[k].assignee == Some(agent) && b.tasks[k].token == token)
  }

  lemma {:induction false} LostForever(b: Board, steps: seq<Step>, k: Key, agent: string, token: int)
    requires Lost(b, k, agent, token)
    ensures Lost(Run(b, steps), k, agent, token)
  {
    if steps != [] {
      LostForever(b, Init(steps), k, agent, token);
      StepMoves(Run(b, Init(steps)), Last(steps), k);
    }
  }

  lemma {:induction false} TokenGrows(b: Board, steps: seq<Step>, k: Key)
    requires k in b.tasks
    ensures k in Run(b, steps).tasks && Run(b, steps).tasks[k].token >= b.tasks[k].token
  {
    if steps != [] {
      TokenGrows(b, Init(steps), k);
      StepMoves(Run(b, Init(steps)), Last(steps), k);
    }
  }

  // A call that presents the claim (agent, token) on `k`.
  ghost predicate Presents(s: Step, k: Key, agent: string, token: int) {
    && (s.DoProgress? || s.DoComplete? || s.DoFail? || s.DoRelease?)
    && s.c == Caller(k.team, agent) && s.id == k.id && s.token == token
  }

  /**
   Zombie rejection for ever.  If (agent, token) held `k` at some moment and no longer does after
   `meanwhile`, then after any further run a call presenting it changes nothing at all.
   */
  lemma ZombieRejected(b: Board, meanwhile: seq<Step>, later: seq<Step>, s: Step, k: Key, agent: string, token: int)
    requires Holds(b, Caller(k.team, agent), k.id, token)
    requires !Holds(Run(b, meanwhile), Caller(k.team, agent), k.id, token)
    requires Presents(s, k, agent, token)
    ensures Apply(Run(Run(b, meanwhile), later), s) == Run(Run(b, meanwhile), later)
  {
    assert Key(k.team, k.id) == k;
    TokenGrows(b, meanwhile, k);
    LostForever(Run(b, meanwhile), later, k, agent, token);
  }
}
