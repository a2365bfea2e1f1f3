/**
 The reaper takes a task away exactly when the last step that wrote its lease is too old,
 whatever other steps fell between the reaper's scan and its locked re-check; and a sweep
 that nothing interrupts leaves no overdue task behind.
 */
module Leases {
  import opened Common
  import opened TaskBoard
  import opened TaskRuns
  import opened TaskSafety
  import opened TaskCalls

  /** A lease promised at time `at` for `ttl` seconds. */
  datatype Promise = Promise(at: int, ttl: int)

  /**
   The lease that step `s` promises to the holder of `k`, if it is a lease-writing step that takes effect on `k`:
   for the task's own ttl if it has one, which a claim, but not a renewal, takes zero not to be.
   */
  ghost function Promised(b: Board, s: Step, k: Key): Option<Promise>
    requires k in b.tasks
  {
    var ttl := b.tasks[k].ttl;
    match s
    case DoClaim(c, id, dflt, now) =>
      if k == Key(c.team, id) && Ready(b, k) then Some(Promise(now, if ttl == None || ttl == Some(0) then dflt else ttl.value))
      else None
    case DoProgress(c, id, token, _, _, dflt, now) =>
      if k == Key(c.team, id) && Holder(b, c, id, token) then Some(Promise(now, if ttl == None then dflt else ttl.value))
      else None
    case DoHeartbeat(c, dflt, now) =>
      if HeldBy(b, c, k) then Some(Promise(now, if ttl == None then dflt else ttl.value)) else None
    case _ => None
  }

  /** The most recent promise a run made about `k`. */
  ghost function LastPromise(steps: seq<Step>, k: Key): Option<Promise> {
    if steps == [] then None
    else
      var b := Run(EMPTY, Init(steps));
      var p := if k in b.tasks then Promised(b, Last(steps), k) else None;
      if p.Some? then p else LastPromise(Init(steps), k)
  }

  // A lease in the table is always the last promise.
  lemma {:induction false} LeaseIsLastPromise(steps: seq<Step>, k: Key)
    requires k in Run(EMPTY, steps).tasks && Run(EMPTY, steps).tasks[k].lease.Some?
    ensures LastPromise(steps, k).Some?
    ensures
      var p := LastPromise(steps, k).value;
      Run(EMPTY, steps).tasks[k].lease.value == p.at + p.ttl * 1000
  {
    if steps != [] {
      var b, s := Run(EMPTY, Init(steps)), Last(steps);
      if k !in b.tasks {
        StepElsewhere(b, s, k);
      } else {
        StepMoves(b, s, k);
        CanClaimMeans(b, k);
        if Promised(b, s, k).None? {
          LeaseIsLastPromise(Init(steps), k);
        }
      }
    }
  }

  /**
   Reaper safety and its converse.  After any run, a re-check of `k` at time `now` takes the task
   away exactly when it is claimed or in progress and the last promise about it ran out before `now`.
   */
  lemma ReapedExactlyWhenPromiseRanOut(steps: seq<Step>, k: Key, now: int, at: int)
    requires k in Run(EMPTY, steps).tasks
    ensures
      var b, p := Run(EMPTY, steps), LastPromise(steps, k);
      Reap(b, k, now, at) != b <==>
        Running(b.tasks[k].status) && p.Some? && p.value.at + p.value.ttl * 1000 < now
  {
    var b := Run(EMPTY, steps);
    LedgerAgrees(steps, k);
    if Running(b.tasks[k].status) {
      LeaseIsLastPromise(steps, k);
    }
    if Reapable(b.tasks[k], now) {
      assert |Reap(b, k, now, at).log| == |b.log| + 1;
    }
  }

  // --------------------------------------------------- an uninterrupted sweep

  /**
   The candidates re-checked one after another with nothing in between.  `clock(i)` is the i-th
   reading: reading 0 is the scan, the re-check of candidate i uses 2*i+1 and its write 2*i+2.
   */
  ghost function Sweep(b: Board, order: seq<Key>, clock: nat -> int): Board {
    if order == [] then b
    else Reap(Sweep(b, Init(order), clock), Last(order), clock(2 * |order| - 1), clock(2 * |order|))
  }

  ghost predicate NeverBeforeScan(clock: nat -> int) {
    forall i :: clock(i) >= clock(0)
  }

  lemma {:induction false} SweepKeepsKeys(b: Board, order: seq<Key>, clock: nat -> int)
    ensures Sweep(b, order, clock).tasks.Keys == b.tasks.Keys
  {
    if order != [] {
      SweepKeepsKeys(b, Init(order), clock);
    }
  }

  // One key through a sweep: reaped if listed and overdue, otherwise as it was.
  lemma {:induction false} SweepOneKey(b: Board, order: seq<Key>, clock: nat -> int, k: Key)
    requires k in b.tasks && Distinct(order) && NeverBeforeScan(clock)
    ensures k in Sweep(b, order, clock).tasks
    ensures
      var after := Sweep(b, order, clock);
      && (k in order && Reapable(b.tasks[k], clock(0)) ==> after.tasks[k] == Struck(b.tasks[k]))
      && (k !in order ==> after.tasks[k] == b.tasks[k])
  {
    if order != [] {
      var front, last := Init(order), Last(order);
      SweepOneKey(b, front, clock, k);
      assert order == front + [last];
      assert clock(2 * |order| - 1) >= clock(0);
      if k == last {
        assert k !in front;
      } else {
        assert k in order ==> k in front;
        assert Sweep(b, order, clock).tasks[k] == Sweep(b, front, clock).tasks[k];
      }
    }
  }

  /**
   Completeness: an uninterrupted sweep whose clock never falls behind its scan strikes every task
   that was overdue at the scan, touches no other row, and leaves nothing overdue.
   */
  lemma SweepIsComplete(b: Board, order: seq<Key>, clock: nat -> int)
    requires Enumerates(order, Overdue(b, clock(0))) && NeverBeforeScan(clock)
    ensures
      var after := Sweep(b, order, clock);
      && after.tasks.Keys == b.tasks.Keys
      && (forall k | k in b.tasks :: after.tasks[k] ==
            if k in Overdue(b, clock(0)) then Struck(b.tasks[k]) else b.tasks[k])
      && Overdue(after, clock(0)) == {}
  {
    var after := Sweep(b, order, clock);
    SweepKeepsKeys(b, order, clock);
    forall k | k in b.tasks
      ensures after.tasks[k] == if k in Overdue(b, clock(0)) then Struck(b.tasks[k]) else b.tasks[k]
    {
      SweepOneKey(b, order, clock, k);
    }
  }

  // ------------------------------------------- a sweep amid other calls

  /** One candidate, the i-th: what other callers do before its re-check, and the re-check. */
  ghost function AmidOne(b: Board, k: Key, i: nat, clock: nat -> int, plays: nat -> seq<Step>): Board {
    Reap(Run(b, plays(i)), k, clock(2 * i + 1), clock(2 * i + 2))
  }

  ghost predicate Takes(b: Board, k: Key, i: nat, clock: nat -> int, plays: nat -> seq<Step>) {
    var u := Run(b, plays(i));
    k in u.tasks && Reapable(u.tasks[k], clock(2 * i + 1))
  }

  /** The same sweep with other callers at work: `plays(i)` are the steps that fall before the i-th re-check. */
  ghost function SweepAmid(b: Board, order: seq<Key>, clock: nat -> int, plays: nat -> seq<Step>): Board {
    if order == [] then b
    else AmidOne(SweepAmid(b, Init(order), clock, plays), Last(order), |order| - 1, clock, plays)
  }

  /** How many of its re-checks took a task away. */
  ghost function Taken(b: Board, order: seq<Key>, clock: nat -> int, plays: nat -> seq<Step>): nat {
    if order == [] then 0
    else
      Taken(b, Init(order), clock, plays) +
      (if Takes(SweepAmid(b, Init(order), clock, plays), Last(order), |order| - 1, clock, plays) then 1 else 0)
  }

  // One more candidate re-checked.
  lemma AmidAppend(b: Board, order: seq<Key>, clock: nat -> int, plays: nat -> seq<Step>, k: Key)
    ensures SweepAmid(b, order + [k], clock, plays) == AmidOne(SweepAmid(b, order, clock, plays), k, |order|, clock, plays)
    ensures Taken(b, order + [k], clock, plays) ==
            Taken(b, order, clock, plays) + (if Takes(SweepAmid(b, order, clock, plays), k, |order|, clock, plays) then 1 else 0)
  {
    assert Init(order + [k]) == order;
  }

  ghost predicate Undisturbed(plays: nat -> seq<Step>) {
    forall i :: plays(i) == []
  }

  /** With nobody else at work this is the sweep above, and if the clock does not fall behind every candidate is taken. */
  lemma {:induction false} UndisturbedSweep(b: Board, order: seq<Key>, clock: nat -> int, plays: nat -> seq<Step>)
    requires Undisturbed(plays)
    ensures SweepAmid(b, order, clock, plays) == Sweep(b, order, clock)
    ensures Enumerates(order, Overdue(b, clock(0))) && NeverBeforeScan(clock) ==> Taken(b, order, clock, plays) == |order|
  {
    AmidIsSweep(b, order, clock, plays);
    if Enumerates(order, Overdue(b, clock(0))) && NeverBeforeScan(clock) {
      AllTaken(b, order, clock, plays);
    }
  }

  lemma {:induction false} AmidIsSweep(b: Board, order: seq<Key>, clock: nat -> int, plays: nat -> seq<Step>)
    requires Undisturbed(plays)
    ensures SweepAmid(b, order, clock, plays) == Sweep(b, order, clock)
  {
    if order != [] {
      AmidIsSweep(b, Init(order), clock, plays);
      assert plays(|order| - 1) == [];
    }
  }

  lemma {:induction false} AllTaken(b: Board, order: seq<Key>, clock: nat -> int, plays: nat -> seq<Step>)
    requires Undisturbed(plays) && Distinct(order) && NeverBeforeScan(clock)
    requires forall k | k in order :: k in Overdue(b, clock(0))
    ensures Taken(b, order, clock, plays) == |order|
  {
    if order != [] {
      var front, k := Init(order), Last(order);
      SplitLast(order);
      AllTaken(b, front, clock, plays);
      AmidIsSweep(b, front, clock, plays);
      assert plays(|order| - 1) == [];
      assert k !in front && k in Overdue(b, clock(0));
      SweepOneKey(b, front, clock, k);
      assert clock(2 * |order| - 1) >= clock(0);
    }
  }

  ghost function StepsOfOne(k: Key, i: nat, clock: nat -> int, plays: nat -> seq<Step>): seq<Step> {
    plays(i) + [DoReap(k, clock(2 * i + 1), clock(2 * i + 2))]
  }

  lemma OneIsRun(b: Board, k: Key, i: nat, clock: nat -> int, plays: nat -> seq<Step>)
    ensures Run(b, StepsOfOne(k, i, clock, plays)) == AmidOne(b, k, i, clock, plays)
  {
    assert Init(StepsOfOne(k, i, clock, plays)) == plays(i);
  }

  /** The steps of a sweep and of everybody else meanwhile. */
  ghost function SweepSteps(order: seq<Key>, clock: nat -> int, plays: nat -> seq<Step>): seq<Step> {
    if order == [] then []
    else SweepSteps(Init(order), clock, plays) + StepsOfOne(Last(order), |order| - 1, clock, plays)
  }

  lemma {:induction false} SweepIsRun(b: Board, order: seq<Key>, clock: nat -> int, plays: nat -> seq<Step>)
    ensures SweepAmid(b, order, clock, plays) == Run(b, SweepSteps(order, clock, plays))
  {
    if order != [] {
      var front, k, i := Init(order), Last(order), |order| - 1;
      SweepIsRun(b, front, clock, plays);
      OneIsRun(SweepAmid(b, front, clock, plays), k, i, clock, plays);
      RunConcat(b, SweepSteps(front, clock, plays), StepsOfOne(k, i, clock, plays));
    }
  }

  /**
   A sweep of a reachable board, whoever else is at work, is a run of separate reaper steps among
   theirs and leaves a reachable board; so every theorem about runs holds at each point inside it.
   */
  lemma SweptBoardIsReachable(steps: seq<Step>, order: seq<Key>, clock: nat -> int, plays: nat -> seq<Step>)
    ensures SweepAmid(Run(EMPTY, steps), order, clock, plays) == Run(EMPTY, steps + SweepSteps(order, clock, plays))
  {
    SweepIsRun(Run(EMPTY, steps), order, clock, plays);
    RunConcat(EMPTY, steps, SweepSteps(order, clock, plays));
  }
}
