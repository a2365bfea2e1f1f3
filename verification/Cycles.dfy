/**
 Cycles of dependencies: exactly which creations close one, that tasks on a cycle wait for ever, and
 that fresh ids rule cycles out.
 */
module Cycles {
  import opened Common
  import opened TaskBoard
  import opened TaskRuns
  import opened TaskSafety
  import opened Scheduling

  /** Each task of `path` waits for the next one. */
  ghost predicate Walk(deps: set<Dep>, path: seq<Key>) {
    forall i | 0 <= i < |path| - 1 :: Dep(path[i], path[i + 1]) in deps
  }

  ghost predicate Cycle(deps: set<Dep>, path: seq<Key>) {
    |path| >= 2 && path[0] == Last(path) && Walk(deps, path)
  }

  // Every position of a cycle has an edge that leaves it.
  lemma CycleEdge(deps: set<Dep>, path: seq<Key>, i: nat) returns (y: Key)
    requires Cycle(deps, path) && i < |path|
    ensures Dep(path[i], y) in deps && y in path
  {
    var j := if i < |path| - 1 then i else 0;
    assert Dep(path[j], path[j + 1]) in deps;
    y := path[j + 1];
  }

  ghost predicate Acyclic(deps: set<Dep>) {
    forall path :: !Cycle(deps, path)
  }

  ghost predicate Leads(deps: set<Dep>, path: seq<Key>, x: Key, y: Key) {
    |path| >= 2 && path[0] == x && Last(path) == y && Walk(deps, path)
  }

  /** `x` waits for `y`, directly or through other tasks. */
  ghost predicate DependsOn(deps: set<Dep>, x: Key, y: Key) {
    exists path :: Leads(deps, path, x, y)
  }

  lemma OneEdge(deps: set<Dep>, x: Key, y: Key)
    requires Dep(x, y) in deps
    ensures DependsOn(deps, x, y)
  {
    assert Leads(deps, [x, y], x, y);
  }

  lemma EdgeBefore(deps: set<Dep>, x: Key, y: Key, z: Key)
    requires Dep(x, y) in deps && DependsOn(deps, y, z)
    ensures DependsOn(deps, x, z)
  {
    var path :| Leads(deps, path, y, z);
    assert Leads(deps, [x] + path, x, z);
  }

  lemma EdgeAfter(deps: set<Dep>, x: Key, y: Key, z: Key)
    requires DependsOn(deps, x, y) && Dep(y, z) in deps
    ensures DependsOn(deps, x, z)
  {
    var path :| Leads(deps, path, x, y);
    assert Leads(deps, path + [z], x, z);
  }

  // An edge that can be followed back closes a cycle.
  lemma EdgeCloses(deps: set<Dep>, x: Key, y: Key) returns (path: seq<Key>)
    requires Dep(x, y) in deps && (y == x || DependsOn(deps, y, x))
    ensures Cycle(deps, path) && path[0] == x
  {
    if y == x {
      path := [x, x];
    } else {
      var back :| Leads(deps, back, y, x);
      path := [x] + back;
    }
  }

  // ------------------------------------------ which creations close a cycle

  /** A named dependency is the new id itself, or already waits for it. */
  ghost predicate Closes(b: Board, k: Key, on: seq<string>) {
    exists d :: d in on && (Key(k.team, d) == k || DependsOn(b.deps, Key(k.team, d), k))
  }

  // Following a walk until it first reaches `k` uses no edge that starts at `k`.
  lemma {:induction false} FirstArrival(deps: set<Dep>, added: set<Dep>, k: Key, path: seq<Key>)
    requires forall d | d in added :: d.task == k
    requires path != [] && Last(path) == k && Walk(deps + added, path)
    ensures path[0] == k || DependsOn(deps, path[0], k)
  {
    if path[0] != k {
      assert Dep(path[0], path[1]) in deps + added;
      var rest := path[1..];
      forall i | 0 <= i < |rest| - 1 ensures Dep(rest[i], rest[i + 1]) in deps + added {
        assert rest[i] == path[i + 1] && rest[i + 1] == path[i + 2];
      }
      FirstArrival(deps, added, k, rest);
      if path[1] == k {
        OneEdge(deps, path[0], k);
      } else {
        EdgeBefore(deps, path[0], path[1], k);
      }
    }
  }

  // The rest of a cycle, from the task after position `i` round to position `i`.
  lemma Turned(deps: set<Dep>, path: seq<Key>, i: nat) returns (round: seq<Key>)
    requires Cycle(deps, path) && i < |path| - 1
    ensures round != [] && round[0] == path[i + 1] && Last(round) == path[i] && Walk(deps, round)
  {
    var first, second := path[i + 1..], path[1..i + 1];
    round := first + second;
    forall j | 0 <= j < |round| - 1 ensures Dep(round[j], round[j + 1]) in deps {
      var n := if j < |first| then j + i + 1 else j - |first| + 1;
      assert round[j] == path[n];
      if j == |first| - 1 {
        assert round[j + 1] == path[1] && path[n] == path[0];
        assert Dep(path[0], path[1]) in deps;
      } else {
        assert round[j + 1] == path[n + 1];
      }
    }
  }

  lemma NewCycle(deps: set<Dep>, added: set<Dep>, k: Key, path: seq<Key>) returns (t: Key)
    requires Acyclic(deps) && (forall d | d in added :: d.task == k) && Cycle(deps + added, path)
    requires forall d | d in deps :: d.task != k
    ensures Dep(k, t) in added && (t == k || DependsOn(deps, t, k))
  {
    assert !Cycle(deps, path);
    var i :| 0 <= i < |path| - 1 && Dep(path[i], path[i + 1]) !in deps;
    assert Dep(path[i], path[i + 1]) in deps + added;
    t := path[i + 1];
    var round := Turned(deps + added, path, i);
    FirstArrival(deps, added, k, round);
  }

  /** On an acyclic board a creation closes a cycle if and only if a dependency it names is its own id or already waits for it. */
  lemma CreateClosesExactly(b: Board, c: Caller, id: string, on: seq<string>, priority: int, weight: int,
                            ttl: Option<int>, maxAttempts: int, now: int)
    requires Key(c.team, id) !in b.tasks && DepsWithinTeams(b) && Acyclic(b.deps)
    ensures Acyclic(Create(b, c, id, on, priority, weight, ttl, maxAttempts, now).deps) <==> !Closes(b, Key(c.team, id), on)
  {
    var k, added := Key(c.team, id), set d | d in on :: Dep(Key(c.team, id), Key(c.team, d));
    var after := Create(b, c, id, on, priority, weight, ttl, maxAttempts, now);
    assert after.deps == b.deps + added;
    if Closes(b, k, on) {
      var d :| d in on && (Key(k.team, d) == k || DependsOn(b.deps, Key(k.team, d), k));
      if Key(k.team, d) != k {
        MoreEdges(b.deps, after.deps, Key(k.team, d), k);
      }
      assert Dep(k, Key(c.team, d)) in added;
      var path := EdgeCloses(after.deps, k, Key(k.team, d));
    } else if path :| Cycle(after.deps, path) {
      var t := NewCycle(b.deps, added, k, path);
    }
  }

  lemma MoreEdges(deps: set<Dep>, more: set<Dep>, x: Key, y: Key)
    requires deps <= more && DependsOn(deps, x, y)
    ensures DependsOn(more, x, y)
  {
    var path :| Leads(deps, path, x, y);
    assert Leads(more, path, x, y);
  }

  /** No creation of the run closed a cycle when it was made. */
  ghost predicate NoneCloses(steps: seq<Step>) {
    steps != [] ==>
      && NoneCloses(Init(steps))
      && (Last(steps).DoCreate? ==>
            var b, k := Run(EMPTY, Init(steps)), Key(Last(steps).c.team, Last(steps).id);
            k in b.tasks || !Closes(b, k, Last(steps).dependsOn))
  }

  // Dependencies are never deleted.
  lemma StepKeepsDeps(b: Board, s: Step)
    ensures b.deps <= Apply(b, s).deps
  {
    if !s.DoCreate? {
      StepKeepsShape(b, s);
    }
  }

  lemma FewerEdges(deps: set<Dep>, more: set<Dep>)
    requires deps <= more && Acyclic(more)
    ensures Acyclic(deps)
  {
    forall path | Cycle(deps, path) ensures false {
      assert Cycle(more, path);
    }
  }

  /** A reachable board is free of cycles if and only if none of the creations that led to it closed one. */
  lemma {:induction false} AcyclicExactly(steps: seq<Step>)
    ensures Acyclic(Run(EMPTY, steps).deps) <==> NoneCloses(steps)
  {
    if steps == [] {
      forall path ensures !Cycle(EMPTY.deps, path) {
        if Cycle(EMPTY.deps, path) {
          var _ := CycleEdge(EMPTY.deps, path, 0);
        }
      }
    } else {
      var b, s := Run(EMPTY, Init(steps)), Last(steps);
      AcyclicExactly(Init(steps));
      StepKeepsDeps(b, s);
      if !Acyclic(b.deps) {
        if Acyclic(Apply(b, s).deps) {
          FewerEdges(b.deps, Apply(b, s).deps);
        }
      } else if !s.DoCreate? {
        StepKeepsShape(b, s);
      } else if Key(s.c.team, s.id) !in b.tasks {
        DepsStayWithinTeams(Init(steps));
        CreateClosesExactly(b, s.c, s.id, s.dependsOn, s.priority, s.weight, s.ttl, s.maxAttempts, s.now);
      }
    }
  }

  // ------------------------------------------------------------- fresh ids

  /** Every new id differs from every id any caller has already named as a dependency, its own list included. */
  ghost predicate FreshIds(steps: seq<Step>) {
    steps != [] ==>
      && FreshIds(Init(steps))
      && (Last(steps).DoCreate? ==>
            && Last(steps).id !in Last(steps).dependsOn
            && (forall d | d in Run(EMPTY, Init(steps)).deps :: d.on != Key(Last(steps).c.team, Last(steps).id)))
  }

  lemma LastEdge(deps: set<Dep>, path: seq<Key>, x: Key, y: Key)
    requires Leads(deps, path, x, y)
    ensures exists d :: d in deps && d.on == y
  {
    assert Dep(path[|path| - 2], path[|path| - 2 + 1]) in deps;
  }

  // Nothing leads to a key that no dependency names.
  lemma NothingLeadsTo(deps: set<Dep>, x: Key, k: Key)
    requires forall d | d in deps :: d.on != k
    ensures !DependsOn(deps, x, k)
  {
    if path :| Leads(deps, path, x, k) {
      LastEdge(deps, path, x, k);
    }
  }

  lemma {:induction false} FreshIdsCloseNothing(steps: seq<Step>)
    requires FreshIds(steps)
    ensures NoneCloses(steps)
  {
    if steps != [] {
      var b, s := Run(EMPTY, Init(steps)), Last(steps);
      FreshIdsCloseNothing(Init(steps));
      if s.DoCreate? {
        var k := Key(s.c.team, s.id);
        forall x {
          NothingLeadsTo(b.deps, x, k);
        }
      }
    }
  }

  /** With fresh ids no reachable board has a cycle of dependencies. */
  lemma NoCycles(steps: seq<Step>)
    requires FreshIds(steps)
    ensures Acyclic(Run(EMPTY, steps).deps)
  {
    FreshIdsCloseNothing(steps);
    AcyclicExactly(steps);
  }

  lemma TwoSteps(b: Board, one: Step, two: Step)
    ensures Run(b, [one, two]) == Apply(Apply(b, one), two)
  {
    assert Init([one, two]) == [one] && Init([one]) == [];
    assert Run(b, [one]) == Apply(b, one);
  }

  /** Without freshness it can happen: a caller that names an id before it is created can close a cycle, and both tasks wait for ever. */
  lemma GuessedIdCloses(c: Caller, x: string, y: string, now: int)
    requires x != y
    ensures
      var steps := [DoCreate(c, x, [y], 0, 1, None, 5, now), DoCreate(c, y, [x], 0, 1, None, 5, now)];
      var b := Run(EMPTY, steps);
      && Cycle(b.deps, [Key(c.team, x), Key(c.team, y), Key(c.team, x)])
      && Claimable(b, c.team) == {}
      && |b.tasks| == 2
  {
    var one, two := DoCreate(c, x, [y], 0, 1, None, 5, now), DoCreate(c, y, [x], 0, 1, None, 5, now);
    var kx, ky := Key(c.team, x), Key(c.team, y);
    TwoSteps(EMPTY, one, two);
    var b := Run(EMPTY, [one, two]);
    assert y in one.dependsOn && x in two.dependsOn;
    assert Dep(kx, ky) in b.deps && Dep(ky, kx) in b.deps;
    assert b.tasks.Keys == {kx, ky};
  }

  // ---------------------------------------------- tasks on a cycle wait for ever

  // A task has all its dependencies from its creation on.
  lemma {:induction false} EdgesFromBirth(before: seq<Step>, after: seq<Step>, d: Dep)
    requires d.task in Run(EMPTY, before).tasks && d in Run(EMPTY, before + after).deps
    ensures d in Run(EMPTY, before).deps
  {
    if after == [] {
      assert before + after == before;
    } else {
      RunLast(before, after);
      RunKeepsTasks(before, Init(after), d.task);
      var b, s := Run(EMPTY, before + Init(after)), Last(after);
      if !s.DoCreate? {
        StepKeepsShape(b, s);
      }
      EdgesFromBirth(before, Init(after), d);
    }
  }

  lemma {:induction false} RunKeepsTasks(before: seq<Step>, after: seq<Step>, k: Key)
    requires k in Run(EMPTY, before).tasks
    ensures k in Run(EMPTY, before + after).tasks
  {
    if after == [] {
      assert before + after == before;
    } else {
      RunLast(before, after);
      RunKeepsTasks(before, Init(after), k);
      StepMoves(Run(EMPTY, before + Init(after)), Last(after), k);
    }
  }

  ghost predicate Untouched(b: Board, k: Key) {
    k in b.tasks ==> b.tasks[k].status == Open && b.tasks[k].token == 0
  }

  // One step leaves a task alone that waits for a task that is not done.
  lemma WaitingStaysUntouched(b: Board, s: Step, x: Key, y: Key)
    requires KeyOk(b, x) && Untouched(b, x) && !IsDone(b, y)
    requires x in b.tasks ==> Dep(x, y) in b.deps
    ensures Untouched(Apply(b, s), x)
  {
    if x in b.tasks {
      StepMoves(b, s, x);
      assert y in Unmet(b, x);
    } else {
      StepElsewhere(b, s, x);
    }
  }

  // At every moment of a run, the tasks of a cycle of its last board that exist already are untouched.
  lemma {:induction false} CycleUntouched(before: seq<Step>, after: seq<Step>, path: seq<Key>)
    requires Cycle(Run(EMPTY, before + after).deps, path)
    ensures forall i | 0 <= i < |path| :: Untouched(Run(EMPTY, before), path[i])
  {
    if before != [] {
      var front, s := Init(before), Last(before);
      var b := Run(EMPTY, front);
      SplitLast(before);
      assert front + ([s] + after) == before + after;
      CycleUntouched(front, [s] + after, path);
      forall i | 0 <= i < |path| ensures Untouched(Run(EMPTY, before), path[i]) {
        var y := CycleEdge(Run(EMPTY, before + after).deps, path, i);
        LedgerAgrees(front, path[i]);
        if path[i] in b.tasks {
          EdgesFromBirth(front, [s] + after, Dep(path[i], y));
        }
        WaitingStaysUntouched(b, s, path[i], y);
      }
    }
  }

  lemma CycleWaits(steps: seq<Step>, path: seq<Key>, i: nat)
    requires Cycle(Run(EMPTY, steps).deps, path) && i < |path|
    ensures
      var b := Run(EMPTY, steps);
      path[i] in b.tasks && b.tasks[path[i]].status == Open && b.tasks[path[i]].token == 0
  {
    assert steps + [] == steps;
    CycleUntouched(steps, [], path);
    DepsStayWithinTeams(steps);
    var y := CycleEdge(Run(EMPTY, steps).deps, path, i);
  }

  /** A task on a cycle is open and was never claimed, now and after any later run. */
  lemma CyclesWaitForever(steps: seq<Step>, later: seq<Step>, path: seq<Key>, i: nat)
    requires Cycle(Run(EMPTY, steps).deps, path) && i < |path|
    ensures
      var b := Run(EMPTY, steps + later);
      path[i] in b.tasks && b.tasks[path[i]].status == Open && b.tasks[path[i]].token == 0
  {
    CycleStays(steps, later, path);
    CycleWaits(steps + later, path, i);
  }

  lemma {:induction false} CycleStays(steps: seq<Step>, later: seq<Step>, path: seq<Key>)
    requires Cycle(Run(EMPTY, steps).deps, path)
    ensures Cycle(Run(EMPTY, steps + later).deps, path)
  {
    if later == [] {
      assert steps + later == steps;
    } else {
      RunLast(steps, later);
      CycleStays(steps, Init(later), path);
      StepKeepsDeps(Run(EMPTY, steps + Init(later)), Last(later));
    }
  }
}
