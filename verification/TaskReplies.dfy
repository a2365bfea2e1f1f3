/**
 What the task tools answer.  The body of each keyed tool is a function from the tables to new tables and a
 reply; what a reply says is stated against the tables before and after the call.
 */
module TaskReplies {
  import opened Common
  import opened TaskBoard
  import opened TaskRuns
  import opened TaskCalls
  import TaskSafety
  import Scheduling
  import I = Idempotency

  type Effect<T, R> = I.Effect<T, R>

  datatype Reply =
    | Aborted  // the INSERT violated a primary key and the transaction rolled back
    | Created(task: Key, eventId: nat)
    | UnknownTask
    | NotOpen(status: Status, takenBy: Option<string>)
    | DepsUnmet(pending: set<Key>)
    | ClaimOk(task: Key, token: nat, lease: int, ttl: int)
    | NothingEligible
    | Stale(currentToken: nat, currentAssignee: Option<string>)
    | ProgressOk(task: Key, status: Status, lease: int)
    | CompleteOk(task: Key, eventId: nat, unblocked: set<Key>)
    | FailOk(task: Key, dead: bool, attempts: nat)
    | ReleaseOk(task: Key)

  // ------------------------------------------- the bodies of the keyed tools

  function CreateWork(b: Board, c: Caller, id: string, dependsOn: seq<string>, priority: int, weight: int,
                      ttl: Option<int>, maxAttempts: int, now: int): Effect<Board, Reply> {
    if Key(c.team, id) in b.tasks then I.Effect(b, Aborted, false)
    else I.Effect(Create(b, c, id, dependsOn, priority, weight, ttl, maxAttempts, now),
              Created(Key(c.team, id), |b.log| + 1), true)
  }

  function ClaimWork(b: Board, c: Caller, id: string, dflt: int, now: int): Effect<Board, Reply> {
    var k := Key(c.team, id);
    var reply :=
      if k !in b.tasks then UnknownTask
      else if b.tasks[k].status != Open then NotOpen(b.tasks[k].status, b.tasks[k].assignee)
      else if Unmet(b, k) != {} then DepsUnmet(Unmet(b, k))
      else
        var ttl := ClaimTtl(b.tasks[k], dflt);
        ClaimOk(k, b.tasks[k].token + 1, now + ttl * 1000, ttl);
    I.Effect(Claim(b, c, id, dflt, now), reply, true)
  }

  function ClaimNextWork(b: Board, c: Caller, answer: Option<Key>, dflt: int, now: int): Effect<Board, Reply> {
    if answer.None? then I.Effect(b, NothingEligible, true) else ClaimWork(b, c, answer.value.id, dflt, now)
  }

  function Refusal(b: Board, k: Key): Reply {
    if k in b.tasks then Stale(b.tasks[k].token, b.tasks[k].assignee) else UnknownTask
  }

  function CompleteWork(b: Board, c: Caller, id: string, token: int, summary: Option<string>, now: int): Effect<Board, Reply> {
    var k := Key(c.team, id);
    var after := Complete(b, c, id, token, summary, now);
    I.Effect(after,
         if Holds(b, c, id, token) then CompleteOk(k, |after.log|, Scheduling.Unblocked(after, k)) else Refusal(b, k),
         true)
  }

  /** The keyed task tools change nothing when their reply is not stored, so `Idempotency.ExactlyOnce` holds of them. */
  lemma TaskToolsAreHonest(c: Caller, id: string, on: seq<string>, priority: int, weight: int, ttl: Option<int>,
                           maxAttempts: int, dflt: int, token: int, summary: Option<string>, answer: Option<Key>, now: int)
    ensures I.Honest((b: Board) => CreateWork(b, c, id, on, priority, weight, ttl, maxAttempts, now))
    ensures I.Honest((b: Board) => ClaimWork(b, c, id, dflt, now))
    ensures I.Honest((b: Board) => ClaimNextWork(b, c, answer, dflt, now))
    ensures I.Honest((b: Board) => CompleteWork(b, c, id, token, summary, now))
  {
  }

  // ------------------------------------------------------ what they answer

  /** Created, with the position of the task's creation in the log; or aborted on a key that is taken. */
  ghost predicate CreateAnswers(b: Board, after: Board, c: Caller, id: string, reply: Reply) {
    match reply
    case Created(task, eventId) =>
      && task == Key(c.team, id) && task !in b.tasks && task in after.tasks
      && 1 <= eventId <= |after.log| && eventId == |b.log| + 1
      && after.log[eventId - 1].body.TaskCreated? && after.log[eventId - 1].body.id == id
      && after.log[eventId - 1].team == c.team
    case Aborted => Key(c.team, id) in b.tasks && after == b
    case _ => false
  }

  /**
   A claim that is answered ok can be used: the caller now holds the task under the token it was told, the next one,
   until the lease it was told, and the last ledger row says so.  A refusal gives its reason and changes nothing.
   */
  ghost predicate ClaimAnswers(b: Board, after: Board, c: Caller, id: string, now: int, reply: Reply) {
    var k := Key(c.team, id);
    match reply
    case ClaimOk(task, token, lease, ttl) =>
      && task == k && Ready(b, k) && Holder(after, c, id, token)
      && token == b.tasks[k].token + 1
      && after.tasks[k].lease == Some(lease) && lease == now + 1000 * ttl
      && after.claims == b.claims + [ClaimRow(k, c.agent, token, now, None)]
    case UnknownTask => k !in b.tasks && after == b
    case NotOpen(status, taker) =>
      && k in b.tasks && b.tasks[k].status == status && status != Open && b.tasks[k].assignee == taker && after == b
    case DepsUnmet(pending) =>
      && k in b.tasks && b.tasks[k].status == Open && pending != {} && after == b
      && (forall on :: on in pending <==> Dep(k, on) in b.deps && (on !in b.tasks || b.tasks[on].status != Done))
    case _ => false
  }

  /** None exactly when no task of the team is ready; otherwise the claim of a ready one that none beats. */
  ghost predicate NextAnswers(b: Board, after: Board, c: Caller, now: int, reply: Reply) {
    match reply
    case NothingEligible => after == b && forall k: Key | k.team == c.team :: !Ready(b, k)
    case ClaimOk(task, _, _, _) =>
      && task.team == c.team && ClaimAnswers(b, after, c, task.id, now, reply)
      && (forall j: Key | j.team == c.team && Ready(b, j) ::
            && b.tasks[j].priority <= b.tasks[task].priority
            && (b.tasks[j].priority == b.tasks[task].priority ==> b.tasks[task].createdAt <= b.tasks[j].createdAt))
    case _ => false
  }

  /** A call that is not the holder's is refused, with who the holder is. */
  ghost predicate Refused(b: Board, after: Board, c: Caller, id: string, token: int, reply: Reply) {
    var k := Key(c.team, id);
    && !Holder(b, c, id, token) && after == b
    && (k !in b.tasks ==> reply == UnknownTask)
    && (k in b.tasks ==> reply == Stale(b.tasks[k].token, b.tasks[k].assignee))
  }

  /** Completed, with the position of the completion in the log and the ready tasks that have a dependency on it. */
  ghost predicate CompleteAnswers(b: Board, after: Board, c: Caller, id: string, token: int, summary: Option<string>, reply: Reply) {
    var k := Key(c.team, id);
    if reply.CompleteOk? then
      && Holder(b, c, id, token) && reply.task == k && k in after.tasks && after.tasks[k].status == Done
      && reply.eventId == |b.log| + 1 == |after.log|
      && Last(after.log) == Event(c.team, Some(c.agent), TaskCompleted(id, summary))
      && (forall j :: j in reply.unblocked <==> j.team == c.team && Ready(after, j) && Dep(j, k) in after.deps)
    else Refused(b, after, c, id, token, reply)
  }

  /** The reported list is what the completion made ready; completing a done task again only repeats ready ones. */
  ghost predicate ReportsNewlyReady(b: Board, after: Board, c: Caller, id: string, reply: Reply) {
    var k := Key(c.team, id);
    reply.CompleteOk? && k in b.tasks ==>
      forall j: Key | j.team == c.team ::
        && (b.tasks[k].status != Done ==> (j in reply.unblocked <==> Ready(after, j) && !Ready(b, j)))
        && (b.tasks[k].status == Done ==> (j in reply.unblocked <==> Ready(b, j) && Dep(j, k) in b.deps))
  }

  lemma CreateAnswered(b: Board, c: Caller, id: string, on: seq<string>, priority: int, weight: int,
                       ttl: Option<int>, maxAttempts: int, now: int)
    ensures
      var e := CreateWork(b, c, id, on, priority, weight, ttl, maxAttempts, now);
      CreateAnswers(b, e.tables, c, id, e.reply) && (e.keep <==> e.reply.Created?)
  {
    CreateMeans(b, c, id, on, priority, weight, ttl, maxAttempts, now);
  }

  lemma ClaimAnswered(b: Board, c: Caller, id: string, dflt: int, now: int)
    ensures
      var e := ClaimWork(b, c, id, dflt, now);
      ClaimAnswers(b, e.tables, c, id, now, e.reply) && e.keep
  {
    CanClaimMeans(b, Key(c.team, id));
    ClaimMeans(b, c, id, dflt, now);
  }

  lemma NextAnswered(b: Board, c: Caller, answer: Option<Key>, dflt: int, now: int)
    requires Scheduling.QueueAnswer(b, c.team, answer)
    ensures
      var e := ClaimNextWork(b, c, answer, dflt, now);
      NextAnswers(b, e.tables, c, now, e.reply) && e.keep
  {
    if answer.None? {
      Scheduling.ClaimableMeans(b, c.team);
    } else {
      Scheduling.NextMeans(b, c.team, answer.value);
      assert Key(c.team, answer.value.id) == answer.value;
      ClaimAnswered(b, c, answer.value.id, dflt, now);
    }
  }

  lemma CompleteAnswered(b: Board, c: Caller, id: string, token: int, summary: Option<string>, now: int)
    ensures
      var e := CompleteWork(b, c, id, token, summary, now);
      CompleteAnswers(b, e.tables, c, id, token, summary, e.reply) && e.keep
  {
    var e, k := CompleteWork(b, c, id, token, summary, now), Key(c.team, id);
    CompleteMeans(b, c, id, token, summary, now);
    if e.reply.CompleteOk? {
      forall j ensures j in e.reply.unblocked <==> j.team == c.team && Ready(e.tables, j) && Dep(j, k) in e.tables.deps {
        CanClaimMeans(e.tables, j);
        if Dep(j, k) in e.tables.deps {
          assert Dep(j, k).task == j;
        }
      }
    }
  }

  /** The list in the reply is exactly what became ready by the completion. */
  lemma CompletionReports(b: Board, c: Caller, id: string, token: int, summary: Option<string>, now: int)
    ensures
      var e := CompleteWork(b, c, id, token, summary, now);
      ReportsNewlyReady(b, e.tables, c, id, e.reply)
  {
    var e, k := CompleteWork(b, c, id, token, summary, now), Key(c.team, id);
    CompleteAnswered(b, c, id, token, summary, now);
    CompleteMeans(b, c, id, token, summary, now);
    if e.reply.CompleteOk? {
      forall j: Key | j.team == c.team && Ready(e.tables, j) && !Ready(b, j) ensures Dep(j, k) in b.deps {
        var d :| d in b.deps && d.task == j && !(d.on in b.tasks && b.tasks[d.on].status == Done);
        assert d == Dep(j, k);
      }
    }
  }
}
