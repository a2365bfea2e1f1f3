/**
 Idempotency keys.  The check, the work and the store run in one transaction; the work of a
 tool is any function from the tables to new tables and a reply, so what is proved here
 holds whichever tools are called and whatever tables they share.
 */
module Idempotency {
  import opened Common

  datatype IdemKey = IdemKey(team: string, agent: string, key: string)

  datatype Saved<+R> = Saved(reply: R, at: int)

  datatype Store<T, R> = Store(tables: T, saved: map<IdemKey, Saved<R>>)

  /** What a tool body does: new tables, a reply, and whether the reply is stored under the key. */
  datatype Effect<T, R> = Effect(tables: T, reply: R, keep: bool)

  // `if idem_key`: an absent or empty key means the call is not keyed.
  function KeyOf(team: string, agent: string, key: Option<string>): Option<IdemKey> {
    if key.Some? && key.value != "" then Some(IdemKey(team, agent, key.value)) else None
  }

  // INSERT OR IGNORE: the first writer wins.
  function Remember<R>(saved: map<IdemKey, Saved<R>>, k: IdemKey, reply: R, at: int): map<IdemKey, Saved<R>> {
    if k in saved then saved else saved[k := Saved(reply, at)]
  }

  function PruneExpired<R>(saved: map<IdemKey, Saved<R>>, cutoff: int): map<IdemKey, Saved<R>> {
    map k | k in saved && saved[k].at >= cutoff :: saved[k]
  }

  /** One keyed or unkeyed tool call; `at` is the clock reading of the store. */
  function Call<T, R>(s: Store<T, R>, k: Option<IdemKey>, work: T -> Effect<T, R>, at: int): (Store<T, R>, R) {
    if k.Some? && k.value in s.saved then (s, s.saved[k.value].reply)
    else
      var d := work(s.tables);
      (Store(d.tables, if k.Some? && d.keep then Remember(s.saved, k.value, d.reply, at) else s.saved), d.reply)
  }

  /** Keys are told apart by team, agent and text; an absent or an empty key is none. */
  lemma KeysAreScoped(team: string, agent: string, key: Option<string>, team': string, agent': string, key': Option<string>)
    ensures KeyOf(team, agent, key) == None <==> key == None || key == Some("")
    ensures KeyOf(team, agent, key) != None && KeyOf(team, agent, key) == KeyOf(team', agent', key') ==>
      team == team' && agent == agent' && key == key'
  {
  }

  /** The first call under a key, and every unkeyed one, does its work once; it stores its reply only under its own key. */
  lemma CallMeans<T, R>(s: Store<T, R>, k: Option<IdemKey>, work: T -> Effect<T, R>, at: int)
    ensures
      var (after, reply) := Call(s, k, work, at);
      if k.Some? && k.value in s.saved then after == s && reply == s.saved[k.value].reply
      else
        && after.tables == work(s.tables).tables && reply == work(s.tables).reply
        && (forall j :: j in after.saved <==> j in s.saved || (k == Some(j) && work(s.tables).keep))
        && (forall j | j in s.saved :: after.saved[j] == s.saved[j])
        && (k.Some? && work(s.tables).keep ==> after.saved[k.value] == Saved(reply, at))
  {
  }

  /** Pruning deletes exactly the replies stored before its cutoff. */
  lemma PruneMeans<R>(saved: map<IdemKey, Saved<R>>, cutoff: int)
    ensures
      var after := PruneExpired(saved, cutoff);
      && (forall k :: k in after <==> k in saved && !(saved[k].at < cutoff))
      && (forall k | k in after :: after[k] == saved[k])
  {
  }

  datatype Op<!T, !R> =
    | Invoke(k: Option<IdemKey>, work: T -> Effect<T, R>, at: int)
    | Prune(cutoff: int)

  ghost function Apply<T, R>(s: Store<T, R>, op: Op<T, R>): Store<T, R> {
    match op
    case Invoke(k, work, at) => Call(s, k, work, at).0
    case Prune(cutoff) => s.(saved := PruneExpired(s.saved, cutoff))
  }

  ghost function Run<T, R>(s: Store<T, R>, ops: seq<Op<T, R>>): Store<T, R> {
    if ops == [] then s else Apply(Run(s, Init(ops)), Last(ops))
  }

  /** No pruning along the run reaches back to `at`. */
  ghost predicate NotPruned<T, R>(ops: seq<Op<T, R>>, at: int) {
    forall i | 0 <= i < |ops| && ops[i].Prune? :: ops[i].cutoff <= at
  }

  /** A stored reply is never overwritten, and goes only when a pruning passes it. */
  lemma {:induction false} SavedStays<T, R>(s: Store<T, R>, ops: seq<Op<T, R>>, k: IdemKey)
    requires k in s.saved && NotPruned(ops, s.saved[k].at)
    ensures k in Run(s, ops).saved && Run(s, ops).saved[k] == s.saved[k]
  {
    if ops != [] {
      SavedStays(s, Init(ops), k);
      assert Last(ops).Prune? ==> ops[|ops| - 1].cutoff <= s.saved[k].at;
    }
  }

  /**
   Idempotent retries: after any run of any tools, a call under a stored key returns the stored
   reply, whatever tool it is, and leaves every table as it is.
   */
  lemma RetryReturnsStored<T, R>(s: Store<T, R>, ops: seq<Op<T, R>>, k: IdemKey, work: T -> Effect<T, R>, at: int)
    requires k in s.saved && NotPruned(ops, s.saved[k].at)
    ensures Call(Run(s, ops), Some(k), work, at) == (Run(s, ops), s.saved[k].reply)
  {
    SavedStays(s, ops, k);
  }

  // ------------------------------------------------------- exactly once

  /** A tool body is honest if it changes no table when its reply is not stored: it raised, and the transaction rolled back. */
  ghost predicate Honest<T(!new), R>(work: T -> Effect<T, R>) {
    forall t :: !work(t).keep ==> work(t).tables == t
  }

  ghost predicate Under<T, R>(op: Op<T, R>, k: IdemKey) {
    op.Invoke? && op.k == Some(k)
  }

  /** Every body called under `k` is honest, and no pruning reaches back to a reply stored under `k`. */
  ghost predicate Guarded<T(!new), R>(s: Store<T, R>, ops: seq<Op<T, R>>, k: IdemKey) {
    && (forall i | 0 <= i < |ops| && Under(ops[i], k) :: Honest(ops[i].work))
    && (forall i, j | 0 <= i < |ops| && 0 <= j < |ops| && ops[i].Prune? && Under(ops[j], k) :: ops[i].cutoff <= ops[j].at)
    && (k in s.saved ==> NotPruned(ops, s.saved[k].at))
  }

  /** How many calls of a run under `k` changed the tables. */
  ghost function Changes<T(!new), R>(s: Store<T, R>, ops: seq<Op<T, R>>, k: IdemKey): nat {
    if ops == [] then 0
    else
      var before, op := Run(s, Init(ops)), Last(ops);
      Changes(s, Init(ops), k) + (if Under(op, k) && Apply(before, op).tables != before.tables then 1 else 0)
  }

  /** The run with the calls under `k` deleted, except the one that did its work and stored its reply. */
  ghost function Once<T(!new), R>(s: Store<T, R>, ops: seq<Op<T, R>>, k: IdemKey): seq<Op<T, R>> {
    if ops == [] then []
    else
      var before, op := Run(s, Init(ops)), Last(ops);
      if Under(op, k) && (k in before.saved || !op.work(before.tables).keep) then Once(s, Init(ops), k)
      else Once(s, Init(ops), k) + [op]
  }

  ghost function CallsUnder<T, R>(ops: seq<Op<T, R>>, k: IdemKey): nat {
    if ops == [] then 0 else CallsUnder(Init(ops), k) + (if Under(Last(ops), k) then 1 else 0)
  }

  // What a stored reply was stored at: at the start, or by a call of the run.
  ghost predicate Stamped<T, R>(s: Store<T, R>, ops: seq<Op<T, R>>, k: IdemKey) {
    var u := Run(s, ops);
    k in u.saved ==>
      || (k in s.saved && u.saved[k].at == s.saved[k].at)
      || (exists j :: 0 <= j < |ops| && Under(ops[j], k) && u.saved[k].at == ops[j].at)
  }

  lemma GuardedFront<T(!new), R>(s: Store<T, R>, ops: seq<Op<T, R>>, k: IdemKey)
    requires Guarded(s, ops, k) && ops != []
    ensures Guarded(s, Init(ops), k)
  {
    forall i | 0 <= i < |ops| - 1 ensures Init(ops)[i] == ops[i] {
    }
  }

  lemma {:induction false} SavedIsStamped<T(!new), R>(s: Store<T, R>, ops: seq<Op<T, R>>, k: IdemKey)
    ensures Stamped(s, ops, k)
  {
    if ops != [] {
      var front, op := Init(ops), Last(ops);
      SavedIsStamped(s, front, k);
      var before, u := Run(s, front), Run(s, ops);
      if k in u.saved {
        if k !in before.saved {
          assert Under(ops[|ops| - 1], k) && u.saved[k].at == ops[|ops| - 1].at;
        } else if !(k in s.saved && before.saved[k].at == s.saved[k].at) {
          var j :| 0 <= j < |front| && Under(front[j], k) && before.saved[k].at == front[j].at;
          assert front[j] == ops[j];
        }
      }
    }
  }

  // In a guarded run the key is never pruned once it is stored.
  lemma GuardedKeeps<T(!new), R>(s: Store<T, R>, ops: seq<Op<T, R>>, k: IdemKey)
    requires ops != [] && Guarded(s, ops, k) && k in Run(s, Init(ops)).saved
    ensures k in Run(s, ops).saved
  {
    var front, op := Init(ops), Last(ops);
    SavedIsStamped(s, front, k);
    assert op == ops[|ops| - 1];
    if op.Prune? && !(k in s.saved && Run(s, front).saved[k].at == s.saved[k].at) {
      var j :| 0 <= j < |front| && Under(front[j], k) && Run(s, front).saved[k].at == front[j].at;
      assert front[j] == ops[j];
    }
  }

  lemma RunAppend<T, R>(s: Store<T, R>, ops: seq<Op<T, R>>, op: Op<T, R>)
    ensures Run(s, ops + [op]) == Apply(Run(s, ops), op)
  {
    assert Init(ops + [op]) == ops;
  }

  // A call under a stored key, and one whose honest work keeps nothing, leave everything as it was.
  lemma DeletedCallDoesNothing<T(!new), R>(s: Store<T, R>, op: Op<T, R>, k: IdemKey)
    requires Under(op, k) && Honest(op.work) && (k in s.saved || !op.work(s.tables).keep)
    ensures Apply(s, op) == s
  {
  }

  lemma CallsAppend<T, R>(ops: seq<Op<T, R>>, op: Op<T, R>, k: IdemKey)
    ensures CallsUnder(ops + [op], k) == CallsUnder(ops, k) + (if Under(op, k) then 1 else 0)
  {
    assert Init(ops + [op]) == ops;
  }

  ghost predicate TookEffect<T, R>(s: Store<T, R>, u: Store<T, R>, k: IdemKey) {
    k in u.saved && k !in s.saved
  }

  /**
   Exactly once.  Whatever tools are called under a key, however often and between whatever other
   calls, the run ends in the very state it would have ended in had only one of those calls been made,
   or none if none was stored; and at most one of them changed any table.
   */
  lemma {:induction false} ExactlyOnce<T(!new), R>(s: Store<T, R>, ops: seq<Op<T, R>>, k: IdemKey)
    requires Guarded(s, ops, k)
    ensures Run(s, Once(s, ops, k)) == Run(s, ops)
    ensures CallsUnder(Once(s, ops, k), k) == if TookEffect(s, Run(s, ops), k) then 1 else 0
    ensures Changes(s, ops, k) <= CallsUnder(Once(s, ops, k), k)
    ensures k in s.saved ==> k in Run(s, ops).saved
  {
    if ops != [] {
      var front, op := Init(ops), Last(ops);
      var before := Run(s, front);
      GuardedFront(s, ops, k);
      ExactlyOnce(s, front, k);
      assert op == ops[|ops| - 1];
      if k in before.saved {
        GuardedKeeps(s, ops, k);
      }
      if Under(op, k) && (k in before.saved || !op.work(before.tables).keep) {
        DeletedCallDoesNothing(before, op, k);
      } else {
        RunAppend(s, Once(s, front, k), op);
        CallsAppend(Once(s, front, k), op, k);
      }
    }
  }

  /** Honesty is needed: a body that changed the tables without having its reply stored would run again on every retry. */
  lemma DishonestRepeats(k: IdemKey, at: int)
    ensures
      var work := (t: int) => Effect(t + 1, true, false);
      var s := Store(0, map[]);
      var ops := [Invoke(Some(k), work, at), Invoke(Some(k), work, at)];
      !Honest(work) && Run(s, ops).tables == 2 && Changes(s, ops, k) == 2
  {
    var work := (t: int) => Effect(t + 1, true, false);
    var s := Store(0, map[]);
    var one := [Invoke(Some(k), work, at)];
    var two := one + [Invoke(Some(k), work, at)];
    assert work(0).tables != 0;
    assert Init(one) == [] && Init(two) == one;
    assert Run(s, one).tables == 1 && Changes(s, one, k) == 1;
  }
}
