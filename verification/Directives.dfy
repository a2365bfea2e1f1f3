/**
 The directive bus: commands sent to one agent, claimed by it, and reported or cancelled.
 Every call is one transaction on the directives table and the event log.
 */
module Directives {
  import opened Common

  datatype Caller = Caller(team: string, agent: string)

  datatype Status = Pending | Running | Done | Failed | Canceled

  datatype Directive = Directive(
    team: string, sender: string, receiver: string, session: Option<string>,
    priority: int, createdAt: int, status: Status, result: Option<string>)

  datatype Kind = Sent | Claimed | Ended(status: Status)

  datatype Event = About(id: string, kind: Kind, actor: string) | Elsewhere

  datatype Bus = Bus(table: map<string, Directive>, log: seq<Event>)

  datatype Thread = Thread(team: string, session: string, agent: string)

  datatype Reply =
    | Aborted
    | UnknownAgent
    | UnknownDirective
    | NotYours
    | NotPending(status: Status)
    | AlreadyFinal(status: Status)
    | BadStatus
    | Ok(id: string)

  const EMPTY := Bus(map[], [])

  predicate Terminal(s: Status) {
    s == Done || s == Failed || s == Canceled
  }

  // The row a query by team and id finds.
  predicate Found(b: Bus, c: Caller, id: string) {
    id in b.table && b.table[id].team == c.team
  }

  /** `target` is the agent the reference resolved to; a session that is not the target's own is dropped. */
  function Send(b: Bus, c: Caller, id: string, target: Option<string>, session: Option<string>, threads: set<Thread>,
                priority: int, now: int): Bus
  {
    if target.None? || id in b.table then b
    else
      var kept := if session.Some? && Thread(c.team, session.value, target.value) in threads then session else None;
      Bus(b.table[id := Directive(c.team, c.agent, target.value, kept, priority, now, Pending, None)], b.log + [About(id, Sent, c.agent)])
  }

  predicate CanClaim(b: Bus, c: Caller, id: string) {
    Found(b, c, id) && b.table[id].receiver == c.agent && b.table[id].status == Pending
  }

  function Claim(b: Bus, c: Caller, id: string): Bus {
    if !CanClaim(b, c, id) then b
    else Bus(b.table[id := b.table[id].(status := Running)], b.log + [About(id, Claimed, c.agent)])
  }

  predicate CanReport(b: Bus, c: Caller, id: string, status: Status) {
    (status == Done || status == Failed) && Found(b, c, id) && b.table[id].receiver == c.agent && !Terminal(b.table[id].status)
  }

  function Report(b: Bus, c: Caller, id: string, status: Status, result: Option<string>): Bus {
    if !CanReport(b, c, id, status) then b
    else Bus(b.table[id := b.table[id].(status := status, result := result)], b.log + [About(id, Ended(status), c.agent)])
  }

  predicate CanCancel(b: Bus, c: Caller, id: string) {
    Found(b, c, id) && b.table[id].sender == c.agent && !Terminal(b.table[id].status)
  }

  function Cancel(b: Bus, c: Caller, id: string): Bus {
    if !CanCancel(b, c, id) then b
    else Bus(b.table[id := b.table[id].(status := Canceled)], b.log + [About(id, Ended(Canceled), c.agent)])
  }

  // ------------------------------------------------ what the calls mean

  /** The row of `id` becomes `d`, one event says so, and no other row changes. */
  ghost predicate Becomes(b: Bus, after: Bus, id: string, d: Directive, e: Event) {
    && id in after.table && after.table[id] == d && after.log == b.log + [e]
    && (forall x | x != id :: x in after.table <==> x in b.table)
    && (forall x | x in b.table && x != id :: after.table[x] == b.table[x])
  }

  /** A directive is sent from the caller to the target it names, pending, with its session only if that is the target's own. */
  lemma SendMeans(b: Bus, c: Caller, id: string, target: Option<string>, session: Option<string>, threads: set<Thread>,
                  priority: int, now: int)
    ensures
      var after := Send(b, c, id, target, session, threads, priority, now);
      if target == None || id in b.table then after == b
      else
        && id in after.table
        && Becomes(b, after, id,
                   Directive(c.team, c.agent, target.value, after.table[id].session, priority, now, Pending, None),
                   About(id, Sent, c.agent))
        && (session == None ==> after.table[id].session == None)
        && (session.Some? && Thread(c.team, session.value, target.value) in threads ==> after.table[id].session == session)
        && (session.Some? && Thread(c.team, session.value, target.value) !in threads ==> after.table[id].session == None)
  {
  }

  /** A claim takes a pending directive of the caller's team that is addressed to the caller, and nothing else. */
  lemma ClaimMeans(b: Bus, c: Caller, id: string)
    ensures
      var after := Claim(b, c, id);
      if id in b.table && b.table[id].team == c.team && b.table[id].receiver == c.agent && b.table[id].status == Pending
      then Becomes(b, after, id, b.table[id].(status := Running), About(id, Claimed, c.agent))
      else after == b
  {
  }

  /** A report of done or failed by the receiver ends a directive that is pending or running. */
  lemma ReportMeans(b: Bus, c: Caller, id: string, status: Status, result: Option<string>)
    ensures
      var after := Report(b, c, id, status, result);
      if (status == Done || status == Failed) && id in b.table && b.table[id].team == c.team
         && b.table[id].receiver == c.agent && (b.table[id].status == Pending || b.table[id].status == Running)
      then Becomes(b, after, id, b.table[id].(status := status, result := result), About(id, Ended(status), c.agent))
      else after == b
  {
  }

  /** A cancellation by the sender ends a directive that is pending or running. */
  lemma CancelMeans(b: Bus, c: Caller, id: string)
    ensures
      var after := Cancel(b, c, id);
      if id in b.table && b.table[id].team == c.team && b.table[id].sender == c.agent
         && (b.table[id].status == Pending || b.table[id].status == Running)
      then Becomes(b, after, id, b.table[id].(status := Canceled), About(id, Ended(Canceled), c.agent))
      else after == b
  {
  }

  datatype Step =
    | DoSend(c: Caller, id: string, target: Option<string>, session: Option<string>, threads: set<Thread>, priority: int, now: int)
    | DoClaim(c: Caller, id: string)
    | DoReport(c: Caller, id: string, status: Status, result: Option<string>)
    | DoCancel(c: Caller, id: string)
    | DoOther

  ghost function Apply(b: Bus, s: Step): Bus {
    match s
    case DoSend(c, id, target, session, threads, priority, now) => Send(b, c, id, target, session, threads, priority, now)
    case DoClaim(c, id) => Claim(b, c, id)
    case DoReport(c, id, status, result) => Report(b, c, id, status, result)
    case DoCancel(c, id) => Cancel(b, c, id)
    case DoOther => b.(log := b.log + [Elsewhere])
  }

  ghost function Run(b: Bus, steps: seq<Step>): Bus {
    if steps == [] then b else Apply(Run(b, Init(steps)), Last(steps))
  }

  /** The events about one directive, in order. */
  ghost function History(log: seq<Event>, id: string): seq<Kind> {
    if log == [] then []
    else History(Init(log), id) + (if Last(log).About? && Last(log).id == id then [Last(log).kind] else [])
  }

  lemma HistoryAppend(log: seq<Event>, e: Event, id: string)
    ensures History(log + [e], id) == History(log, id) + (if e.About? && e.id == id then [e.kind] else [])
  {
    assert Init(log + [e]) == log;
  }

  ghost function RowOf(b: Bus, id: string): Option<Directive> {
    if id in b.table then Some(b.table[id]) else None
  }

  /** The kind of event a step logs about `id`, if any. */
  ghost function Told(b: Bus, s: Step, id: string): seq<Kind> {
    match s
    case DoSend(_, x, target, _, _, _, _) => if x == id && target.Some? && id !in b.table then [Sent] else []
    case DoClaim(c, x) => if x == id && CanClaim(b, c, id) then [Claimed] else []
    case DoReport(c, x, status, _) => if x == id && CanReport(b, c, id, status) then [Ended(status)] else []
    case DoCancel(c, x) => if x == id && CanCancel(b, c, id) then [Ended(Canceled)] else []
    case DoOther => []
  }

  lemma StepHistory(b: Bus, s: Step, id: string)
    ensures History(Apply(b, s).log, id) == History(b.log, id) + Told(b, s, id)
  {
    match s
    case DoSend(c, x, _, _, _, _, _) => HistoryAppend(b.log, About(x, Sent, c.agent), id);
    case DoClaim(c, x) => HistoryAppend(b.log, About(x, Claimed, c.agent), id);
    case DoReport(c, x, status, _) => HistoryAppend(b.log, About(x, Ended(status), c.agent), id);
    case DoCancel(c, x) => HistoryAppend(b.log, About(x, Ended(Canceled), c.agent), id);
    case DoOther => HistoryAppend(b.log, Elsewhere, id);
  }

  // What a step leaves of a row follows from what it tells about it.
  lemma StepRow(b: Bus, s: Step, id: string)
    ensures
      var row, told := RowOf(b, id), Told(b, s, id);
      if told == [] then RowOf(Apply(b, s), id) == row
      else if told == [Sent] then row.None? && id in Apply(b, s).table && Apply(b, s).table[id].status == Pending
      else if told == [Claimed] then
        row.Some? && row.value.status == Pending && RowOf(Apply(b, s), id) == Some(row.value.(status := Running))
      else
        && row.Some? && !Terminal(row.value.status) && id in Apply(b, s).table
        && told == [Ended(Apply(b, s).table[id].status)] && Terminal(Apply(b, s).table[id].status)
  {
  }

  /** The only lives a directive can have, with the status each one ends in. */
  ghost predicate Life(h: seq<Kind>, row: Option<Directive>) {
    if row.None? then h == []
    else
      match row.value.status
      case Pending => h == [Sent]
      case Running => h == [Sent, Claimed]
      case s => h == [Sent, Ended(s)] || h == [Sent, Claimed, Ended(s)]
  }

  lemma StepKeepsLife(b: Bus, s: Step, id: string)
    requires Life(History(b.log, id), RowOf(b, id))
    ensures Life(History(Apply(b, s).log, id), RowOf(Apply(b, s), id))
  {
    StepHistory(b, s, id);
    StepRow(b, s, id);
  }

  /**
   In every reachable state the events about a directive are one of the five lives, and its row has
   the status they lead to: so it is claimed at most once, ends at most once, and only after it was sent.
   */
  lemma {:induction false} EveryLife(steps: seq<Step>, id: string)
    ensures Life(History(Run(EMPTY, steps).log, id), RowOf(Run(EMPTY, steps), id))
  {
    if steps != [] {
      EveryLife(Init(steps), id);
      StepKeepsLife(Run(EMPTY, Init(steps)), Last(steps), id);
    }
  }

  /** How many claim calls of a run were answered ok for `id`. */
  ghost function Wins(b: Bus, steps: seq<Step>, id: string): nat {
    if steps == [] then 0
    else
      Wins(b, Init(steps), id) +
      (if Last(steps).DoClaim? && Last(steps).id == id && CanClaim(Run(b, Init(steps)), Last(steps).c, id) then 1 else 0)
  }

  /** At most one claim of a directive ever wins, and then it is no longer pending, from any starting state. */
  lemma {:induction false} OneWinner(b: Bus, steps: seq<Step>, id: string)
    ensures Wins(b, steps, id) <= 1
    ensures id in b.table ==> id in Run(b, steps).table
    ensures Wins(b, steps, id) == 1 || (id in b.table && b.table[id].status != Pending) ==>
      id in Run(b, steps).table && Run(b, steps).table[id].status != Pending
    ensures id in b.table && b.table[id].status != Pending ==> Wins(b, steps, id) == 0
  {
    if steps != [] {
      OneWinner(b, Init(steps), id);
    }
  }

  /** Done, failed and canceled are final: the row never changes again and no event about it follows. */
  lemma {:induction false} FinalForever(b: Bus, steps: seq<Step>, id: string)
    requires id in b.table && Terminal(b.table[id].status)
    ensures id in Run(b, steps).table && Run(b, steps).table[id] == b.table[id]
    ensures History(Run(b, steps).log, id) == History(b.log, id)
  {
    if steps != [] {
      FinalForever(b, Init(steps), id);
      StepHistory(Run(b, Init(steps)), Last(steps), id);
      StepRow(Run(b, Init(steps)), Last(steps), id);
    }
  }

  // ---------------------------------------------------------------- the store

  class DirectiveStore {
    var table: map<string, Directive>
    var log: seq<Event>

    constructor ()
      ensures View() == EMPTY
    {
      table, log := map[], [];
    }

    ghost function View(): Bus
      reads this
    {
      Bus(table, log)
    }

    method SendDirective(c: Caller, id: string, target: Option<string>, session: Option<string>, threads: set<Thread>,
                         priority: int, now: int)
      returns (reply: Reply)
      modifies this
      ensures View() == Send(old(View()), c, id, target, session, threads, priority, now)
      ensures reply == if target.None? then UnknownAgent else if id in old(table) then Aborted else Ok(id)
    {
      if target.None? {
        return UnknownAgent;
      }
      if id in table {
        return Aborted;
      }
      var kept := session;
      if session.Some? && Thread(c.team, session.value, target.value) !in threads {
        kept := None;
      }
      table := table[id := Directive(c.team, c.agent, target.value, kept, priority, now, Pending, None)];
      log := log + [About(id, Sent, c.agent)];
      reply := Ok(id);
    }

    method ClaimDirective(c: Caller, id: string) returns (reply: Reply)
      modifies this
      ensures View() == Claim(old(View()), c, id)
      ensures reply.Ok? <==> CanClaim(old(View()), c, id)
      ensures reply.Ok? || reply == (
        if !Found(old(View()), c, id) then UnknownDirective
        else if old(table)[id].receiver != c.agent then NotYours
        else NotPending(old(table)[id].status))
    {
      if id !in table || table[id].team != c.team {
        return UnknownDirective;
      }
      var d := table[id];
      if d.receiver != c.agent {
        return NotYours;
      }
      if d.status != Pending {
        return NotPending(d.status);
      }
      table := table[id := d.(status := Running)];
      log := log + [About(id, Claimed, c.agent)];
      reply := Ok(id);
    }

    method ReportDirective(c: Caller, id: string, status: Status, result: Option<string>) returns (reply: Reply)
      modifies this
      ensures View() == Report(old(View()), c, id, status, result)
      ensures reply.Ok? <==> CanReport(old(View()), c, id, status)
      ensures reply.Ok? || reply == (
        if status != Done && status != Failed then BadStatus
        else if !Found(old(View()), c, id) then UnknownDirective
        else if old(table)[id].receiver != c.agent then NotYours
        else AlreadyFinal(old(table)[id].status))
    {
      if status != Done && status != Failed {
        return BadStatus;
      }
      if id !in table || table[id].team != c.team {
        return UnknownDirective;
      }
      var d := table[id];
      if d.receiver != c.agent {
        return NotYours;
      }
      if Terminal(d.status) {
        return AlreadyFinal(d.status);
      }
      table := table[id := d.(status := status, result := result)];
      log := log + [About(id, Ended(status), c.agent)];
      reply := Ok(id);
    }

    method CancelDirective(c: Caller, id: string) returns (reply: Reply)
      modifies this
      ensures View() == Cancel(old(View()), c, id)
      ensures reply.Ok? <==> CanCancel(old(View()), c, id)
      ensures reply.Ok? || reply == (
        if !Found(old(View()), c, id) then UnknownDirective
        else if old(table)[id].sender != c.agent then NotYours
        else AlreadyFinal(old(table)[id].status))
    {
      if id !in table || table[id].team != c.team {
        return UnknownDirective;
      }
      var d := table[id];
      if d.sender != c.agent {
        return NotYours;
      }
      if Terminal(d.status) {
        return AlreadyFinal(d.status);
      }
      table := table[id := d.(status := Canceled)];
      log := log + [About(id, Ended(Canceled), c.agent)];
      reply := Ok(id);
    }
  }
}
