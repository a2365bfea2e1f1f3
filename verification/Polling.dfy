/**
 One pass of a workbench host over its inbox.  Each claim is awaited, and while it is, turns of
 the host end and their callbacks free lanes, so the dictionary the pass tests keeps changing under it.
 A pass is proved to be a run of the `Hosts` world, and what it starts is stated in terms of turns.
 */
module Polling {
  import opened Common
  import opened Hosts

  datatype Offer = Offer(id: string, session: Option<string>)

  /** What happens to the host's own turns while it awaits a claim. */
  datatype Own = Ended(turn: nat) | CalledBack(turn: nat)

  /** One awaited claim as the host sees it: its own turns meanwhile, and whether the claim was won. */
  datatype Wait = Wait(meanwhile: seq<Own>, won: bool)

  /** An offer of the inbox, and what its claim brings if it is made. */
  datatype Try = Try(offer: Offer, wait: Wait)

  /** A pass so far: the host, the offers started, and whether the pass was broken off at capacity. */
  datatype Pass = Pass(host: Host, started: seq<Offer>, full: bool)

  function OwnStep(x: Host, e: Own): Host {
    match e
    case Ended(turn) => Finished(x, turn)
    case CalledBack(turn) => Called(x, turn)
  }

  function OwnRun(x: Host, events: seq<Own>): Host {
    if events == [] then x else OwnStep(OwnRun(x, Init(events)), Last(events))
  }

  function Offered(p: Pass, a: Try): Pass {
    var lane := LaneOf(a.offer.session);
    if p.full || lane in p.host.running then p
    else if |p.host.running| >= p.host.cap then p.(full := true)
    else
      var x := OwnRun(p.host, a.wait.meanwhile);
      if a.wait.won then Pass(Begun(x, lane, a.offer.id), p.started + [a.offer], false) else Pass(x, p.started, false)
  }

  /** The rest of a pass. */
  function PassOver(p: Pass, tries: seq<Try>): Pass
    decreases |tries|
  {
    if tries == [] then p else PassOver(Offered(p, tries[0]), tries[1..])
  }

  // Once broken off, a pass does nothing more.
  lemma {:induction false} FullStays(p: Pass, tries: seq<Try>)
    requires p.full
    ensures PassOver(p, tries) == p
    decreases |tries|
  {
    if tries != [] {
      FullStays(p, tries[1..]);
    }
  }

  function Beginning(x: Host): Pass {
    Pass(x, [], false)
  }

  // ------------------------------------------------- what a pass may start

  // Awaiting a claim can only free lanes.
  lemma {:induction false} OwnRunFrees(x: Host, events: seq<Own>)
    requires LanesOk(x)
    ensures
      var y := OwnRun(x, events);
      && LanesOk(y) && y.cap == x.cap && y.asking == x.asking && y.nextTurn == x.nextTurn
      && |y.running| <= |x.running|
      && (forall lane | lane in y.running :: lane in x.running && y.running[lane] == x.running[lane])
      && (forall lane | lane in x.running && CalledBack(x.running[lane]) !in events :: lane in y.running)
  {
    if events != [] {
      var y, e := OwnRun(x, Init(events)), Last(events);
      SplitLast(events);
      OwnRunFrees(x, Init(events));
      match e {
        case Ended(turn) => FinishKeepsLanes(y, turn);
        case CalledBack(turn) =>
          CallbackKeepsLanes(y, turn);
          CallbackFreesOne(y, turn);
      }
    }
  }

  lemma CallbackFreesOne(x: Host, turn: nat)
    requires LanesOk(x)
    ensures
      var y := Called(x, turn);
      && |y.running| <= |x.running|
      && (forall lane | lane in y.running :: lane in x.running && y.running[lane] == x.running[lane])
      && (forall lane | lane in x.running && x.running[lane] != turn :: lane in y.running)
  {
    if turn in x.ended {
      var after := x.running - {x.ended[turn]};
      assert after.Keys == x.running.Keys - {x.ended[turn]};
      assert |after| == |after.Keys| && |x.running| == |x.running.Keys|;
    }
  }

  ghost predicate Ready(x: Host) {
    LanesOk(x) && x.asking.None?
  }

  lemma OfferKeeps(p: Pass, a: Try)
    requires Ready(p.host)
    ensures Ready(Offered(p, a).host) && Offered(p, a).host.cap == p.host.cap
  {
    var lane := LaneOf(a.offer.session);
    if !p.full && lane !in p.host.running && |p.host.running| < p.host.cap {
      OwnRunFrees(p.host, a.wait.meanwhile);
      var x := OwnRun(p.host, a.wait.meanwhile);
      if a.wait.won {
        BeginKeepsLanes(x, lane, a.offer.id);
        assert Begun(x, lane, a.offer.id).(asking := None) == Begun(x, lane, a.offer.id);
      }
    }
  }

  lemma {:induction false} PassKeeps(p: Pass, tries: seq<Try>)
    requires Ready(p.host)
    ensures Ready(PassOver(p, tries).host) && PassOver(p, tries).host.cap == p.host.cap
    decreases |tries|
  {
    if tries != [] {
      OfferKeeps(p, tries[0]);
      PassKeeps(Offered(p, tries[0]), tries[1..]);
    }
  }

  /** The offer is started by the pass that has reached it. */
  ghost predicate Starts(p: Pass, a: Try) {
    Offered(p, a).started == p.started + [a.offer]
  }

  /** The host has a turn of this lane that is live or whose callback has not run. */
  ghost predicate Occupied(x: Host, lane: string) {
    exists t :: LiveIn(x, lane, t) || OverIn(x, lane, t)
  }

  ghost predicate Saturated(x: Host) {
    |x.live| + |x.ended| >= x.cap
  }

  lemma StartsWhenFree(p: Pass, a: Try)
    ensures Starts(p, a) <==>
      !p.full && LaneOf(a.offer.session) !in p.host.running && |p.host.running| < p.host.cap && a.wait.won
  {
    assert |p.started + [a.offer]| != |p.started|;
  }

  /**
   The fate of an offer, in terms of turns.  With the host as it is when the offer is reached, it is
   started if and only if the pass was not broken off, no turn of its lane is unfinished, there is room,
   and its claim is won; the pass is broken off exactly by an offer of a free lane that finds no room.
   A host is ready at every point of every pass, by `PassKeeps`.
   */
  lemma OfferFate(p: Pass, a: Try)
    requires Ready(p.host)
    ensures
      var q, free := Offered(p, a), !Occupied(p.host, LaneOf(a.offer.session));
      && (Starts(p, a) <==> !p.full && free && !Saturated(p.host) && a.wait.won)
      && (q.full <==> p.full || (free && Saturated(p.host)))
      && (!Starts(p, a) ==> q.started == p.started)
  {
    LanesAreTurns(p.host);
    StartsWhenFree(p, a);
  }

  ghost predicate Holds(x: Host, lane: string, turn: nat) {
    lane in x.running && x.running[lane] == turn
  }

  lemma {:induction false} OwnRunHolds(x: Host, events: seq<Own>, lane: string, turn: nat)
    requires Holds(x, lane, turn) && CalledBack(turn) !in events
    ensures Holds(OwnRun(x, events), lane, turn)
  {
    if events != [] {
      SplitLast(events);
      OwnRunHolds(x, Init(events), lane, turn);
    }
  }

  lemma {:induction false} OwnRunStartsNone(x: Host, events: seq<Own>)
    ensures OwnRun(x, events).nextTurn == x.nextTurn
  {
    if events != [] {
      OwnRunStartsNone(x, Init(events));
    }
  }

  lemma StartHolds(p: Pass, a: Try)
    requires Starts(p, a)
    ensures Holds(Offered(p, a).host, LaneOf(a.offer.session), p.host.nextTurn)
  {
    StartsWhenFree(p, a);
    OwnRunStartsNone(p.host, a.wait.meanwhile);
  }

  lemma StillHolds(p: Pass, a: Try, lane: string, turn: nat)
    requires Holds(p.host, lane, turn) && CalledBack(turn) !in a.wait.meanwhile
    ensures Holds(Offered(p, a).host, lane, turn)
  {
    OwnRunHolds(p.host, a.wait.meanwhile, lane, turn);
  }

  lemma {:induction false} HoldsUntilCalledBack(p: Pass, tries: seq<Try>, lane: string, turn: nat)
    requires Holds(p.host, lane, turn)
    requires forall m | 0 <= m < |tries| :: CalledBack(turn) !in tries[m].wait.meanwhile
    ensures Holds(PassOver(p, tries).host, lane, turn)
    decreases |tries|
  {
    if tries != [] {
      StillHolds(p, tries[0], lane, turn);
      HoldsUntilCalledBack(Offered(p, tries[0]), tries[1..], lane, turn);
    }
  }

  /**
   Two offers `a` and `b` of one lane, with the offers `between` in between, are both started in a pass
   only if, while a claim between them was awaited, the turn of the first was called back.
   */
  lemma OneLaneTwiceOnlyIfFreed(p: Pass, a: Try, between: seq<Try>, b: Try)
    requires LaneOf(a.offer.session) == LaneOf(b.offer.session)
    ensures Starts(p, a) && Starts(PassOver(Offered(p, a), between), b) ==>
      exists m | 0 <= m < |between| :: CalledBack(p.host.nextTurn) in between[m].wait.meanwhile
  {
    StartsWhenFree(PassOver(Offered(p, a), between), b);
    if Starts(p, a) && forall m | 0 <= m < |between| :: CalledBack(p.host.nextTurn) !in between[m].wait.meanwhile {
      StartHolds(p, a);
      HoldsUntilCalledBack(Offered(p, a), between, LaneOf(a.offer.session), p.host.nextTurn);
    }
  }

  // A lane whose turn ends and is called back while a claim is awaited is as if the turn had never been.
  lemma BegunAndGone(x: Host, lane: string, id: string)
    requires x.running == map[] && x.live == map[] && x.ended == map[]
    ensures
      var events := [Ended(x.nextTurn), CalledBack(x.nextTurn)];
      OwnRun(Begun(x, lane, id), events) == x.(nextTurn := x.nextTurn + 1)
  {
    var events := [Ended(x.nextTurn), CalledBack(x.nextTurn)];
    var y := Begun(x, lane, id);
    assert Init(events) == [events[0]] && Init([events[0]]) == [];
    assert OwnRun(y, [events[0]]) == Finished(y, x.nextTurn);
    assert OwnRun(y, events) == Called(Finished(y, x.nextTurn), x.nextTurn);
  }

  /** And then it can happen: a turn that ends while the next claim is awaited frees its lane for a third offer of the same pass. */
  lemma OneLaneTwiceInAPass(x: Host, a: Offer, b: Offer, c: Offer)
    requires x.running == map[] && x.live == map[] && x.ended == map[] && x.cap >= 2
    requires LaneOf(a.session) == LaneOf(c.session) != LaneOf(b.session)
    ensures
      var over := [Ended(x.nextTurn), CalledBack(x.nextTurn)];
      PassOver(Beginning(x), [Try(a, Wait([], true)), Try(b, Wait(over, false)), Try(c, Wait([], true))]).started == [a, c]
  {
    var over := [Ended(x.nextTurn), CalledBack(x.nextTurn)];
    var t1, t2, t3 := Try(a, Wait([], true)), Try(b, Wait(over, false)), Try(c, Wait([], true));
    OneMoreLane(x.running, LaneOf(a.session), x.nextTurn);
    BegunAndGone(x, LaneOf(a.session), a.id);
    var p1, p2 := Pass(Begun(x, LaneOf(a.session), a.id), [a], false), Pass(x.(nextTurn := x.nextTurn + 1), [a], false);
    assert Offered(Beginning(x), t1) == p1;
    assert Offered(p1, t2) == p2;
    var p3 := Offered(p2, t3);
    assert p3.started == [a, c];
    assert [t1, t2, t3][1..] == [t2, t3] && [t2, t3][1..] == [t3] && [t3][1..] == [];
    assert PassOver(p2, [t3]) == PassOver(p3, []) == p3;
    assert PassOver(p1, [t2, t3]) == PassOver(p2, [t3]);
  }

  // ------------------------------------------------- a pass is a run of hosts

  /**
   An offer as the world sees it: what happens until its claim reaches the server, and until the answer is
   back or lost.  A claim that does not reach the server in that time is lost; if the server gets to it
   later, it is then a call like any other.
   */
  datatype During = During(offer: Offer, sent: seq<Step>, reached: bool, back: seq<Step>, lost: bool)

  // The host awaits its claim, so of its own steps only the ends and callbacks of turns can happen.
  ghost predicate Waiting(steps: seq<Step>, h: string) {
    forall i | 0 <= i < |steps| :: steps[i].Serve? || steps[i].h != h || steps[i].Finish? || steps[i].Callback?
  }

  function OwnOf(steps: seq<Step>, h: string): seq<Own> {
    if steps == [] then []
    else
      var s := Last(steps);
      OwnOf(Init(steps), h) +
      (if s.Finish? && s.h == h then [Ended(s.turn)] else if s.Callback? && s.h == h then [CalledBack(s.turn)] else [])
  }

  lemma {:induction false} HostWhileWaiting(w: World, h: string, steps: seq<Step>)
    requires h in w.hosts && Waiting(steps, h)
    ensures h in Run(w, steps).hosts && Run(w, steps).hosts[h] == OwnRun(w.hosts[h], OwnOf(steps, h))
    ensures w.started <= Run(w, steps).started
  {
    if steps != [] {
      var front, s := Init(steps), Last(steps);
      assert s == steps[|steps| - 1];
      HostWhileWaiting(w, h, front);
      var own := OwnOf(front, h);
      if s.Finish? && s.h == h {
        assert Init(own + [Ended(s.turn)]) == own;
      } else if s.Callback? && s.h == h {
        assert Init(own + [CalledBack(s.turn)]) == own;
      } else {
        assert OwnOf(steps, h) == own;
      }
    }
  }

  // Awaiting does not depend on what is asked.
  lemma {:induction false} AskingAside(x: Host, asking: Option<Ask>, events: seq<Own>)
    ensures OwnRun(x.(asking := asking), events) == OwnRun(x, events).(asking := asking)
  {
    if events != [] {
      AskingAside(x, asking, Init(events));
    }
  }

  lemma {:induction false} OwnRunConcat(x: Host, first: seq<Own>, second: seq<Own>)
    ensures OwnRun(x, first + second) == OwnRun(OwnRun(x, first), second)
  {
    if second == [] {
      assert first + second == first;
    } else {
      OwnRunConcat(x, first, Init(second));
      assert Init(first + second) == first + Init(second);
    }
  }

  function Arrival(h: string, d: During): seq<Step> {
    if d.reached then [Arrive(h)] else []
  }

  // The states of the world while one claim is made: asked, about to reach the server, and about to be answered.
  ghost function Sent(w: World, h: string, d: During): World {
    Run(Apply(w, Consider(h, d.offer.id, d.offer.session)), d.sent)
  }

  ghost function Back(w: World, h: string, d: During): World {
    Run(if d.reached then Apply(Sent(w, h, d), Arrive(h)) else Sent(w, h, d), d.back)
  }

  predicate Unanswered(d: During) {
    d.lost || !d.reached
  }

  // What the host sees of it.
  ghost function Seen(w: World, h: string, d: During): Wait {
    var u := Back(w, h, d);
    Wait(OwnOf(d.sent, h) + OwnOf(d.back, h), h in u.hosts && Granted(u.hosts[h], Unanswered(d)))
  }

  // Up to the answer, the host has only lived through its own turns and holds the server's verdict, if there is one.
  lemma AwaitedInWorld(w: World, h: string, d: During) returns (verdict: Option<bool>)
    requires h in w.hosts && w.hosts[h].asking.None? && Waiting(d.sent, h) && Waiting(d.back, h)
    requires LaneOf(d.offer.session) !in w.hosts[h].running && |w.hosts[h].running| < w.hosts[h].cap
    ensures
      var u := Back(w, h, d);
      && h in u.hosts && w.started <= u.started
      && u.hosts[h] == OwnRun(w.hosts[h], OwnOf(d.sent, h) + OwnOf(d.back, h))
                       .(asking := Some(Ask(LaneOf(d.offer.session), d.offer.id, verdict)))
    ensures verdict.Some? <==> d.reached
  {
    var x, ask := w.hosts[h], Ask(LaneOf(d.offer.session), d.offer.id, None);
    HostWhileWaiting(Apply(w, Consider(h, d.offer.id, d.offer.session)), h, d.sent);
    AskingAside(x, Some(ask), OwnOf(d.sent, h));
    var sent := Sent(w, h, d);
    verdict := if d.reached then Some(Bus.CanClaim(sent.bus, sent.hosts[h].me, d.offer.id)) else None;
    var asking := Some(ask.(verdict := verdict));
    var arrived := if d.reached then Apply(sent, Arrive(h)) else sent;
    assert arrived.hosts[h] == OwnRun(x, OwnOf(d.sent, h)).(asking := asking);
    HostWhileWaiting(arrived, h, d.back);
    AskingAside(OwnRun(x, OwnOf(d.sent, h)), asking, OwnOf(d.back, h));
    OwnRunConcat(x, OwnOf(d.sent, h), OwnOf(d.back, h));
  }

  lemma ClaimInWorld(w: World, h: string, d: During)
    requires h in w.hosts && w.hosts[h].asking.None? && Waiting(d.sent, h) && Waiting(d.back, h)
    requires LaneOf(d.offer.session) !in w.hosts[h].running && |w.hosts[h].running| < w.hosts[h].cap
    ensures
      var after, wait := Apply(Back(w, h, d), Answer(h, Unanswered(d))), Seen(w, h, d);
      && h in after.hosts
      && after.hosts[h] == Offered(Pass(w.hosts[h], [], false), Try(d.offer, wait)).host
      && (wait.won ==> Start(d.offer.id, h) in after.started)
      && w.started <= after.started
  {
    var verdict := AwaitedInWorld(w, h, d);
    OwnRunAsks(w.hosts[h], OwnOf(d.sent, h) + OwnOf(d.back, h));
  }

  lemma {:induction false} OwnRunAsks(x: Host, events: seq<Own>)
    ensures OwnRun(x, events).asking == x.asking && OwnRun(x, events).cap == x.cap
  {
    if events != [] {
      OwnRunAsks(x, Init(events));
    }
  }

  /** An offer as the world plays it, unless the pass was broken off; the second part says whether it is broken off after it. */
  ghost function Turned(w: World, h: string, full: bool, d: During): (World, bool) {
    if full || h !in w.hosts || LaneOf(d.offer.session) in w.hosts[h].running then (w, full)
    else if |w.hosts[h].running| >= w.hosts[h].cap then (w, true)
    else (Apply(Back(w, h, d), Answer(h, Unanswered(d))), false)
  }

  ghost function StepsOf(w: World, h: string, full: bool, d: During): seq<Step> {
    if full || h !in w.hosts || LaneOf(d.offer.session) in w.hosts[h].running || |w.hosts[h].running| >= w.hosts[h].cap then []
    else [Consider(h, d.offer.id, d.offer.session)] + d.sent + Arrival(h, d) + d.back + [Answer(h, Unanswered(d))]
  }

  /** The rest of a pass as the world plays it. */
  ghost function Played(w: World, h: string, full: bool, inbox: seq<During>): World
    decreases |inbox|
  {
    if inbox == [] then w
    else
      var (after, broken) := Turned(w, h, full, inbox[0]);
      Played(after, h, broken, inbox[1..])
  }

  ghost function StepsPlayed(w: World, h: string, full: bool, inbox: seq<During>): seq<Step>
    decreases |inbox|
  {
    if inbox == [] then []
    else
      var (after, broken) := Turned(w, h, full, inbox[0]);
      StepsOf(w, h, full, inbox[0]) + StepsPlayed(after, h, broken, inbox[1..])
  }

  /** The same as the host sees it. */
  ghost function TriesOf(w: World, h: string, full: bool, inbox: seq<During>): seq<Try>
    decreases |inbox|
  {
    if inbox == [] then []
    else
      var (after, broken) := Turned(w, h, full, inbox[0]);
      [Try(inbox[0].offer, Seen(w, h, inbox[0]))] + TriesOf(after, h, broken, inbox[1..])
  }

  lemma RunOne(w: World, steps: seq<Step>, s: Step)
    ensures Run(w, steps + [s]) == Apply(Run(w, steps), s)
  {
    assert Init(steps + [s]) == steps;
  }

  lemma {:induction false} RunOver(w: World, first: seq<Step>, second: seq<Step>)
    ensures Run(w, first + second) == Run(Run(w, first), second)
  {
    if second == [] {
      assert first + second == first;
    } else {
      SplitOver(first, second);
      RunOver(w, first, Init(second));
      RunOne(w, first + Init(second), Last(second));
    }
  }

  lemma ClaimSteps(w: World, h: string, d: During)
    ensures Run(w, [Consider(h, d.offer.id, d.offer.session)] + d.sent + Arrival(h, d) + d.back + [Answer(h, Unanswered(d))]) ==
            Apply(Back(w, h, d), Answer(h, Unanswered(d)))
  {
    var asked := [Consider(h, d.offer.id, d.offer.session)];
    assert [] + asked == asked;
    RunOne(w, [], asked[0]);
    RunOver(w, asked, d.sent);
    if d.reached {
      RunOne(w, asked + d.sent, Arrive(h));
    } else {
      assert asked + d.sent + [] == asked + d.sent;
    }
    RunOver(w, asked + d.sent + Arrival(h, d), d.back);
    RunOne(w, asked + d.sent + Arrival(h, d) + d.back, Answer(h, Unanswered(d)));
  }

  lemma TurnedIsRun(w: World, h: string, full: bool, d: During)
    ensures Run(w, StepsOf(w, h, full, d)) == Turned(w, h, full, d).0
  {
    ClaimSteps(w, h, d);
  }

  lemma {:induction false} PlayedIsRun(w: World, h: string, full: bool, inbox: seq<During>)
    ensures Run(w, StepsPlayed(w, h, full, inbox)) == Played(w, h, full, inbox)
    decreases |inbox|
  {
    if inbox != [] {
      var (after, broken) := Turned(w, h, full, inbox[0]);
      TurnedIsRun(w, h, full, inbox[0]);
      PlayedIsRun(after, h, broken, inbox[1..]);
      RunOver(w, StepsOf(w, h, full, inbox[0]), StepsPlayed(after, h, broken, inbox[1..]));
    }
  }

  // The world and the pass agree.
  ghost predicate InStep(w: World, h: string, p: Pass) {
    && h in w.hosts && w.hosts[h] == p.host && p.host.asking.None?
    && (forall o | o in p.started :: Start(o.id, h) in w.started)
  }

  lemma OfferInStep(w: World, h: string, p: Pass, d: During)
    requires InStep(w, h, p) && Waiting(d.sent, h) && Waiting(d.back, h)
    ensures
      var (after, broken) := Turned(w, h, p.full, d);
      var q := Offered(p, Try(d.offer, Seen(w, h, d)));
      InStep(after, h, q) && broken == q.full
  {
    if !p.full && LaneOf(d.offer.session) !in p.host.running && |p.host.running| < p.host.cap {
      ClaimInWorld(w, h, d);
      OwnRunAsks(p.host, Seen(w, h, d).meanwhile);
    }
  }

  lemma {:induction false} PlayedInStep(w: World, h: string, p: Pass, inbox: seq<During>)
    requires InStep(w, h, p)
    requires forall i | 0 <= i < |inbox| :: Waiting(inbox[i].sent, h) && Waiting(inbox[i].back, h)
    ensures InStep(Played(w, h, p.full, inbox), h, PassOver(p, TriesOf(w, h, p.full, inbox)))
    decreases |inbox|
  {
    if inbox != [] {
      var d := inbox[0];
      var (after, broken) := Turned(w, h, p.full, d);
      var try := Try(d.offer, Seen(w, h, d));
      OfferInStep(w, h, p, d);
      PlayedInStep(after, h, Offered(p, try), inbox[1..]);
      assert TriesOf(w, h, p.full, inbox)[1..] == TriesOf(after, h, broken, inbox[1..]);
    }
  }

  /**
   A pass is a run of the world, whatever other hosts and callers do, whichever turns end while its claims
   are awaited, and whether or not each claim reaches the server in time: the host ends up as the pass over
   what it saw leaves it, and every offer the pass started is among the world's starts, as this host's.
   So everything proved of runs holds inside a pass.
   */
  lemma PassIsRun(w: World, h: string, inbox: seq<During>)
    requires h in w.hosts && w.hosts[h].asking.None?
    requires forall i | 0 <= i < |inbox| :: Waiting(inbox[i].sent, h) && Waiting(inbox[i].back, h)
    ensures
      var after := Run(w, StepsPlayed(w, h, false, inbox));
      var p := PassOver(Beginning(w.hosts[h]), TriesOf(w, h, false, inbox));
      && h in after.hosts && after.hosts[h] == p.host
      && (forall o | o in p.started :: Start(o.id, h) in after.started)
  {
    PlayedIsRun(w, h, false, inbox);
    PlayedInStep(w, h, Beginning(w.hosts[h]), inbox);
  }

  // ------------------------------------------------------------ the poll loop

  class LaneHost {
    var running: map<string, nat>
    var live: map<nat, Turn>
    var ended: map<nat, string>
    var nextTurn: nat
    const me: Bus.Caller
    const cap: int

    constructor (me: Bus.Caller, cap: int)
      ensures Valid() && running == map[] && live == map[] && ended == map[]
      ensures this.me == me && this.cap == cap
    {
      running, live, ended, nextTurn := map[], map[], map[], 0;
      this.me, this.cap := me, cap;
    }

    ghost function View(): Host
      reads this
    {
      Host(me, cap, running, live, ended, nextTurn, None)
    }

    ghost predicate Valid()
      reads this
    {
      LanesOk(View())
    }

    method EndTurn(turn: nat)
      modifies this
      ensures View() == Finished(old(View()), turn)
    {
      if turn in live {
        ended := ended[turn := live[turn].lane];
        live := live - {turn};
      }
    }

    /** The done callback: it frees the lane only if the lane is still this turn's. */
    method CallBack(turn: nat)
      modifies this
      ensures View() == Called(old(View()), turn)
    {
      if turn in ended {
        var lane := ended[turn];
        if lane in running && running[lane] == turn {
          running := running - {lane};
        }
        ended := ended - {turn};
      }
    }

    // The event loop while a claim is awaited.
    method Await(meanwhile: seq<Own>)
      modifies this
      ensures View() == OwnRun(old(View()), meanwhile)
    {
      var i := 0;
      while i < |meanwhile|
        invariant 0 <= i <= |meanwhile|
        invariant View() == OwnRun(old(View()), meanwhile[..i])
      {
        assert Init(meanwhile[..i + 1]) == meanwhile[..i];
        match meanwhile[i] {
          case Ended(turn) => EndTurn(turn);
          case CalledBack(turn) => CallBack(turn);
        }
        i := i + 1;
      }
      assert meanwhile[..i] == meanwhile;
    }

    /** One pass over an inbox, each offer with what its claim brings if it is made. */
    method PollOnce(tries: seq<Try>) returns (started: seq<Offer>)
      requires Valid()
      modifies this
      ensures Valid() && |running| == |live| + |ended| <= Max(0, cap)
      ensures View() == PassOver(Beginning(old(View())), tries).host
      ensures started == PassOver(Beginning(old(View())), tries).started
    {
      started := [];
      var i := 0;
      while i < |tries|
        invariant 0 <= i <= |tries|
        invariant PassOver(Pass(View(), started, false), tries[i..]) == PassOver(Beginning(old(View())), tries)
      {
        ghost var p := Pass(View(), started, false);
        assert tries[i..][0] == tries[i] && tries[i..][1..] == tries[i + 1..];
        var o, wait := tries[i].offer, tries[i].wait;
        var lane := LaneOf(o.session);
        i := i + 1;
        if lane in running {
          continue;
        }
        if |running| >= cap {
          FullStays(p.(full := true), tries[i..]);
          break;
        }
        Await(wait.meanwhile);
        if !wait.won {
          continue;
        }
        running := running[lane := nextTurn];
        live := live[nextTurn := Turn(lane, o.id)];
        nextTurn := nextTurn + 1;
        started := started + [o];
      }
      PassKeeps(Beginning(old(View())), tries);
      LanesAreTurns(View());
    }
  }
}
