/**
 Workbench hosts and pollers against one directive bus.  A host polls its inbox and runs each
 directive as a turn in the lane of its session; it checks the lane and its capacity, asks the
 server for the claim, and starts the turn only if the claim was won.  The claim's answer may be
 lost, turns end and free their lanes at any moment, and other callers use the bus meanwhile.

 A poller is a host that handles one directive at a time: its directives all fall in one lane.
*/
module Hosts {
  import opened Common
  import Bus = Directives

  // The lane of directives without a session.
  const DEFAULT_LANE := "__default__"

  /** A claim the host is waiting for; `verdict` is what the server decided, once it has. */
  datatype Ask = Ask(lane: string, id: string, verdict: Option<bool>)

  datatype Turn = Turn(lane: string, id: string)

  /**
   `running` maps a lane to its turn, as the host's dictionary does; `live` holds the turns still
   executing and `ended` those that finished but whose callback has not run yet.
   */
  datatype Host = Host(
    me: Bus.Caller, cap: int, running: map<string, nat>, live: map<nat, Turn>, ended: map<nat, string>,
    nextTurn: nat, asking: Option<Ask>)

  /** A directive turned into a turn, and the host that did it. */
  datatype Start = Start(id: string, host: string)

  /** `won` records which host won each claim, and `started` the turns started, in order. */
  datatype World = World(bus: Bus.Bus, hosts: map<string, Host>, won: map<string, string>, started: seq<Start>)

  datatype Step =
    | Serve(call: Bus.Step)
    | Consider(h: string, id: string, session: Option<string>)
    | Arrive(h: string)
    | Answer(h: string, lost: bool)
    | Finish(h: string, turn: nat)
    | Callback(h: string, turn: nat)

  function LaneOf(session: Option<string>): string {
    if session.Some? && session.value != "" then session.value else DEFAULT_LANE
  }

  /**
   Sessions have lanes of their own, and directives without a session share one.  A session named like that
   one would share it too.
   */
  lemma LanesAreSessions(s: string, t: string)
    ensures LaneOf(None) == LaneOf(Some("")) == "__default__"
    ensures s != "" && t != "" ==> (LaneOf(Some(s)) == LaneOf(Some(t)) <==> s == t)
    ensures s != "" ==> (LaneOf(Some(s)) == LaneOf(None) <==> s == "__default__")
  {
  }

  // The two tests of the polling loop, before it asks for the claim.
  function Considered(x: Host, id: string, session: Option<string>): Host {
    var lane := LaneOf(session);
    if x.asking.Some? || lane in x.running || |x.running| >= x.cap then x
    else x.(asking := Some(Ask(lane, id, None)))
  }

  predicate Granted(x: Host, lost: bool) {
    x.asking.Some? && x.asking.value.verdict == Some(true) && !lost
  }

  // A new turn in a lane.
  function Begun(x: Host, lane: string, id: string): Host {
    x.(running := x.running[lane := x.nextTurn], live := x.live[x.nextTurn := Turn(lane, id)], nextTurn := x.nextTurn + 1)
  }

  // The claim call returns.  It may give up before the server got to it; the claim is then a call like any other.
  function Answered(x: Host, lost: bool): Host {
    if x.asking.None? || (x.asking.value.verdict.None? && !lost) then x
    else if !Granted(x, lost) then x.(asking := None)
    else Begun(x, x.asking.value.lane, x.asking.value.id).(asking := None)
  }

  function Finished(x: Host, turn: nat): Host {
    if turn !in x.live then x
    else x.(live := x.live - {turn}, ended := x.ended[turn := x.live[turn].lane])
  }

  // The done callback: free the lane if it is still this turn's.
  function Called(x: Host, turn: nat): Host {
    if turn !in x.ended then x
    else
      var lane := x.ended[turn];
      x.(running := if lane in x.running && x.running[lane] == turn then x.running - {lane} else x.running,
      ended := x.ended - {turn})
  }

  /** A turn that ends stays in its lane until it is called back; then it is gone, and its lane is free if it was still its own. */
  lemma TurnsEnd(x: Host, turn: nat)
    ensures
      var y := Finished(x, turn);
      && (forall t :: t in y.live <==> t in x.live && t != turn)
      && (forall t :: t in y.ended <==> t in x.ended || (t == turn && turn in x.live))
      && (turn in x.live ==> y.ended[turn] == x.live[turn].lane)
      && y.running == x.running && y.nextTurn == x.nextTurn && y.asking == x.asking
    ensures
      var y := Called(x, turn);
      && (forall t :: t in y.ended <==> t in x.ended && t != turn)
      && (forall lane :: lane in y.running <==>
            lane in x.running && !(turn in x.ended && x.ended[turn] == lane && x.running[lane] == turn))
      && (forall lane | lane in y.running :: y.running[lane] == x.running[lane])
      && y.live == x.live && y.nextTurn == x.nextTurn && y.asking == x.asking
  {
  }

  ghost function Apply(w: World, s: Step): World {
    if s.Serve? then w.(bus := Bus.Apply(w.bus, s.call))
    else if s.h !in w.hosts then w
    else
      var x := w.hosts[s.h];
      match s
      case Consider(h, id, session) => w.(hosts := w.hosts[h := Considered(x, id, session)])
      case Arrive(h) =>
        if x.asking.None? || x.asking.value.verdict.Some? then w
        else
          var id := x.asking.value.id;
          var win := Bus.CanClaim(w.bus, x.me, id);
          World(Bus.Claim(w.bus, x.me, id),
                w.hosts[h := x.(asking := Some(x.asking.value.(verdict := Some(win))))],
                if win then w.won[id := h] else w.won,
                w.started)
      case Answer(h, lost) =>
        w.(hosts := w.hosts[h := Answered(x, lost)],
        started := if Granted(x, lost) then w.started + [Start(x.asking.value.id, h)] else w.started)
      case Finish(h, turn) => w.(hosts := w.hosts[h := Finished(x, turn)])
      case Callback(h, turn) => w.(hosts := w.hosts[h := Called(x, turn)])
  }

  ghost function Run(w: World, steps: seq<Step>): World {
    if steps == [] then w else Apply(Run(w, Init(steps)), Last(steps))
  }

  ghost predicate Fresh(w: World) {
    && w.won == map[] && w.started == []
    && (forall h | h in w.hosts ::
          var x := w.hosts[h];
          x.running == map[] && x.live == map[] && x.ended == map[] && x.asking.None?)
  }

  // ------------------------------------------------------------------- lanes

  predicate LiveIn(x: Host, lane: string, t: nat) {
    t in x.live && x.live[t].lane == lane
  }

  predicate OverIn(x: Host, lane: string, t: nat) {
    t in x.ended && x.ended[t] == lane
  }

  // The turn the dictionary names for a lane is live, or ended and not yet called back.
  ghost predicate Busy(running: map<string, nat>, live: map<nat, Turn>, ended: map<nat, string>, lane: string)
    requires lane in running
  {
    var t := running[lane];
    (t in live && live[t].lane == lane) || (t in ended && ended[t] == lane)
  }

  ghost predicate Named(running: map<string, nat>, live: map<nat, Turn>, ended: map<nat, string>) {
    forall lane {:trigger Busy(running, live, ended, lane)} | lane in running :: Busy(running, live, ended, lane)
  }

  ghost predicate LanesOk(x: Host) {
    && (forall t | t in x.live :: t < x.nextTurn && t !in x.ended && x.live[t].lane in x.running && x.running[x.live[t].lane] == t)
    && (forall t | t in x.ended :: t < x.nextTurn && x.ended[t] in x.running && x.running[x.ended[t]] == t)
    && Named(x.running, x.live, x.ended)
    && |x.running| <= Max(0, x.cap)
    && (x.asking.Some? ==> x.asking.value.lane !in x.running && |x.running| < x.cap)
  }

  lemma OneMoreLane(running: map<string, nat>, lane: string, turn: nat)
    requires lane !in running
    ensures |running[lane := turn]| == |running| + 1
  {
    var after := running[lane := turn];
    assert after.Keys == running.Keys + {lane};
    assert |after| == |after.Keys| && |running| == |running.Keys|;
  }

  lemma BeginKeepsLanes(x: Host, lane: string, id: string)
    requires LanesOk(x) && lane !in x.running && |x.running| < x.cap
    ensures LanesOk(Begun(x, lane, id).(asking := None))
  {
    var y := Begun(x, lane, id);
    OneMoreLane(x.running, lane, x.nextTurn);
    forall t | t in y.live
      ensures t < y.nextTurn && t !in y.ended && y.live[t].lane in y.running && y.running[y.live[t].lane] == t
    {
      assert t == x.nextTurn || t in x.live;
    }
    forall l | l in y.running ensures Busy(y.running, y.live, y.ended, l) {
      assert l == lane || Busy(x.running, x.live, x.ended, l);
    }
  }

  lemma AnswerKeepsLanes(x: Host, lost: bool)
    requires LanesOk(x)
    ensures LanesOk(Answered(x, lost))
  {
    if Granted(x, lost) {
      BeginKeepsLanes(x, x.asking.value.lane, x.asking.value.id);
    }
  }

  lemma FinishKeepsLanes(x: Host, turn: nat)
    requires LanesOk(x)
    ensures LanesOk(Finished(x, turn))
  {
    forall lane | lane in x.running ensures Busy(x.running, Finished(x, turn).live, Finished(x, turn).ended, lane) {
      assert Busy(x.running, x.live, x.ended, lane);
    }
  }

  lemma CallbackKeepsLanes(x: Host, turn: nat)
    requires LanesOk(x)
    ensures LanesOk(Called(x, turn))
  {
    if turn in x.ended {
      var after := x.running - {x.ended[turn]};
      assert after.Keys == x.running.Keys - {x.ended[turn]};
      assert |after| == |after.Keys| && |x.running| == |x.running.Keys|;
      forall lane | lane in after ensures Busy(Called(x, turn).running, x.live, Called(x, turn).ended, lane) {
        assert Busy(x.running, x.live, x.ended, lane);
      }
    }
  }

  lemma StepKeepsLanes(w: World, s: Step, h: string)
    requires h in w.hosts && LanesOk(w.hosts[h])
    ensures h in Apply(w, s).hosts && LanesOk(Apply(w, s).hosts[h]) && Apply(w, s).hosts[h].cap == w.hosts[h].cap
  {
    match s
    case Answer(g, lost) => AnswerKeepsLanes(w.hosts[h], lost);
    case Finish(g, turn) => FinishKeepsLanes(w.hosts[h], turn);
    case Callback(g, turn) => CallbackKeepsLanes(w.hosts[h], turn);
    case _ =>
  }

  // Two maps that undo each other have the same size.
  lemma {:induction false} AsManyLanesAsTurns(running: map<string, nat>, laneOf: map<nat, string>)
    requires forall t | t in laneOf :: laneOf[t] in running && running[laneOf[t]] == t
    requires forall l | l in running :: running[l] in laneOf && laneOf[running[l]] == l
    ensures |running| == |laneOf|
  {
    if running == map[] {
      assert laneOf.Keys == {};
    } else {
      var lane :| lane in running;
      var fewer, rest := running - {lane}, laneOf - {running[lane]};
      assert fewer.Keys == running.Keys - {lane} && rest.Keys == laneOf.Keys - {running[lane]};
      assert |fewer| == |fewer.Keys| && |rest| == |rest.Keys| && |running| == |running.Keys| && |laneOf| == |laneOf.Keys|;
      AsManyLanesAsTurns(fewer, rest);
    }
  }

  /** The dictionary means what the host takes it to mean: a lane is in it exactly while a turn of it is live or not yet called back. */
  lemma LanesAreTurns(x: Host)
    requires LanesOk(x)
    ensures forall lane :: lane in x.running <==> exists t :: LiveIn(x, lane, t) || OverIn(x, lane, t)
    ensures |x.running| == |x.live| + |x.ended|
  {
    forall lane | lane in x.running ensures exists t :: LiveIn(x, lane, t) || OverIn(x, lane, t) {
      var t := x.running[lane];
      assert Busy(x.running, x.live, x.ended, lane);
      assert LiveIn(x, lane, t) || OverIn(x, lane, t);
    }
    CountTurns(x);
  }

  function LanesOf(live: map<nat, Turn>): (lanes: map<nat, string>)
    ensures lanes.Keys == live.Keys && |lanes| == |live|
  {
    var lanes := map t | t in live :: live[t].lane;
    assert lanes.Keys == live.Keys;
    assert |lanes| == |lanes.Keys| && |live| == |live.Keys|;
    lanes
  }

  lemma SizeOfMerge(a: map<nat, string>, b: map<nat, string>)
    requires a.Keys !! b.Keys
    ensures |a + b| == |a| + |b|
  {
    assert (a + b).Keys == a.Keys + b.Keys;
    assert |a + b| == |(a + b).Keys| && |a| == |a.Keys| && |b| == |b.Keys|;
  }

  lemma CountTurns(x: Host)
    requires LanesOk(x)
    ensures |x.running| == |x.live| + |x.ended|
  {
    assert x.live.Keys !! x.ended.Keys;
    SizeOfMerge(LanesOf(x.live), x.ended);
    assert forall lane | lane in x.running :: Busy(x.running, x.live, x.ended, lane);
    AsManyLanesAsTurns(x.running, LanesOf(x.live) + x.ended);
  }

  lemma {:induction false} AlwaysLanesOk(w: World, steps: seq<Step>, h: string)
    requires Fresh(w) && h in w.hosts
    ensures h in Run(w, steps).hosts
    ensures LanesOk(Run(w, steps).hosts[h]) && Run(w, steps).hosts[h].cap == w.hosts[h].cap
  {
    if steps != [] {
      AlwaysLanesOk(w, Init(steps), h);
      StepKeepsLanes(Run(w, Init(steps)), Last(steps), h);
    }
  }

  /**
   Lane scheduling: at every moment of every run, a lane is in the host's dictionary exactly while one of its
   turns is live or not yet called back, each live turn is the one its lane names, two live turns never share
   a lane, and the turns that are live or not yet called back number at most `cap`.
   */
  lemma LanesNeverShared(w: World, steps: seq<Step>, h: string)
    requires Fresh(w) && h in w.hosts
    ensures h in Run(w, steps).hosts
    ensures
      var x := Run(w, steps).hosts[h];
      && (forall lane :: lane in x.running <==> exists t :: LiveIn(x, lane, t) || OverIn(x, lane, t))
      && (forall t | t in x.live :: x.live[t].lane in x.running && x.running[x.live[t].lane] == t)
      && (forall t, u | t in x.live && u in x.live && x.live[t].lane == x.live[u].lane :: t == u)
      && |x.running| == |x.live| + |x.ended| <= Max(0, w.hosts[h].cap)
  {
    AlwaysLanesOk(w, steps, h);
    LanesAreTurns(Run(w, steps).hosts[h]);
  }

  // ------------------------------------------------------- at-most-once turns

  ghost predicate ClaimsOk(w: World) {
    && (forall i, j | 0 <= i < j < |w.started| :: w.started[i].id != w.started[j].id)
    && (forall s | s in w.started :: s.id in w.won && w.won[s.id] == s.host)
    && WinsOk(w.bus, w.won)
    && (forall h | h in w.hosts && w.hosts[h].asking.Some? && w.hosts[h].asking.value.verdict == Some(true) ::
          var id := w.hosts[h].asking.value.id;
          id in w.won && w.won[id] == h && (forall s | s in w.started :: s.id != id))
  }

  // A call on the bus takes nothing away from the claims already won.
  lemma CallKeepsWins(b: Bus.Bus, call: Bus.Step, id: string)
    requires id in b.table && b.table[id].status != Bus.Pending && Bus.Claimed in Bus.History(b.log, id)
    ensures
      var after := Bus.Apply(b, call);
      id in after.table && after.table[id].status != Bus.Pending && Bus.Claimed in Bus.History(after.log, id)
  {
    Bus.StepHistory(b, call, id);
    Bus.StepRow(b, call, id);
  }

  // A claim that wins is recorded; one that had been won before cannot win again.
  lemma WinIsRecorded(b: Bus.Bus, c: Bus.Caller, id: string)
    requires Bus.CanClaim(b, c, id)
    ensures
      var after := Bus.Claim(b, c, id);
      id in after.table && after.table[id].status != Bus.Pending && Bus.Claimed in Bus.History(after.log, id)
  {
    Bus.StepHistory(b, Bus.DoClaim(c, id), id);
  }

  // Every recorded win is in the bus.
  ghost predicate WinsOk(b: Bus.Bus, won: map<string, string>) {
    forall id | id in won ::
      id in b.table && b.table[id].status != Bus.Pending && Bus.Claimed in Bus.History(b.log, id)
  }

  lemma ClaimKeepsWins(b: Bus.Bus, won: map<string, string>, c: Bus.Caller, id: string, h: string)
    requires WinsOk(b, won)
    ensures WinsOk(Bus.Claim(b, c, id), if Bus.CanClaim(b, c, id) then won[id := h] else won)
    ensures Bus.CanClaim(b, c, id) ==> id !in won
  {
    forall q | q in won {
      CallKeepsWins(b, Bus.DoClaim(c, id), q);
    }
    if Bus.CanClaim(b, c, id) {
      WinIsRecorded(b, c, id);
    }
  }

  lemma ArriveKeepsClaims(w: World, h: string)
    requires ClaimsOk(w)
    ensures ClaimsOk(Apply(w, Arrive(h)))
  {
    if h in w.hosts && w.hosts[h].asking.Some? && w.hosts[h].asking.value.verdict.None? {
      ClaimKeepsWins(w.bus, w.won, w.hosts[h].me, w.hosts[h].asking.value.id, h);
    }
  }

  lemma ServeKeepsClaims(w: World, call: Bus.Step)
    requires ClaimsOk(w)
    ensures ClaimsOk(Apply(w, Serve(call)))
  {
    forall id | id in w.won {
      CallKeepsWins(w.bus, call, id);
    }
  }

  lemma AnswerKeepsClaims(w: World, h: string, lost: bool)
    requires ClaimsOk(w)
    ensures ClaimsOk(Apply(w, Answer(h, lost)))
  {
  }

  lemma {:induction false} AllClaimsOk(w: World, steps: seq<Step>)
    requires Fresh(w)
    ensures ClaimsOk(Run(w, steps))
  {
    if steps != [] {
      AllClaimsOk(w, Init(steps));
      match Last(steps) {
        case Serve(call) => ServeKeepsClaims(Run(w, Init(steps)), call);
        case Arrive(h) => ArriveKeepsClaims(Run(w, Init(steps)), h);
        case Answer(h, lost) => AnswerKeepsClaims(Run(w, Init(steps)), h, lost);
        case _ =>
      }
    }
  }

  /**
   At most once: over any run, with any number of hosts and any lost answers, no directive is started
   twice, and whoever started it is the host whose claim of it won, a claim the bus recorded.
   */
  lemma StartedAtMostOnce(w: World, steps: seq<Step>)
    requires Fresh(w)
    ensures
      var u := Run(w, steps);
      && (forall i, j | 0 <= i < j < |u.started| :: u.started[i].id != u.started[j].id)
      && (forall s | s in u.started ::
            s.id in u.won && u.won[s.id] == s.host && Bus.Claimed in Bus.History(u.bus.log, s.id))
  {
    AllClaimsOk(w, steps);
  }
}
