/** app.py, the synchronous mission loop: failure injection, waypoint
    selection, the arrived and lost-comms overrides, applying the
    controller's position and the step-stamped log line. */
module Mission {
  import opened Optional
  import opened Random
  import opened Strings
  import opened Simulation
  import opened Autonomy
  import opened Utils

  /** The failure-injection settings: for each failure, the id of the agent
      it hits (or "None") and the step from which it is active. */
  datatype Failures = Failures(
    sensorDropoutAgent: string, dropoutWhenStep: int,
    commLossAgent: string, commLossStep: int)

  const NoAgent := "None"

  /** `sensor_ok` is false exactly when this predicate holds. */
  predicate SensorDown(f: Failures, id: string, s: int) {
    f.sensorDropoutAgent != NoAgent && id == f.sensorDropoutAgent && s >= f.dropoutWhenStep
  }

  /** `comms_ok` is false exactly when this predicate holds. */
  predicate CommsDown(f: Failures, id: string, s: int) {
    f.commLossAgent != NoAgent && id == f.commLossAgent && s >= f.commLossStep
  }

  /** Both failures are one-way: once active they stay active at every later
      step. */
  lemma FailuresAreOneWay(f: Failures, id: string, s: int, t: int)
    requires s <= t
    ensures SensorDown(f, id, s) ==> SensorDown(f, id, t)
    ensures CommsDown(f, id, s) ==> CommsDown(f, id, t)
  {
  }

  /** In a fleet from `create_fleet` each failure hits at most one agent. */
  lemma FailureHitsOneAgent(f: Failures, i: nat, j: nat, s: int)
    requires i != j
    ensures !(SensorDown(f, AgentId(i), s) && SensorDown(f, AgentId(j), s))
    ensures !(CommsDown(f, AgentId(i), s) && CommsDown(f, AgentId(j), s))
  {
    AgentIdsDistinct(i, j);
  }

  const ReachTolerance := 1.5

  function Abs(r: real): (a: real)
    ensures a >= 0.0 && (a == r || a == -r)
  {
    if r < 0.0 then -r else r
  }

  /** The test `abs(x - wx) > 1.5 or abs(y - wy) > 1.5`: not yet reached. */
  predicate Unreached(wp: Point, x: real, y: real) {
    Abs(x - wp.x) > ReachTolerance || Abs(y - wp.y) > ReachTolerance
  }

  /** Index of the first waypoint, in list order, not within 1.5 of (x, y) on
      both axes. */
  function FirstUnreached(wps: seq<Point>, x: real, y: real): (r: Option<nat>)
    ensures r.Some? ==> r.value < |wps| && Unreached(wps[r.value], x, y)
    ensures r.Some? ==> forall k :: 0 <= k < r.value ==> !Unreached(wps[k], x, y)
    ensures r.None? <==> forall k :: 0 <= k < |wps| ==> !Unreached(wps[k], x, y)
    decreases |wps|
  {
    if |wps| == 0 then None
    else if Unreached(wps[0], x, y) then Some(0)
    else match FirstUnreached(wps[1..], x, y)
      case None => None
      case Some(k) => Some(k + 1)
  }

  /** An agent at (9, 0) has reached a waypoint at (10, 0) (both deltas
      within 1.5), so the next waypoint in the list becomes the target. */
  lemma ReachedToleranceExample(next: Point)
    requires Unreached(next, 9.0, 0.0)
    ensures FirstUnreached([Point(10.0, 0.0), next], 9.0, 0.0) == Some(1)
  {
    assert !Unreached(Point(10.0, 0.0), 9.0, 0.0);
  }

  /** The waypoint `target_wp` the loop settles on, None when all are reached. */
  function TargetWaypoint(wps: seq<Point>, x: real, y: real): Option<Point> {
    match FirstUnreached(wps, x, y)
    case None => None
    case Some(k) => Some(wps[k])
  }

  const LostCommsMessage := "Lost communications"
  const HoldingMessage := "Comms lost -> holding position"

  /** The step-stamped line logged after a controller call, one per reason. */
  function StepLine(s: nat, reason: Reason): string {
    match reason
    case AvoidObstacle => "Step " + NatToString(s) + ": avoided obstacle"
    case FollowWp => "Step " + NatToString(s) + ": following waypoint"
    case SensorDropout => "Step " + NatToString(s) + ": sensor dropout -> safe_mode"
  }

  /** What stays fixed during a mission: the controller's environment and
      avoidance radius, the failure settings and the library functions. */
  datatype Context = Context(env: Environment, avoidRad: real, failures: Failures, lib: Builtins)

  /** Time step the loop passes to the controller. */
  const FrameDt := 1.0

  /** One agent's part of frame `s`, with `wps` its waypoint list. */
  function AgentFrame(v: AgentView, wps: seq<Point>, s: nat, c: Context): AgentView {
    var sensorOk := !SensorDown(c.failures, v.id, s);
    var commsOk := !CommsDown(c.failures, v.id, s);
    var v1 := if commsOk then v else v.(mode := LostComms, log := v.log + [LostCommsMessage]);
    match TargetWaypoint(wps, v1.x, v1.y)
    case None => v1.(mode := Arrived, vx := 0.0, vy := 0.0)
    case Some(wp) =>
      if !commsOk then v1.(log := v1.log + [HoldingMessage])
      else
        var d := Decide(c.env, c.avoidRad, v1, wp, FrameDt, sensorOk, c.lib);
        var v2 := Applied(v1, d);
        v2.(x := d.newX, y := d.newY, log := v2.log + [StepLine(s, d.reason)])
  }

  /** When every waypoint is reached the agent stays where it is, in mode
      arrived with zero velocity, even if its comms were just lost. */
  lemma FrameAllReached(v: AgentView, wps: seq<Point>, s: nat, c: Context)
    requires forall k :: 0 <= k < |wps| ==> !Unreached(wps[k], v.x, v.y)
    ensures var r := AgentFrame(v, wps, s, c);
      r.x == v.x && r.y == v.y && r.mode == Arrived && r.vx == 0.0 && r.vy == 0.0 &&
      r.heading == v.heading &&
      r.log == v.log + (if CommsDown(c.failures, v.id, s) then [LostCommsMessage] else [])
  {
  }

  /** With comms lost and a waypoint left, the agent holds its position and
      velocity in mode lost_comms; the controller is not consulted. */
  lemma FrameCommsLost(v: AgentView, wps: seq<Point>, s: nat, c: Context)
    requires CommsDown(c.failures, v.id, s)
    requires exists k :: 0 <= k < |wps| && Unreached(wps[k], v.x, v.y)
    ensures var r := AgentFrame(v, wps, s, c);
      r == v.(mode := LostComms, log := v.log + [LostCommsMessage, HoldingMessage])
  {
    assert FirstUnreached(wps, v.x, v.y).Some?;
  }

  /** Otherwise the agent takes the controller's position and writes, and
      exactly one step-stamped line for the reason follows the controller's
      own log entries. */
  lemma FrameControlled(v: AgentView, wps: seq<Point>, s: nat, c: Context, k: nat)
    requires !CommsDown(c.failures, v.id, s)
    requires FirstUnreached(wps, v.x, v.y) == Some(k)
    ensures var d := Decide(c.env, c.avoidRad, v, wps[k], FrameDt, !SensorDown(c.failures, v.id, s), c.lib);
      var r := AgentFrame(v, wps, s, c);
      r.x == d.newX && r.y == d.newY && r.mode == d.mode &&
      r.log == v.log + d.logged + [StepLine(s, d.reason)] &&
      (d.reason == SensorDropout <==> SensorDown(c.failures, v.id, s))
  {
  }

  /** `hypot(a, b)` is at least `|a|` and at least `|b|`: the only fact about
      `math.hypot` the lemma below relies on. */
  ghost predicate HypotBoundsAxes(lib: Builtins) {
    forall a, b :: lib.hypot(a, b) >= Abs(a) && lib.hypot(a, b) >= Abs(b)
  }

  /** Inside the mission loop the controller never reports arrived: the
      waypoint it is given is more than 1.5 away on some axis, so farther than
      0.5, and the "Arrived at waypoint" entry is never logged. */
  lemma ControlledNeverArrives(v: AgentView, wps: seq<Point>, s: nat, c: Context, k: nat)
    requires HypotBoundsAxes(c.lib)
    requires !CommsDown(c.failures, v.id, s)
    requires FirstUnreached(wps, v.x, v.y) == Some(k)
    ensures var d := Decide(c.env, c.avoidRad, v, wps[k], FrameDt, !SensorDown(c.failures, v.id, s), c.lib);
      d.mode != Arrived && AgentFrame(v, wps, s, c).mode != Arrived &&
      (d.reason == FollowWp ==> d.mode == Navigating && d.logged == [])
  {
    var wp := wps[k];
    var dist := Distance(c.lib, v.x, v.y, wp.x, wp.y);
    assert dist >= Abs(v.x - wp.x) && dist >= Abs(v.y - wp.y);
    assert dist > ArriveRadius;
  }

  /** Frames `from` up to `to` (exclusive), applied to one agent. */
  function Frames(v: AgentView, wps: seq<Point>, from: nat, to: nat, c: Context): AgentView
    decreases to as int - from
  {
    if from >= to then v else Frames(AgentFrame(v, wps, from, c), wps, from + 1, to, c)
  }

  /** A frame never changes an agent's id, speed, target or trajectory, and
      only appends to its log. */
  lemma FrameKeepsRecord(v: AgentView, wps: seq<Point>, s: nat, c: Context)
    ensures var r := AgentFrame(v, wps, s, c);
      r.id == v.id && r.speed == v.speed && r.target == v.target && r.traj == v.traj &&
      |r.log| >= |v.log| && r.log[..|v.log|] == v.log
  {
  }

  lemma {:induction false} FramesKeepRecord(v: AgentView, wps: seq<Point>, from: nat, to: nat, c: Context)
    decreases to as int - from
    ensures var r := Frames(v, wps, from, to, c);
      r.id == v.id && r.speed == v.speed && r.target == v.target && r.traj == v.traj &&
      |r.log| >= |v.log| && r.log[..|v.log|] == v.log
  {
    if from < to {
      var v1 := AgentFrame(v, wps, from, c);
      FrameKeepsRecord(v, wps, from, c);
      FramesKeepRecord(v1, wps, from + 1, to, c);
      var r := Frames(v1, wps, from + 1, to, c);
      assert r.log[..|v.log|] == r.log[..|v1.log|][..|v.log|];
    }
  }

  predicate InBounds(env: Environment, v: AgentView) {
    0.0 <= v.x <= env.width && 0.0 <= v.y <= env.height
  }

  /** An agent inside the map stays inside through every frame. */
  lemma {:induction false} FramesInBounds(v: AgentView, wps: seq<Point>, from: nat, to: nat, c: Context)
    decreases to as int - from
    requires c.env.width >= 0.0 && c.env.height >= 0.0
    requires InBounds(c.env, v)
    ensures InBounds(c.env, Frames(v, wps, from, to, c))
  {
    if from < to {
      var v1 := if CommsDown(c.failures, v.id, from) then v.(mode := LostComms, log := v.log + [LostCommsMessage]) else v;
      var target := TargetWaypoint(wps, v1.x, v1.y);
      if target.Some? {
        DecideInBounds(c.env, c.avoidRad, v1, target.value, FrameDt, !SensorDown(c.failures, v.id, from), c.lib);
      }
      FramesInBounds(AgentFrame(v, wps, from, c), wps, from + 1, to, c);
    }
  }

  /** Once its sensor has dropped out or its comms are lost, an agent never
      moves again: its position after any number of later frames is the
      position it had when the failure became active. */
  lemma {:induction false} FramesFrozenAfterFailure(v: AgentView, wps: seq<Point>, from: nat, to: nat, c: Context)
    decreases to as int - from
    requires SensorDown(c.failures, v.id, from) || CommsDown(c.failures, v.id, from)
    ensures var r := Frames(v, wps, from, to, c); r.x == v.x && r.y == v.y
  {
    if from < to {
      var v1 := AgentFrame(v, wps, from, c);
      FrameKeepsRecord(v, wps, from, c);
      FailuresAreOneWay(c.failures, v.id, from, from + 1);
      FramesFrozenAfterFailure(v1, wps, from + 1, to, c);
    }
  }

  /** An agent that has reached all its waypoints stays put, in mode arrived
      with zero velocity, for every later frame. */
  lemma {:induction false} FramesStayArrived(v: AgentView, wps: seq<Point>, from: nat, to: nat, c: Context)
    decreases to as int - from
    requires from < to
    requires forall k :: 0 <= k < |wps| ==> !Unreached(wps[k], v.x, v.y)
    ensures var r := Frames(v, wps, from, to, c);
      r.x == v.x && r.y == v.y && r.mode == Arrived && r.vx == 0.0 && r.vy == 0.0
  {
    var v1 := AgentFrame(v, wps, from, c);
    FrameAllReached(v, wps, from, c);
    if from + 1 < to {
      FramesStayArrived(v1, wps, from + 1, to, c);
    }
  }

  /** One past the last frame the loop runs when started at `s`: it stops
      after the first frame at which the stop flag is seen, or at `steps`. */
  function EndFrame(s: nat, steps: nat, stopSeen: nat -> bool): (r: nat)
    ensures s >= steps ==> r == s
    ensures s < steps ==> s < r <= steps
    ensures forall t :: s <= t < r - 1 ==> !stopSeen(t)
    ensures s < r < steps ==> stopSeen(r - 1)
    decreases steps - s
  {
    if s >= steps then s
    else if stopSeen(s) then s + 1
    else EndFrame(s + 1, steps, stopSeen)
  }

  /** The loop ends at `e` when no frame before `e - 1` saw the stop flag
      and either frame `e - 1` saw it or `e` is the frame budget. */
  lemma {:induction false} EndFrameAt(s: nat, steps: nat, stopSeen: nat -> bool, e: nat)
    decreases e - s
    requires s <= e <= steps
    requires forall t :: s <= t < e - 1 ==> !stopSeen(t)
    requires e == steps || (s < e && stopSeen(e - 1))
    ensures EndFrame(s, steps, stopSeen) == e
  {
    if s + 1 < e {
      EndFrameAt(s + 1, steps, stopSeen, e);
    }
  }

  class MissionState {
    const agents: seq<AgentState>
    const waypoints: seq<seq<Point>>
    const autonomy: Autonomy
    var step: nat
    var running: bool

    /** One waypoint list per agent, and no agent listed twice. */
    ghost predicate Valid()
    {
      |waypoints| == |agents| &&
      forall i, j :: 0 <= i < j < |agents| ==> agents[i] != agents[j]
    }

    function Ctx(f: Failures, lib: Builtins): Context
    {
      Context(autonomy.env, autonomy.avoidRad, f, lib)
    }

    /** A fresh session (app.py's regenerate path) on the 100 x 100 map with
        three waypoints per agent. `streamOf(k)` is the sample stream of
        `RandomState(k)`: the obstacles come from the stream of the chosen
        `seed`, the waypoints always from that of seed 1234, whatever `seed`
        is; `globalDraws` is numpy's global generator from position
        `globalPos`. `RandomState` accepts only seeds in [0, 2^32). */
    constructor (nAgents: nat, nObstacles: nat, seed: int, streamOf: int -> Stream,
                 globalDraws: Stream, globalPos: nat)
      requires 0 <= seed < 0x1_0000_0000
      ensures Valid() && step == 0 && !running && |agents| == nAgents
      ensures autonomy.env == Environment(100.0, 100.0, Obstacles(100.0, 100.0, nObstacles, streamOf(seed), 0))
      ensures autonomy.avoidRad == DefaultAvoidRadius
      ensures waypoints == WaypointPlan(nAgents, 100.0, 100.0, 3, streamOf(WaypointSeed))
      ensures forall i :: 0 <= i < nAgents ==> fresh(agents[i])
      ensures forall i :: 0 <= i < nAgents ==>
        var p := SpawnAt(autonomy.env, globalDraws, globalPos, i);
        agents[i].View() == InitialView(AgentId(i), p.x, p.y)
    {
      var env := NewEnvironment(100.0, 100.0, nObstacles, streamOf(seed));
      var fleet, _ := CreateFleet(nAgents, env, globalDraws, globalPos);
      var wps := GenerateWaypointsForAgents(nAgents, 100.0, 100.0, 3, streamOf(WaypointSeed));
      agents := fleet;
      waypoints := wps;
      autonomy := new Autonomy(env, DefaultAvoidRadius);
      running := false;
      step := 0;
    }

    /** The `for wp in wp_list` scan with its `break`. */
    static method SelectWaypoint(wps: seq<Point>, x: real, y: real) returns (target: Option<Point>)
      ensures target == TargetWaypoint(wps, x, y)
      ensures target.Some? ==> target.value in wps && Unreached(target.value, x, y)
      ensures target.None? <==> forall k :: 0 <= k < |wps| ==> !Unreached(wps[k], x, y)
    {
      target := None;
      var i := 0;
      while i < |wps|
        invariant 0 <= i <= |wps|
        invariant forall k :: 0 <= k < i ==> !Unreached(wps[k], x, y)
      {
        if Unreached(wps[i], x, y) {
          target := Some(wps[i]);
          break;
        }
        i := i + 1;
      }
    }

    /** The body of the per-agent loop for `agent` at step `s`. */
    method ProcessAgent(agent: AgentState, wps: seq<Point>, s: nat, f: Failures, lib: Builtins)
      modifies agent
      ensures agent.View() == AgentFrame(old(agent.View()), wps, s, Ctx(f, lib))
    {
      ghost var c := Ctx(f, lib);
      ghost var v0 := agent.View();
      var sensorOk := true;
      var commsOk := true;
      if f.sensorDropoutAgent != NoAgent && agent.id == f.sensorDropoutAgent && s >= f.dropoutWhenStep {
        sensorOk := false;
      }
      if f.commLossAgent != NoAgent && agent.id == f.commLossAgent && s >= f.commLossStep {
        commsOk := false;
        agent.mode := LostComms;
        agent.log := agent.log + [LostCommsMessage];
      }
      ghost var v1 := agent.View();
      assert v1 == if commsOk then v0 else v0.(mode := LostComms, log := v0.log + [LostCommsMessage]);
      assert sensorOk == !SensorDown(f, v0.id, s) && commsOk == !CommsDown(f, v0.id, s);
      var target := SelectWaypoint(wps, agent.x, agent.y);
      if target.None? {
        agent.mode := Arrived;
        agent.vx, agent.vy := 0.0, 0.0;
        return;
      }
      if !commsOk {
        agent.log := agent.log + [HoldingMessage];
        return;
      }
      ghost var d := Decide(c.env, c.avoidRad, v1, target.value, FrameDt, sensorOk, lib);
      var newX, newY, mode, reason := autonomy.ComputeControl(agent, target.value, FrameDt, sensorOk, lib);
      assert agent.View() == Applied(v1, d) && reason == d.reason;
      agent.x := newX;
      agent.y := newY;
      if reason == AvoidObstacle {
        agent.log := agent.log + [StepLine(s, AvoidObstacle)];
      } else if reason == FollowWp {
        agent.log := agent.log + [StepLine(s, FollowWp)];
      } else if reason == SensorDropout {
        agent.log := agent.log + [StepLine(s, SensorDropout)];
      }
    }

    /** Frame `s`: every agent in fleet order, each independently of the others. */
    method Frame(s: nat, f: Failures, lib: Builtins)
      requires Valid()
      modifies agents
      ensures forall i :: 0 <= i < |agents| ==>
        agents[i].View() == AgentFrame(old(agents[i].View()), waypoints[i], s, Ctx(f, lib))
    {
      ghost var c := Ctx(f, lib);
      for idx := 0 to |agents|
        invariant forall i :: 0 <= i < idx ==>
          agents[i].View() == AgentFrame(old(agents[i].View()), waypoints[i], s, c)
        invariant forall i :: idx <= i < |agents| ==> agents[i].View() == old(agents[i].View())
      {
        var a := agents[idx];
        ProcessAgent(a, waypoints[idx], s, f, lib);
        assert forall i :: 0 <= i < |agents| && i != idx ==> agents[i] != a;
      }
    }

    /** Frame `s` after frames `start` up to `s` have run from `views`: the
        agents are then where frames `start` up to `s + 1` take them. */
    method NextFrame(ghost start: nat, s: nat, ghost views: seq<AgentView>, f: Failures, lib: Builtins)
      requires Valid() && start <= s && |views| == |agents|
      requires forall i :: 0 <= i < |agents| ==>
        agents[i].View() == Frames(views[i], waypoints[i], start, s, Ctx(f, lib))
      modifies agents
      ensures forall i :: 0 <= i < |agents| ==>
        agents[i].View() == Frames(views[i], waypoints[i], start, s + 1, Ctx(f, lib))
    {
      Frame(s, f, lib);
      forall i | 0 <= i < |agents|
        ensures agents[i].View() == Frames(views[i], waypoints[i], start, s + 1, Ctx(f, lib))
      {
        FramesSnoc(views[i], waypoints[i], start, s, Ctx(f, lib));
      }
    }

    /** The mission loop: when running, frames from the stored step up to
        `steps - 1`, with `step` left at the index of the last frame run; the
        stop flag is looked at only after a whole frame (`stopSeen(s)` says
        the Stop button cleared it during frame `s`); afterwards the mission
        is not running. */
    method Run(steps: nat, f: Failures, lib: Builtins, stopSeen: nat -> bool)
      requires Valid()
      modifies this, agents
      ensures !running
      ensures var end := if old(running) then EndFrame(old(step), steps, stopSeen) else old(step);
        (step == if end > old(step) then end - 1 else old(step)) &&
        forall i :: 0 <= i < |agents| ==>
          agents[i].View() == Frames(old(agents[i].View()), waypoints[i], old(step), end, Ctx(f, lib))
    {
      if running {
        var end := Loop(steps, f, lib, stopSeen);
        if end > step {
          // `st.session_state.step = s` for the last frame; nothing in the
          // loop reads the counter, so it is written once here.
          step := end - 1;
        }
      }
      running := false;
    }

    /** The `for s in range(step, steps)` loop with its early `break`:
        returns one past the last frame it ran. */
    method Loop(steps: nat, f: Failures, lib: Builtins, stopSeen: nat -> bool) returns (end: nat)
      requires Valid()
      modifies agents
      ensures end == EndFrame(step, steps, stopSeen)
      ensures forall i :: 0 <= i < |agents| ==>
        agents[i].View() == Frames(old(agents[i].View()), waypoints[i], step, end, Ctx(f, lib))
    {
      ghost var views := seq(|agents|, i requires 0 <= i < |agents| reads agents => agents[i].View());
      ghost var stopped := false;
      end := step;
      while end < steps
        invariant step <= end && (step < steps ==> end <= steps) && (step >= steps ==> end == step)
        invariant |views| == |agents|
        invariant forall i :: 0 <= i < |agents| ==> views[i] == old(agents[i].View())
        invariant forall t :: step <= t < end ==> !stopSeen(t)
        invariant forall i :: 0 <= i < |agents| ==>
          agents[i].View() == Frames(views[i], waypoints[i], step, end, Ctx(f, lib))
        decreases steps - end
      {
        NextFrame(step, end, views, f, lib);
        end := end + 1;
        if stopSeen(end - 1) {
          EndFrameAt(step, steps, stopSeen, end);
          stopped := true;
          break;
        }
      }
      if !stopped && step < steps {
        EndFrameAt(step, steps, stopSeen, end);
      }
    }
  }

  /** Running one more frame after `to` is the same as running up to `to + 1`. */
  lemma {:induction false} FramesSnoc(v: AgentView, wps: seq<Point>, from: nat, to: nat, c: Context)
    decreases to as int - from
    requires from <= to
    ensures Frames(v, wps, from, to + 1, c) == AgentFrame(Frames(v, wps, from, to, c), wps, to, c)
  {
    if from < to {
      FramesSnoc(AgentFrame(v, wps, from, c), wps, from + 1, to, c);
    }
  }
}
