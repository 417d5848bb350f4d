/** autonomy.py: the per-agent decision of one control step (sensor check,
    reactive obstacle avoidance, waypoint following). */
module Autonomy {
  import opened Optional
  import opened Simulation

  /** The library calls the controller makes whose values the model does not
      define: `math.atan2`, `math.cos`, `math.sin`, `math.hypot` and the `:.1f`
      format of a float. */
  datatype Builtins = Builtins(
    atan2: (real, real) -> real,
    cos: real -> real,
    sin: real -> real,
    hypot: (real, real) -> real,
    fmt1: real -> string)

  /** `clamp(v, lo, hi) = max(lo, min(hi, v))`. */
  function Clamp(v: real, lo: real, hi: real): (r: real)
    ensures lo <= hi ==> lo <= r <= hi
    ensures lo <= v <= hi ==> r == v
    ensures v < lo ==> r == lo
    ensures lo <= hi < v ==> r == hi
  {
    Max(lo, if hi < v then hi else v)
  }

  function Max(a: real, b: real): (r: real)
    ensures r >= a && r >= b && (r == a || r == b)
  {
    if a >= b then a else b
  }

  /** `distance(a, b) = hypot(a.x - b.x, a.y - b.y)`. */
  function Distance(lib: Builtins, x1: real, y1: real, x2: real, y2: real): real {
    lib.hypot(x1 - x2, y1 - y2)
  }

  /** `angle_to(a, b)`: the bearing from a to b. */
  function AngleTo(lib: Builtins, x1: real, y1: real, x2: real, y2: real): real {
    lib.atan2(y2 - y1, x2 - x1)
  }

  /** The strict proximity test `distance(agent, obs) < obs.r + avoid_rad`. */
  predicate NearObstacle(lib: Builtins, x: real, y: real, o: Obstacle, avoidRad: real) {
    Distance(lib, x, y, o.x, o.y) < o.r + avoidRad
  }

  /** Index of the first obstacle, in list order, that the proximity test
      fires for. */
  function FirstNear(lib: Builtins, obs: seq<Obstacle>, x: real, y: real, avoidRad: real): (r: Option<nat>)
    ensures r.Some? ==> r.value < |obs| && NearObstacle(lib, x, y, obs[r.value], avoidRad)
    ensures r.Some? ==> forall k :: 0 <= k < r.value ==> !NearObstacle(lib, x, y, obs[k], avoidRad)
    ensures r.None? <==> forall k :: 0 <= k < |obs| ==> !NearObstacle(lib, x, y, obs[k], avoidRad)
    decreases |obs|
  {
    if |obs| == 0 then None
    else if NearObstacle(lib, x, y, obs[0], avoidRad) then Some(0)
    else match FirstNear(lib, obs[1..], x, y, avoidRad)
      case None => None
      case Some(k) => Some(k + 1)
  }

  /** What the scan decides depends only on the obstacles up to and including
      the first one that fires: no later obstacle is examined. */
  lemma {:induction false} FirstNearIgnoresLater(lib: Builtins, obs: seq<Obstacle>, tail: seq<Obstacle>, x: real, y: real, avoidRad: real)
    requires FirstNear(lib, obs, x, y, avoidRad).Some?
    ensures var k := FirstNear(lib, obs, x, y, avoidRad).value;
      FirstNear(lib, obs[..k + 1] + tail, x, y, avoidRad) == Some(k)
  {
    var k := FirstNear(lib, obs, x, y, avoidRad).value;
    var obs' := obs[..k + 1] + tail;
    assert forall j :: 0 <= j <= k ==> obs'[j] == obs[j];
    var r := FirstNear(lib, obs', x, y, avoidRad);
    assert r.Some?;
  }

  const DefaultAvoidRadius := 10.0
  /** Weight of the away-from-obstacle bearing in the blended heading. */
  const Blend := 0.7
  /** Creep floor of the speed. */
  const MinSpeed := 0.2
  /** Within 3.0 of the waypoint the agent slows down to 0.3 of its speed. */
  const SlowRadius := 3.0
  const SlowFactor := 0.3
  /** Within 0.5 of the waypoint (inclusive) the agent counts as arrived. */
  const ArriveRadius := 0.5

  /** The reason `compute_control` returns: the strings "sensor_dropout",
      "avoid_obstacle" and "follow_wp". */
  datatype Reason = SensorDropout | AvoidObstacle | FollowWp

  /** New heading and velocity the controller writes into the agent. */
  datatype Steer = Steer(heading: real, vx: real, vy: real)

  /** Everything one `compute_control` call produces: the returned
      `(new_x, new_y, mode, reason)`, the steering it writes (None when it
      leaves heading and velocity alone) and the log entries it appends. */
  datatype Decision = Decision(
    newX: real, newY: real, mode: Mode, reason: Reason,
    steer: Option<Steer>, logged: seq<string>)

  const DropoutMessage := "Sensor dropout -> safe_mode (stop)"

  function AvoidMessage(lib: Builtins, o: Obstacle): string {
    "Obstacle near (" + lib.fmt1(o.x) + "," + lib.fmt1(o.y) + ") -> avoiding"
  }

  function ArrivedMessage(lib: Builtins, wp: Point): string {
    "Arrived at waypoint (" + lib.fmt1(wp.x) + "," + lib.fmt1(wp.y) + ")"
  }

  /** Heading `theta` at `speed`: velocity `(cos, sin)(theta) * speed`. */
  function SteerAt(lib: Builtins, theta: real, speed: real): Steer {
    Steer(theta, lib.cos(theta) * speed, lib.sin(theta) * speed)
  }

  /** Moves by velocity times `dt` and clamps into the map. */
  function Advance(env: Environment, v: AgentView, s: Steer, dt: real): Point {
    Point(Clamp(v.x + s.vx * dt, 0.0, env.width), Clamp(v.y + s.vy * dt, 0.0, env.height))
  }

  /** The avoidance speed `clamp(speed, 0.2, speed)`, which is `max(0.2, speed)`. */
  function AvoidSpeed(speed: real): (r: real)
    ensures r == Max(MinSpeed, speed) && r >= MinSpeed
  {
    Clamp(speed, MinSpeed, speed)
  }

  /** The waypoint-following speed at distance `distToWp`: the nominal
      speed, slowed to max(0.2, 0.3 * speed) within 3.0 of the waypoint. */
  function FollowSpeed(speed: real, distToWp: real): (r: real)
    ensures distToWp >= SlowRadius ==> r == speed
    ensures distToWp < SlowRadius ==> r >= MinSpeed && r >= 0.3 * speed && (r == MinSpeed || r == 0.3 * speed)
  {
    if distToWp < SlowRadius then Max(MinSpeed, speed * SlowFactor) else speed
  }

  /** The mode after following: navigating while farther than 0.5, arrived
      from 0.5 in. */
  function FollowMode(distToWp: real): (m: Mode)
    ensures m == Navigating <==> distToWp > ArriveRadius
    ensures m == Arrived <==> distToWp <= ArriveRadius
  {
    if distToWp > ArriveRadius then Navigating else Arrived
  }

  /** The avoid branch for the triggering obstacle `o`. */
  function AvoidDecision(env: Environment, v: AgentView, o: Obstacle, wp: Point, dt: real, lib: Builtins): Decision {
    var targetTheta := AngleTo(lib, v.x, v.y, wp.x, wp.y);
    var awayTheta := AngleTo(lib, o.x, o.y, v.x, v.y);
    var s := SteerAt(lib, (1.0 - Blend) * targetTheta + Blend * awayTheta, AvoidSpeed(v.speed));
    var p := Advance(env, v, s, dt);
    Decision(p.x, p.y, Avoiding, AvoidObstacle, Some(s), [AvoidMessage(lib, o)])
  }

  /** The follow branch, taken when no obstacle fires. */
  function FollowDecision(env: Environment, v: AgentView, wp: Point, dt: real, lib: Builtins): Decision {
    var distToWp := Distance(lib, v.x, v.y, wp.x, wp.y);
    var s := SteerAt(lib, AngleTo(lib, v.x, v.y, wp.x, wp.y), FollowSpeed(v.speed, distToWp));
    var p := Advance(env, v, s, dt);
    var mode := FollowMode(distToWp);
    Decision(p.x, p.y, mode, FollowWp, Some(s), if mode == Arrived then [ArrivedMessage(lib, wp)] else [])
  }

  /** The decision `compute_control` takes for agent state `v` heading for `wp`:
      the sensor check first, then the first obstacle that fires, then the
      waypoint. */
  function Decide(env: Environment, avoidRad: real, v: AgentView, wp: Point, dt: real,
                  sensorOk: bool, lib: Builtins): Decision
  {
    if !sensorOk then
      Decision(v.x, v.y, SafeMode, SensorDropout, None, [DropoutMessage])
    else
      match FirstNear(lib, env.obstacles, v.x, v.y, avoidRad)
      case Some(k) => AvoidDecision(env, v, env.obstacles[k], wp, dt, lib)
      case None => FollowDecision(env, v, wp, dt, lib)
  }

  /** The agent after the controller's writes: mode, log and (unless the
      sensor dropped out) heading and velocity; the position is untouched. */
  function Applied(v: AgentView, d: Decision): (r: AgentView)
    ensures r.x == v.x && r.y == v.y && r.id == v.id && r.speed == v.speed
    ensures r.target == v.target && r.traj == v.traj
    ensures r.mode == d.mode && r.log == v.log + d.logged
    ensures d.steer.None? ==> r.heading == v.heading && r.vx == v.vx && r.vy == v.vy
    ensures d.steer.Some? ==> r.heading == d.steer.value.heading && r.vx == d.steer.value.vx && r.vy == d.steer.value.vy
  {
    var r := v.(mode := d.mode, log := v.log + d.logged);
    match d.steer
    case None => r
    case Some(s) => r.(heading := s.heading, vx := s.vx, vy := s.vy)
  }

  /** A failed sensor wins over everything else: the agent holds its position
      in safe mode, logs exactly the dropout entry and keeps heading and
      velocity, whatever obstacles are around. */
  lemma DecideSensorDropout(env: Environment, avoidRad: real, v: AgentView, wp: Point, dt: real, lib: Builtins)
    ensures var d := Decide(env, avoidRad, v, wp, dt, false, lib);
      d.newX == v.x && d.newY == v.y && d.mode == SafeMode && d.reason == SensorDropout &&
      d.logged == [DropoutMessage] &&
      var a := Applied(v, d); a.heading == v.heading && a.vx == v.vx && a.vy == v.vy
  {
  }

  /** Reacting to the first obstacle that fires: heading 0.3 toward the
      target and 0.7 away from the obstacle, speed max(0.2, speed), one log
      entry naming the obstacle. */
  lemma DecideAvoid(env: Environment, avoidRad: real, v: AgentView, wp: Point, dt: real, lib: Builtins)
    requires FirstNear(lib, env.obstacles, v.x, v.y, avoidRad).Some?
    ensures var o := env.obstacles[FirstNear(lib, env.obstacles, v.x, v.y, avoidRad).value];
      var d := Decide(env, avoidRad, v, wp, dt, true, lib);
      var theta := 0.3 * AngleTo(lib, v.x, v.y, wp.x, wp.y) + 0.7 * AngleTo(lib, o.x, o.y, v.x, v.y);
      var speed := Max(MinSpeed, v.speed);
      d.mode == Avoiding && d.reason == AvoidObstacle && speed >= MinSpeed &&
      d.steer == Some(SteerAt(lib, theta, speed)) &&
      Point(d.newX, d.newY) == Advance(env, v, SteerAt(lib, theta, speed), dt) &&
      d.logged == [AvoidMessage(lib, o)]
  {
  }

  /** With no obstacle in range: heading toward the waypoint; the full speed
      from 3.0 away and max(0.2, 0.3 * speed) closer in; navigating while
      farther than 0.5 and arrived, with one log entry, otherwise. */
  lemma DecideFollow(env: Environment, avoidRad: real, v: AgentView, wp: Point, dt: real, lib: Builtins)
    requires FirstNear(lib, env.obstacles, v.x, v.y, avoidRad).None?
    ensures var d := Decide(env, avoidRad, v, wp, dt, true, lib);
      var distToWp := Distance(lib, v.x, v.y, wp.x, wp.y);
      var theta := AngleTo(lib, v.x, v.y, wp.x, wp.y);
      var speed := if distToWp >= 3.0 then v.speed else Max(MinSpeed, 0.3 * v.speed);
      d.reason == FollowWp &&
      d.steer == Some(SteerAt(lib, theta, speed)) &&
      Point(d.newX, d.newY) == Advance(env, v, SteerAt(lib, theta, speed), dt) &&
      (d.mode == Navigating <==> distToWp > 0.5) &&
      (d.mode == Navigating || d.mode == Arrived) &&
      d.logged == (if distToWp > 0.5 then [] else [ArrivedMessage(lib, wp)])
  {
  }

  /** Whenever the agent moves, its new position lies inside the map; and an
      agent already inside the map stays inside. */
  lemma DecideInBounds(env: Environment, avoidRad: real, v: AgentView, wp: Point, dt: real,
                       sensorOk: bool, lib: Builtins)
    requires env.width >= 0.0 && env.height >= 0.0
    ensures var d := Decide(env, avoidRad, v, wp, dt, sensorOk, lib);
      (d.reason != SensorDropout || (0.0 <= v.x <= env.width && 0.0 <= v.y <= env.height)) ==>
      0.0 <= d.newX <= env.width && 0.0 <= d.newY <= env.height
  {
  }

  /** The decision does not depend on the obstacles after the first one that
      fires. */
  lemma DecideIgnoresLaterObstacles(env: Environment, avoidRad: real, v: AgentView, wp: Point, dt: real,
                                    sensorOk: bool, lib: Builtins, tail: seq<Obstacle>)
    requires FirstNear(lib, env.obstacles, v.x, v.y, avoidRad).Some?
    ensures var k := FirstNear(lib, env.obstacles, v.x, v.y, avoidRad).value;
      var env' := env.(obstacles := env.obstacles[..k + 1] + tail);
      Decide(env', avoidRad, v, wp, dt, sensorOk, lib) == Decide(env, avoidRad, v, wp, dt, sensorOk, lib)
  {
    var k := FirstNear(lib, env.obstacles, v.x, v.y, avoidRad).value;
    var env' := env.(obstacles := env.obstacles[..k + 1] + tail);
    FirstNearIgnoresLater(lib, env.obstacles, tail, v.x, v.y, avoidRad);
    if sensorOk {
      var o := env.obstacles[k];
      assert env'.obstacles[k] == o;
      assert Advance(env', v, AvoidDecision(env', v, o, wp, dt, lib).steer.value, dt) ==
             Advance(env, v, AvoidDecision(env', v, o, wp, dt, lib).steer.value, dt);
      assert AvoidDecision(env', v, o, wp, dt, lib) == AvoidDecision(env, v, o, wp, dt, lib);
    }
  }

  /** Agent at (0, 0) heading for (10, 0), one obstacle of radius 2 at (5, 0),
      avoidance radius 10: distance 5 < 12 fires, and with bearings 0 to the
      target and `pi` away from the obstacle the new heading is 0.7 * pi. */
  lemma AvoidBlendExample(lib: Builtins, pi: real, speed: real)
    requires lib.hypot(-5.0, 0.0) == 5.0
    requires lib.atan2(0.0, 10.0) == 0.0 && lib.atan2(0.0, -5.0) == pi
    ensures var env := Environment(100.0, 100.0, [Obstacle(5.0, 0.0, 2.0)]);
      var v := InitialView("Agent_1", 0.0, 0.0).(speed := speed);
      var d := Decide(env, DefaultAvoidRadius, v, Point(10.0, 0.0), 1.0, true, lib);
      d.mode == Avoiding && d.reason == AvoidObstacle && d.steer.Some? && d.steer.value.heading == 0.7 * pi
  {
    var env := Environment(100.0, 100.0, [Obstacle(5.0, 0.0, 2.0)]);
    var v := InitialView("Agent_1", 0.0, 0.0).(speed := speed);
    assert NearObstacle(lib, v.x, v.y, env.obstacles[0], DefaultAvoidRadius);
    assert FirstNear(lib, env.obstacles, v.x, v.y, DefaultAvoidRadius) == Some(0);
  }

  class Autonomy {
    const env: Environment
    const avoidRad: real

    constructor (env: Environment, obstacleAvoidanceRadius: real)
      ensures this.env == env && avoidRad == obstacleAvoidanceRadius
    {
      this.env := env;
      avoidRad := obstacleAvoidanceRadius;
    }

    /** `compute_control`: writes mode, heading, velocity and log of `agent`
        as `Decide` says, never its position, and returns the new position,
        the mode the agent now has and the reason. */
    method ComputeControl(agent: AgentState, waypoint: Point, dt: real, sensorOk: bool, lib: Builtins)
      returns (newX: real, newY: real, mode: Mode, reason: Reason)
      modifies agent
      ensures var d := Decide(env, avoidRad, old(agent.View()), waypoint, dt, sensorOk, lib);
        agent.View() == Applied(old(agent.View()), d) &&
        newX == d.newX && newY == d.newY && mode == d.mode && reason == d.reason
      ensures agent.x == old(agent.x) && agent.y == old(agent.y) && mode == agent.mode
    {
      if !sensorOk {
        agent.mode := SafeMode;
        agent.log := agent.log + [DropoutMessage];
        return agent.x, agent.y, agent.mode, SensorDropout;
      }
      var i := 0;
      while i < |env.obstacles|
        invariant 0 <= i <= |env.obstacles|
        invariant forall k :: 0 <= k < i ==> !NearObstacle(lib, agent.x, agent.y, env.obstacles[k], avoidRad)
      {
        var obs := env.obstacles[i];
        if NearObstacle(lib, agent.x, agent.y, obs, avoidRad) {
          newX, newY, mode, reason := Avoid(agent, obs, waypoint, dt, lib);
          return;
        }
        i := i + 1;
      }
      newX, newY, mode, reason := Follow(agent, waypoint, dt, lib);
    }

    /** The avoid branch of `compute_control` for the obstacle `obs` that fired. */
    method Avoid(agent: AgentState, obs: Obstacle, waypoint: Point, dt: real, lib: Builtins)
      returns (newX: real, newY: real, mode: Mode, reason: Reason)
      modifies agent
      ensures var d := AvoidDecision(env, old(agent.View()), obs, waypoint, dt, lib);
        agent.View() == Applied(old(agent.View()), d) &&
        newX == d.newX && newY == d.newY && mode == d.mode && reason == d.reason
    {
      ghost var v0 := agent.View();
      ghost var d := AvoidDecision(env, v0, obs, waypoint, dt, lib);
      var targetTheta := AngleTo(lib, agent.x, agent.y, waypoint.x, waypoint.y);
      var awayTheta := AngleTo(lib, obs.x, obs.y, agent.x, agent.y);
      var newTheta := (1.0 - Blend) * targetTheta + Blend * awayTheta;
      var speed := Clamp(agent.speed, MinSpeed, agent.speed);
      var steer := SteerAt(lib, newTheta, speed);
      assert d.steer == Some(steer);
      newX := Clamp(agent.x + steer.vx * dt, 0.0, env.width);
      newY := Clamp(agent.y + steer.vy * dt, 0.0, env.height);
      assert d.newX == newX && d.newY == newY;
      agent.heading, agent.vx, agent.vy, agent.mode, agent.log :=
        steer.heading, steer.vx, steer.vy, Avoiding, agent.log + [AvoidMessage(lib, obs)];
      assert agent.View() == Applied(v0, d);
      return newX, newY, agent.mode, AvoidObstacle;
    }

    /** The waypoint-following branch of `compute_control`. */
    method Follow(agent: AgentState, waypoint: Point, dt: real, lib: Builtins)
      returns (newX: real, newY: real, mode: Mode, reason: Reason)
      modifies agent
      ensures var d := FollowDecision(env, old(agent.View()), waypoint, dt, lib);
        agent.View() == Applied(old(agent.View()), d) &&
        newX == d.newX && newY == d.newY && mode == d.mode && reason == d.reason
    {
      ghost var v0 := agent.View();
      ghost var d := FollowDecision(env, v0, waypoint, dt, lib);
      var wx, wy := waypoint.x, waypoint.y;
      var targetTheta := AngleTo(lib, agent.x, agent.y, wx, wy);
      var distToWp := Distance(lib, agent.x, agent.y, wx, wy);
      var speed := agent.speed;
      if distToWp < SlowRadius {
        speed := Max(MinSpeed, speed * SlowFactor);
      }
      var steer := SteerAt(lib, targetTheta, speed);
      assert d.steer == Some(steer);
      var m := if distToWp > ArriveRadius then Navigating else Arrived;
      newX := Clamp(agent.x + steer.vx * dt, 0.0, env.width);
      newY := Clamp(agent.y + steer.vy * dt, 0.0, env.height);
      assert d.newX == newX && d.newY == newY && d.mode == m;
      var entries := if m == Arrived then [ArrivedMessage(lib, waypoint)] else [];
      assert d.logged == entries;
      agent.heading, agent.vx, agent.vy, agent.mode, agent.log :=
        steer.heading, steer.vx, steer.vy, m, agent.log + entries;
      assert agent.View() == Applied(v0, d);
      return newX, newY, agent.mode, FollowWp;
    }
  }
}
