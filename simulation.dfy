/** simulation.py: the agent record, the obstacle field and the fleet builder. */
module Simulation {
  import opened Optional
  import opened Random
  import opened Strings

  datatype Point = Point(x: real, y: real)

  /** The mode labels an agent can carry; `Name` is the string the program stores. */
  datatype Mode = Idle | Navigating | Avoiding | SafeMode | LostComms | Arrived {
    function Name(): string {
      match this
      case Idle => "idle"
      case Navigating => "navigating"
      case Avoiding => "avoiding"
      case SafeMode => "safe_mode"
      case LostComms => "lost_comms"
      case Arrived => "arrived"
    }
  }

  /** The value of every field of an `AgentState` at one moment. */
  datatype AgentView = AgentView(
    id: string, x: real, y: real, vx: real, vy: real, speed: real, heading: real,
    mode: Mode, target: Option<Point>, log: seq<string>, traj: seq<Point>)

  /** What `AgentState.__init__` leaves behind. */
  function InitialView(agentId: string, x: real, y: real): AgentView {
    AgentView(agentId, x, y, 0.0, 0.0, 0.0, 0.0, Idle, None, [], [Point(x, y)])
  }

  /** The dictionary `to_dict` returns. */
  datatype AgentDict = AgentDict(
    id: string, x: real, y: real, vx: real, vy: real, speed: real, heading: real,
    mode: string, log: string)

  const RecentLogSize := 5
  const LogSeparator := " | "

  /** `log[-5:]`: the newest entries, at most five of them, oldest first. */
  function Recent(log: seq<string>): (r: seq<string>)
    ensures |r| == if |log| < RecentLogSize then |log| else RecentLogSize
    ensures log == log[..|log| - |r|] + r
  {
    if |log| < RecentLogSize then log else log[|log| - RecentLogSize..]
  }

  /** Once the log holds five entries, a new entry pushes out the oldest one
      from the recent window. */
  lemma RecentAfterAppend(log: seq<string>, e: string)
    ensures |log| < RecentLogSize ==> Recent(log + [e]) == log + [e]
    ensures |log| >= RecentLogSize ==> Recent(log + [e]) == Recent(log)[1..] + [e]
  {
    var l := log + [e];
    if |log| >= RecentLogSize {
      assert l[|l| - RecentLogSize..] == log[|log| - RecentLogSize..][1..] + [e];
    }
  }

  class AgentState {
    var id: string
    var x: real
    var y: real
    var vx: real
    var vy: real
    var speed: real
    var heading: real
    var mode: Mode
    var target: Option<Point>
    var log: seq<string>
    var traj: seq<Point>

    function View(): AgentView
      reads this
    {
      AgentView(id, x, y, vx, vy, speed, heading, mode, target, log, traj)
    }

    constructor (agentId: string, x0: real, y0: real)
      ensures View() == InitialView(agentId, x0, y0)
    {
      id := agentId;
      x := x0;
      y := y0;
      vx := 0.0;
      vy := 0.0;
      speed := 0.0;
      heading := 0.0;
      mode := Idle;
      target := None;
      log := [];
      traj := [Point(x0, y0)];
    }

    /** The snapshot row of this agent: every scalar copied, the mode by its
        name, and the last five log entries joined by " | ". */
    function ToDict(): (d: AgentDict)
      reads this
      ensures d.id == id && d.x == x && d.y == y && d.vx == vx && d.vy == vy
      ensures d.speed == speed && d.heading == heading && d.mode == mode.Name()
      ensures d.log == Join(Recent(log), LogSeparator)
      ensures |log| == 0 ==> d.log == ""
      ensures |log| == 1 ==> d.log == log[0]
    {
      AgentDict(id, x, y, vx, vy, speed, heading, mode.Name(), Join(Recent(log), LogSeparator))
    }

    /** Moves only when a target is set; otherwise nothing changes. */
    method Step(env: Environment)
      modifies this
      ensures old(target).None? ==> View() == old(View())
      ensures old(target).Some? ==> View() == old(View()).(traj := old(traj) + [Point(old(x), old(y))])
    {
      if target.Some? {
        MoveTowardsTarget(env);
      }
    }

    /** Records the current position at the end of the trajectory; no other
        field changes. */
    method MoveTowardsTarget(env: Environment)
      modifies this
      ensures View() == old(View()).(traj := old(traj) + [Point(old(x), old(y))])
      ensures |traj| == |old(traj)| + 1 && traj[..|old(traj)|] == old(traj)
    {
      traj := traj + [Point(x, y)];
    }
  }

  datatype Obstacle = Obstacle(x: real, y: real, r: real)

  /** The rectangle [0, width] x [0, height] and its obstacles, fixed after
      construction. */
  datatype Environment = Environment(width: real, height: real, obstacles: seq<Obstacle>)

  const ObstacleMargin := 10.0
  const MinObstacleRadius := 3.0
  const MaxObstacleRadius := 8.0

  /** Obstacle `i` of a batch drawn from position `pos`: three samples each,
      in the order x, y, r. */
  function ObstacleAt(width: real, height: real, draws: Stream, pos: nat, i: nat): Obstacle {
    Obstacle(
      Uniform(ObstacleMargin, width - ObstacleMargin, draws(pos + 3 * i)),
      Uniform(ObstacleMargin, height - ObstacleMargin, draws(pos + 3 * i + 1)),
      Uniform(MinObstacleRadius, MaxObstacleRadius, draws(pos + 3 * i + 2)))
  }

  /** Obstacles `n` consecutive draws from `pos` produce. */
  function Obstacles(width: real, height: real, n: nat, draws: Stream, pos: nat): (obs: seq<Obstacle>)
    ensures |obs| == n
  {
    seq(n, i requires 0 <= i => ObstacleAt(width, height, draws, pos, i))
  }

  /** `Environment._gen_obstacles`: the environment's generator starts at
      `pos` and ends `3 * n` samples further on. */
  method GenObstacles(width: real, height: real, n: nat, draws: Stream, pos: nat)
    returns (obs: seq<Obstacle>, next: nat)
    ensures obs == Obstacles(width, height, n, draws, pos)
    ensures next == pos + 3 * n
  {
    obs := [];
    next := pos;
    for i := 0 to n
      invariant |obs| == i && next == pos + 3 * i
      invariant forall k :: 0 <= k < i ==> obs[k] == ObstacleAt(width, height, draws, pos, k)
    {
      var ox := Uniform(ObstacleMargin, width - ObstacleMargin, draws(next));
      var oy := Uniform(ObstacleMargin, height - ObstacleMargin, draws(next + 1));
      var r := Uniform(MinObstacleRadius, MaxObstacleRadius, draws(next + 2));
      obs := obs + [Obstacle(ox, oy, r)];
      next := next + 3;
    }
  }

  /** With unit samples and a map at least 20 wide and high, every obstacle
      centre lies in the padded interior and every radius in [3, 8]. */
  lemma ObstaclesInterior(width: real, height: real, n: nat, draws: Stream, pos: nat)
    requires width >= 2.0 * ObstacleMargin && height >= 2.0 * ObstacleMargin
    requires UnitStream(draws)
    ensures forall o :: o in Obstacles(width, height, n, draws, pos) ==>
      ObstacleMargin <= o.x <= width - ObstacleMargin &&
      ObstacleMargin <= o.y <= height - ObstacleMargin &&
      MinObstacleRadius <= o.r <= MaxObstacleRadius
  {
    var obs := Obstacles(width, height, n, draws, pos);
    forall i | 0 <= i < n
      ensures ObstacleMargin <= obs[i].x <= width - ObstacleMargin
      ensures ObstacleMargin <= obs[i].y <= height - ObstacleMargin
      ensures MinObstacleRadius <= obs[i].r <= MaxObstacleRadius
    {
      assert 0.0 <= draws(pos + 3 * i) < 1.0 && 0.0 <= draws(pos + 3 * i + 1) < 1.0;
      assert 0.0 <= draws(pos + 3 * i + 2) < 1.0;
    }
  }

  /** `Environment(width, height, n_obstacles, seed)`: `draws` is the stream of
      `RandomState(seed)`, so equal inputs give equal obstacle lists. */
  method NewEnvironment(width: real, height: real, nObstacles: nat, draws: Stream)
    returns (env: Environment)
    ensures env.width == width && env.height == height
    ensures env.obstacles == Obstacles(width, height, nObstacles, draws, 0)
  {
    var obs, _ := GenObstacles(width, height, nObstacles, draws, 0);
    env := Environment(width, height, obs);
  }

  const SpawnMargin := 5.0

  /** The id of the agent at fleet index `i`: "Agent_" followed by `i + 1`. */
  function AgentId(i: nat): string {
    "Agent_" + NatToString(i + 1)
  }

  lemma AgentIdsDistinct(i: nat, j: nat)
    requires i != j
    ensures AgentId(i) != AgentId(j)
  {
    var a, b := NatToString(i + 1), NatToString(j + 1);
    if a == b {
      NatToStringInjective(i + 1, j + 1);
    }
    PrefixCancel("Agent_", a, b);
  }

  /** A common prefix can be cancelled from two equal strings. */
  lemma PrefixCancel(p: string, a: string, b: string)
    ensures p + a == p + b ==> a == b
  {
    if p + a == p + b {
      assert a == (p + a)[|p|..];
      assert b == (p + b)[|p|..];
    }
  }

  /** Where agent `i` of a fleet drawn from position `pos` starts: two samples
      each, x then y. */
  function SpawnAt(env: Environment, draws: Stream, pos: nat, i: nat): Point {
    Point(Uniform(SpawnMargin, env.width - SpawnMargin, draws(pos + 2 * i)),
          Uniform(SpawnMargin, env.height - SpawnMargin, draws(pos + 2 * i + 1)))
  }

  /** With unit samples and a map at least 10 wide and high, every agent
      starts inside [5, width - 5] x [5, height - 5]. */
  lemma SpawnInterior(env: Environment, draws: Stream, pos: nat, i: nat)
    requires env.width >= 2.0 * SpawnMargin && env.height >= 2.0 * SpawnMargin
    requires UnitStream(draws)
    ensures SpawnMargin <= SpawnAt(env, draws, pos, i).x <= env.width - SpawnMargin
    ensures SpawnMargin <= SpawnAt(env, draws, pos, i).y <= env.height - SpawnMargin
  {
    assert 0.0 <= draws(pos + 2 * i) < 1.0 && 0.0 <= draws(pos + 2 * i + 1) < 1.0;
  }

  /** `create_fleet`: `nAgents` fresh, distinct agents in id order, each a new
      `AgentState` at its drawn position; numpy's global generator advances
      from `pos` by two samples per agent. */
  method CreateFleet(nAgents: nat, env: Environment, draws: Stream, pos: nat)
    returns (agents: seq<AgentState>, next: nat)
    ensures |agents| == nAgents && next == pos + 2 * nAgents
    ensures forall i :: 0 <= i < nAgents ==> fresh(agents[i])
    ensures forall i, j :: 0 <= i < j < nAgents ==> agents[i] != agents[j]
    ensures forall i :: 0 <= i < nAgents ==>
      var p := SpawnAt(env, draws, pos, i);
      agents[i].View() == InitialView(AgentId(i), p.x, p.y)
  {
    agents := [];
    next := pos;
    for i := 0 to nAgents
      invariant |agents| == i && next == pos + 2 * i
      invariant forall k :: 0 <= k < i ==> fresh(agents[k])
      invariant forall k, l :: 0 <= k < l < i ==> agents[k] != agents[l]
      invariant forall k :: 0 <= k < i ==>
        var p := SpawnAt(env, draws, pos, k);
        agents[k].View() == InitialView(AgentId(k), p.x, p.y)
    {
      var x := Uniform(SpawnMargin, env.width - SpawnMargin, draws(next));
      var y := Uniform(SpawnMargin, env.height - SpawnMargin, draws(next + 1));
      var a := new AgentState(AgentId(i), x, y);
      agents := agents + [a];
      next := next + 2;
    }
  }
}
