/** utils.py: the per-agent waypoint lists. */
module Utils {
  import opened Random
  import opened Simulation

  const WaypointMargin := 5.0
  /** The waypoint generator is always `RandomState(1234)`, whatever the
      environment's seed; `draws` below stands for that stream, and the
      session constructor passes the stream of this seed. */
  const WaypointSeed := 1234

  /** Position in the stream of the x sample of waypoint `j` of agent `i`
      (two samples per waypoint, agent by agent). */
  function WaypointIndex(nWaypoints: nat, i: nat, j: nat): nat {
    2 * (i * nWaypoints + j)
  }

  function WaypointAt(width: real, height: real, nWaypoints: nat, draws: Stream, i: nat, j: nat): Point {
    var k := WaypointIndex(nWaypoints, i, j);
    Point(Uniform(WaypointMargin, width - WaypointMargin, draws(k)),
          Uniform(WaypointMargin, height - WaypointMargin, draws(k + 1)))
  }

  /** The list of lists `generate_waypoints_for_agents` builds. */
  function WaypointPlan(nAgents: nat, width: real, height: real, nWaypoints: nat, draws: Stream)
    : (plan: seq<seq<Point>>)
    ensures |plan| == nAgents
    ensures forall i :: 0 <= i < nAgents ==> |plan[i]| == nWaypoints
  {
    seq(nAgents, i requires 0 <= i =>
      seq(nWaypoints, j requires 0 <= j => WaypointAt(width, height, nWaypoints, draws, i, j)))
  }

  /** `generate_waypoints_for_agents`: `nAgents` lists of `nWaypoints` points,
      drawn x then y per point from a fresh `RandomState(1234)`. */
  method GenerateWaypointsForAgents(nAgents: nat, envWidth: real, envHeight: real, nWaypoints: nat, draws: Stream)
    returns (allWps: seq<seq<Point>>)
    ensures allWps == WaypointPlan(nAgents, envWidth, envHeight, nWaypoints, draws)
  {
    ghost var plan := WaypointPlan(nAgents, envWidth, envHeight, nWaypoints, draws);
    allWps := [];
    var pos: nat := 0;
    for i := 0 to nAgents
      invariant |allWps| == i && pos == WaypointIndex(nWaypoints, i, 0)
      invariant forall k :: 0 <= k < i ==> allWps[k] == plan[k]
    {
      var wps := [];
      for j := 0 to nWaypoints
        invariant |wps| == j && pos == WaypointIndex(nWaypoints, i, j)
        invariant forall l :: 0 <= l < j ==> wps[l] == WaypointAt(envWidth, envHeight, nWaypoints, draws, i, l)
      {
        var x := Uniform(WaypointMargin, envWidth - WaypointMargin, draws(pos));
        var y := Uniform(WaypointMargin, envHeight - WaypointMargin, draws(pos + 1));
        wps := wps + [Point(x, y)];
        pos := pos + 2;
      }
      assert (i + 1) * nWaypoints == i * nWaypoints + nWaypoints;
      assert wps == plan[i];
      allWps := allWps + [wps];
    }
  }

  /** With unit samples and a map at least 10 wide and high, every waypoint
      lies in [5, width - 5] x [5, height - 5]. */
  lemma WaypointsInterior(nAgents: nat, width: real, height: real, nWaypoints: nat, draws: Stream)
    requires width >= 2.0 * WaypointMargin && height >= 2.0 * WaypointMargin
    requires UnitStream(draws)
    ensures var plan := WaypointPlan(nAgents, width, height, nWaypoints, draws);
      forall i, j :: 0 <= i < nAgents && 0 <= j < nWaypoints ==>
        WaypointMargin <= plan[i][j].x <= width - WaypointMargin &&
        WaypointMargin <= plan[i][j].y <= height - WaypointMargin
  {
    var plan: seq<seq<Point>> := WaypointPlan(nAgents, width, height, nWaypoints, draws);
    forall i: int, j: int | 0 <= i < nAgents && 0 <= j < nWaypoints
      ensures WaypointMargin <= plan[i][j].x <= width - WaypointMargin
      ensures WaypointMargin <= plan[i][j].y <= height - WaypointMargin
    {
      var k := WaypointIndex(nWaypoints, i, j);
      assert 0.0 <= draws(k) < 1.0 && 0.0 <= draws(k + 1) < 1.0;
    }
  }

  /** Because the stream always restarts from seed 1234 and is consumed agent
      by agent, the lists for `k` agents are the first `k` lists for `k + 1`
      agents: adding an agent never changes the others' waypoints. */
  lemma WaypointPlanPrefix(k: nat, width: real, height: real, nWaypoints: nat, draws: Stream)
    ensures WaypointPlan(k, width, height, nWaypoints, draws) ==
            WaypointPlan(k + 1, width, height, nWaypoints, draws)[..k]
  {
    var small := WaypointPlan(k, width, height, nWaypoints, draws);
    var big := WaypointPlan(k + 1, width, height, nWaypoints, draws);
    assert forall i :: 0 <= i < k ==> small[i] == big[i];
  }
}
