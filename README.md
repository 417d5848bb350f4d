# Fleet autonomy demo: agent decision and mission stepping in Dafny

This project models the core of a small fleet-simulation demo. Agents move on a
`width x height` map with circular obstacles. Each follows its own ordered
waypoint list and takes two injected failures: a sensor dropout and a
communications loss.

The model covers four source files:

- `autonomy.py`: the per-agent controller `compute_control`. It checks the
  sensor first. Then it scans the obstacles in list order and steers away from
  the first one in range. Otherwise it follows the waypoint, slowing down near
  it, and clamps every new position into the map.
- `app.py`, the synchronous mission loop only: failure injection keyed on the
  step index; choosing the first waypoint that is not yet reached; the
  all-reached and lost-comms overrides; applying the controller's position;
  the step-stamped log line.
- `simulation.py`: the `AgentState` record, `to_dict`, `step`,
  `move_towards_target`, the obstacle generator and `create_fleet`.
- `utils.py`: the waypoint lists.

## How the model is built

- Modules follow the source files: `Simulation`, `Autonomy`, `Utils` and
  `Mission` (the loop in `app.py`). Three small helper modules sit beside
  them: `Optional` (None-or-value), `Random` (numpy's `uniform` over a stream
  of samples) and `Strings` (`str(n)` and `str.join`).
- `AgentState` is a class whose fields the methods update in place.
  `View()` gives all its fields as one `AgentView` value. `Autonomy` is a class
  holding the environment and the avoidance radius. `MissionState` holds the
  session: agents, waypoints, controller, step counter and run flag.
- Every state-changing method is proved against a pure function of the old
  state:
  - `ComputeControl` against `Decide` and `Applied`;
  - `ProcessAgent` and `Frame` against `AgentFrame`;
  - `Run` against `Frames` and `EndFrame`.
  The lemmas state the source's promises about those functions.
- Floats are Dafny `real`s. `math.atan2`, `math.cos`, `math.sin`, `math.hypot`
  and the `:.1f` format are not defined here. They are passed in as the
  function values of a `Builtins` record, so every proof holds for any
  implementation of them.
  - Each distance test therefore reads like the source. The proximity test is
    `hypot(dx, dy) < r + avoid_rad`, strict. The slow-down test is `< 3.0`.
    The arrival test is `> 0.5`.
- Random numbers come from a stream of unit samples, `draws: nat -> real`.
  `uniform(lo, hi)` is `lo + (hi - lo) * u`, which is numpy's definition. Where
  a bound is proved, the only assumption is that every sample lies in [0, 1).
  - The session is given `streamOf`, the stream of `RandomState(k)` for every
    valid seed `k`. `Environment` gets `streamOf(seed)`.
  - `create_fleet` gets numpy's global generator, given as a stream and a
    starting position.
  - The waypoint planner gets `streamOf(1234)`, whatever the environment's
    seed is.
- The Stop button is an input. `stopSeen(s)` says that the run flag was found
  cleared after frame `s`. The sidebar's failure settings are a `Failures`
  value, and the frame budget is `steps`.

Behaviour of the code worth knowing:

- The avoidance speed is `clamp(speed, 0.2, speed)`, which is
  `max(0.2, speed)`. It is never below 0.2. For an agent slower than 0.2 it is
  above the agent's own speed. Nothing in the core ever sets `speed`, so it
  stays 0.0: avoidance moves at 0.2, and following moves at 0.2 within 3.0 of
  the waypoint and not at all farther out.
- An agent is `arrived` when its distance to the waypoint is at most 0.5,
  including exactly 0.5. Inside the mission loop this outcome, and its
  "Arrived at waypoint" entry, cannot happen whenever `hypot(a, b)` is at
  least |a| and at least |b|: the loop only hands the controller a waypoint
  more than 1.5 away on some axis (`Mission.ControlledNeverArrives`). The loop's own all-reached override
  sets `arrived` instead.
- The mission loop does not append to the trajectory. Only
  `move_towards_target` does. Its one caller is `step`, and nothing in the
  program calls `step`.
- No count is validated. Counts are natural numbers here; the sliders
  that supply them start at 2 (agents), 0 (obstacles) and 50 (frames).
- The controller writes mode, heading, velocity and log into the agent itself.
  It does not return a record for the caller to apply.
- The loop stores in `step` the index of the frame it is running. After a full
  run, `step` is `steps - 1`. A restart therefore runs that last frame again
  (see `Mission.MissionState.Run`).

## Model

| member | source | states |
|---|---|---|
| `Random.Uniform` | simulation.py:57-59 | a uniform draw from a unit sample lies in [lo, hi] whenever lo <= hi; sample 0 gives lo |
| `Strings.NatToString` | simulation.py:71 | `str(n)`: at least one character, all of them decimal digits, one digit exactly for n < 10, the last digit is n mod 10 |
| `Strings.NatToStringInjective` | simulation.py:71 | different numbers give different strings |
| `Strings.Join` | simulation.py:35 | `sep.join(parts)`: empty for no part, the part itself for one, parts separated by `sep` otherwise |
| `Simulation.InitialView` | simulation.py:12-23 | a new agent's fields: the given id and position, zero velocity, speed and heading, mode idle, no target, empty log, trajectory [(x, y)] |
| `Simulation.Recent` | simulation.py:35 | `log[-5:]`: min(5, len) entries, and they are the end of the log |
| `Simulation.RecentAfterAppend` | simulation.py:35 | the recent window grows with each entry until it holds five; after that each new entry pushes out the oldest |
| `Simulation.AgentState.constructor` | simulation.py:12-23 | a new agent has the given id and position, zero velocity, speed and heading, mode idle, no target, an empty log and the trajectory [(x, y)] |
| `Simulation.AgentState.ToDict` | simulation.py:25-36 | copies id, x, y, vx, vy, speed and heading and the mode's name; its log is the last at most 5 entries joined by " \| " (empty for no entry, the entry itself for one) |
| `Simulation.AgentState.Step` | simulation.py:38-40 | does nothing without a target; with one, appends the current position to the trajectory |
| `Simulation.AgentState.MoveTowardsTarget` | simulation.py:42-45 | appends the current position to the trajectory: one entry longer, earlier entries unchanged, no other field changes |
| `Simulation.ObstacleAt` | simulation.py:57-60 | obstacle i of a batch: x = uniform(10, w-10), y = uniform(10, h-10), r = uniform(3, 8), on samples pos+3i, pos+3i+1, pos+3i+2 |
| `Simulation.Obstacles` | simulation.py:56-60 | the n obstacles of a batch, in draw order |
| `Simulation.GenObstacles` | simulation.py:54-61 | exactly n obstacles; obstacle i takes samples pos+3i, pos+3i+1, pos+3i+2 for x, y, r; the generator advances by 3n |
| `Simulation.ObstaclesInterior` | simulation.py:57-59 | with unit samples on a map at least 20 each way, every centre lies within [10, dim-10] and every radius within [3, 8] |
| `Simulation.NewEnvironment` | simulation.py:48-52 | the environment keeps width and height, and its obstacles are exactly the n drawn from the start of the seeded stream, so equal inputs give equal obstacles |
| `Simulation.AgentId` | simulation.py:71 | the id `f"Agent_{i+1}"` of fleet index i |
| `Simulation.SpawnAt` | simulation.py:69-70 | agent i's start: x = uniform(5, w-5), y = uniform(5, h-5), on samples pos+2i and pos+2i+1 |
| `Simulation.AgentIdsDistinct` | simulation.py:71 | "Agent_1", "Agent_2", ... are pairwise different |
| `Simulation.SpawnInterior` | simulation.py:69-70 | with unit samples on a map at least 10 each way, each agent starts inside [5, dim-5] on both axes |
| `Simulation.CreateFleet` | simulation.py:66-72 | n fresh, distinct agents in index order; agent i has id "Agent_(i+1)" and is a new `AgentState` at its two drawn coordinates; the global generator advances by 2n |
| `Autonomy.Distance` | autonomy.py:9-10 | `distance`: `hypot` of the coordinate differences, first point minus second |
| `Autonomy.AngleTo` | autonomy.py:12-13 | `angle_to`: `atan2` of the second point minus the first, y before x |
| `Autonomy.Max` | autonomy.py:16 | `max(a, b)`: at least both arguments and equal to one of them |
| `Autonomy.Clamp` | autonomy.py:15-16 | for lo <= hi the result lies in [lo, hi]; a value inside is unchanged; a value below gives lo, one above gives hi |
| `Autonomy.NearObstacle` | autonomy.py:44-45 | the strict proximity test: distance to the centre < r + avoid_rad |
| `Autonomy.FirstNear` | autonomy.py:43-45 | the first obstacle in list order for which the strict test distance < r + avoid_rad holds: it fires, every earlier one does not; none fires exactly when the answer is None |
| `Autonomy.FirstNearIgnoresLater` | autonomy.py:43-62 | no obstacle after the first one that fires is examined: replacing all of them leaves the choice unchanged |
| `Autonomy.AvoidSpeed` | autonomy.py:51 | the avoidance speed clamp(speed, 0.2, speed) is max(0.2, speed), never below 0.2 |
| `Autonomy.FollowSpeed` | autonomy.py:65-68 | the nominal speed from distance 3.0 on; closer in, max(0.2, 0.3 * speed) |
| `Autonomy.FollowMode` | autonomy.py:72 | navigating exactly when the distance is above 0.5, arrived exactly when it is at most 0.5 |
| `Autonomy.SteerAt` | autonomy.py:52-54 | the heading written as is, velocity (cos, sin)(heading) * speed; the follow branch writes the same at 69-71 |
| `Autonomy.Advance` | autonomy.py:57-61 | the new position: old plus velocity * dt, clamped into [0, w] x [0, h]; the follow branch does the same at 73-77 |
| `Autonomy.AvoidMessage` | autonomy.py:56 | "Obstacle near (x,y) -> avoiding" with both coordinates formatted to one decimal |
| `Autonomy.ArrivedMessage` | autonomy.py:79 | "Arrived at waypoint (x,y)" with both coordinates formatted to one decimal |
| `Autonomy.AvoidDecision` | autonomy.py:43-62 | the avoid branch for the obstacle that fired: heading 0.3 * target bearing + 0.7 * away bearing at speed clamp(speed, 0.2, speed), the clamped move, mode avoiding, reason avoid_obstacle, one "Obstacle near" entry |
| `Autonomy.FollowDecision` | autonomy.py:64-80 | the follow branch: heading the target bearing at the shaped speed, the clamped move, navigating or arrived at 0.5, reason follow_wp, the "Arrived at waypoint" entry only when arrived |
| `Autonomy.Decide` | autonomy.py:23-80 | the whole decision: the sensor check first, then the first obstacle that fires, else the waypoint |
| `Autonomy.Applied` | autonomy.py:52-56 | the controller writes only mode, log (appending its entries) and, except on sensor dropout, heading and velocity; id, position, speed, target and trajectory stay |
| `Autonomy.DecideSensorDropout` | autonomy.py:31-35 | with the sensor down: the current position, mode safe_mode, reason sensor_dropout, exactly the entry "Sensor dropout -> safe_mode (stop)", heading and velocity untouched, whatever obstacles are near |
| `Autonomy.DecideAvoid` | autonomy.py:43-62 | with an obstacle firing: mode avoiding, reason avoid_obstacle, heading 0.3 * target bearing + 0.7 * away bearing, speed max(0.2, speed) >= 0.2, velocity (cos, sin)(heading) * speed, clamped new position, one "Obstacle near (...)" entry |
| `Autonomy.DecideFollow` | autonomy.py:64-80 | with no obstacle firing: reason follow_wp, heading the target bearing, full speed from 3.0 away and max(0.2, 0.3 * speed) closer in, clamped new position, mode navigating iff distance > 0.5 and otherwise arrived, one "Arrived at waypoint (...)" entry only when arrived |
| `Autonomy.DecideInBounds` | autonomy.py:57-77 | for width, height >= 0 every moved position lies in [0, width] x [0, height], and an agent inside the map stays inside |
| `Autonomy.DecideIgnoresLaterObstacles` | autonomy.py:43-62 | the whole decision is unchanged when every obstacle after the first one that fires is replaced |
| `Autonomy.AvoidBlendExample` | autonomy.py:47-50 | agent (0,0), waypoint (10,0), obstacle (5,0) radius 2, radius 10: avoidance fires and the heading is 0.7 * pi when the bearings are 0 and pi |
| `Autonomy.Autonomy.constructor` | autonomy.py:19-21 | keeps the environment and the avoidance radius |
| `Autonomy.Autonomy.ComputeControl` | autonomy.py:23-80 | the agent's new state is `Applied(old state, Decide(...))` and the result is Decide's (new_x, new_y, mode, reason); x and y are never written; the returned mode is the agent's mode afterwards |
| `Autonomy.Autonomy.Avoid` | autonomy.py:47-62 | the avoid branch writes and returns what `AvoidDecision` gives for the obstacle that fired |
| `Autonomy.Autonomy.Follow` | autonomy.py:64-80 | the follow branch writes and returns what `FollowDecision` gives for the waypoint |
| `Utils.WaypointAt` | utils.py:14 | waypoint j of agent i: x = uniform(5, w-5) on sample 2(i * n_waypoints + j), y = uniform(5, h-5) on the next one |
| `Utils.WaypointPlan` | utils.py:9-16 | n_agents lists of n_waypoints points each |
| `Utils.GenerateWaypointsForAgents` | utils.py:7-16 | builds exactly the plan: waypoint j of agent i takes samples 2(i * n_waypoints + j) and the next one, x then y |
| `Utils.WaypointsInterior` | utils.py:14 | with unit samples on a map at least 10 each way, every waypoint lies in [5, w-5] x [5, h-5] |
| `Utils.WaypointPlanPrefix` | utils.py:10-15 | the plan for k agents is the first k lists of the plan for k + 1 agents |
| `Mission.SensorDown` | app.py:239-241 | `sensor_ok` is false exactly when a dropout agent is chosen, it is this agent and the step has reached the dropout step |
| `Mission.CommsDown` | app.py:243-245 | `comms_ok` is false exactly when a comms-loss agent is chosen, it is this agent and the step has reached the loss step |
| `Mission.FailuresAreOneWay` | app.py:239-245 | sensor dropout and comms loss, once active at a step, stay active at every later step |
| `Mission.FailureHitsOneAgent` | app.py:239-245 | in a fleet from create_fleet each failure is active for at most one agent |
| `Mission.Abs` | app.py:255 | `abs`: non-negative, and equal to the value or its negation |
| `Mission.FirstUnreached` | app.py:253-257 | the first waypoint with \|x-wx\| > 1.5 or \|y-wy\| > 1.5; every earlier one is within 1.5 on both axes; None exactly when all are |
| `Mission.Unreached` | app.py:255 | a waypoint counts as not reached when the agent is more than 1.5 from it on x or on y |
| `Mission.TargetWaypoint` | app.py:253-257 | the target is the first unreached waypoint of the list, None when all are reached |
| `Mission.StepLine` | app.py:276-282 | the step-stamped line for each reason, with the frame index in decimal |
| `Mission.AgentFrame` | app.py:234-282 | one agent's frame: comms failure marking, the all-reached override, holding on lost comms, else the controller's decision applied, its position taken and the step line logged |
| `Mission.ReachedToleranceExample` | app.py:255 | an agent at (9,0) has reached (10,0), so the next waypoint is the target |
| `Mission.FrameAllReached` | app.py:258-262 | with all waypoints reached: position and heading kept, mode arrived (overriding lost_comms), vx = vy = 0, only the "Lost communications" entry logged if comms are down |
| `Mission.FrameCommsLost` | app.py:243-267 | comms lost with a waypoint left: only mode lost_comms and the entries "Lost communications", "Comms lost -> holding position" change; the controller is not called |
| `Mission.FrameControlled` | app.py:269-282 | otherwise the agent takes the controller's position and mode, and its log is followed by exactly one step-stamped line for the reason; the reason is sensor_dropout exactly when the sensor is down |
| `Mission.ControlledNeverArrives` | app.py:253-282 | for any `hypot` at least as large as each coordinate difference, the controller called from the loop never reports arrived and never logs "Arrived at waypoint": the waypoint it gets is more than 1.5 away on some axis |
| `Mission.Frames` | app.py:231-282 | frames `from` up to `to - 1` applied one after the other to one agent |
| `Mission.FramesSnoc` | app.py:231-232 | running frames up to `to + 1` is running them up to `to` and then frame `to`: the loop's range grows one frame at a time |
| `Mission.FrameKeepsRecord` | app.py:234-282 | a frame keeps id, speed, target and trajectory and only appends to the log |
| `Mission.FramesKeepRecord` | app.py:231-282 | the same over any number of frames |
| `Mission.FramesInBounds` | app.py:269-274 | an agent inside the map stays inside through every frame |
| `Mission.FramesFrozenAfterFailure` | app.py:239-274 | once its sensor has dropped out or its comms are lost, an agent keeps its position in every later frame |
| `Mission.FramesStayArrived` | app.py:253-262 | an agent that has reached all its waypoints stays put, arrived with zero velocity, in every later frame |
| `Mission.EndFrame` | app.py:348-352 | the loop runs from s up to steps - 1 and stops after the first frame at which the stop flag is seen; no earlier frame saw it |
| `Mission.EndFrameAt` | app.py:348-349 | the loop ends at e exactly when no frame before e - 1 saw the stop flag and either frame e - 1 saw it or e is the frame budget |
| `Mission.MissionState.constructor` | app.py:36-42 | a fresh session: 100 x 100 map with the obstacles drawn from the stream of the chosen seed, the fleet, three waypoints per agent drawn from the stream of seed 1234 whatever the chosen seed, avoidance radius 10, step 0, not running |
| `Mission.MissionState.SelectWaypoint` | app.py:253-257 | the scan returns the first unreached waypoint; it is in the list and unreached; None exactly when all are reached |
| `Mission.MissionState.ProcessAgent` | app.py:235-282 | the agent's new state is `AgentFrame` of its old state |
| `Mission.MissionState.Frame` | app.py:234-282 | every agent, independently of the others, becomes `AgentFrame` of its old state |
| `Mission.MissionState.NextFrame` | app.py:231-282 | one more frame takes each agent from `Frames` up to `s` to `Frames` up to `s + 1` |
| `Mission.MissionState.Loop` | app.py:231-349 | runs frames from the stored step up to EndFrame, breaking after the first frame that saw the stop flag; each agent ends in `Frames` of its old state |
| `Mission.MissionState.Run` | app.py:229-232 | when running: frames from the stored step to EndFrame run, each agent ends in `Frames` of its old state, `step` holds the last frame's index, and the mission is not running afterwards (app.py:348-352) |

## Left out

- The whole Streamlit and Plotly interface: sidebar widgets, figures, click
  events, the zoom view and the floorplan image (app.py:13-226, 284-345).
  The Start and Stop buttons are reduced to the run flag and `stopSeen`.
- The re-creation when the agent or obstacle count changes (app.py:45-51). It
  builds the same session the constructor builds; only what triggers it
  differs, and that is UI glue.
- `time.sleep(step_delay)`: a wall-clock delay.
- numpy's generator internals: streams are given as sequences of unit samples.
- IEEE float behaviour. `1 - 0.7` is exactly 0.3 here. The values of `atan2`,
  `cos`, `sin`, `hypot` and `:.1f` are left open, so nothing is proved about
  them. The source comment that calls `heading` degrees while it holds
  `atan2` radians is not reflected.
- `obstacles_df` (simulation.py:63-64), a pandas table of the obstacle list,
  and `state_snapshot` (simulation.py:74-75), a pandas table of each agent's
  `to_dict`.
- An agent list longer than its waypoint list would make Python raise
  IndexError. `MissionState.Valid` requires one list per agent; both are
  built with the same count.
- Mission.MissionState.constructor: requires a seed in [0, 2^32). For any
  other seed `np.random.RandomState(seed)` (simulation.py:51) raises
  ValueError and no session is built; the seed box (app.py:22) does not
  prevent it, and that error path is not modelled.
- Parallel execution: the code is single-threaded and the model is too.
