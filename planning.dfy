/**
 * The PLAN_TRAJECTORY state: the obstacles handed to the planner are one
 * circle per neighbour robot, in robot-index order, followed by one
 * rectangle for the box. The planner itself is foreign and is a parameter.
 *
 * Defects of the source that this model corrects to the evident intent:
 * - the box subscriber is stored as `boxstate` (statemachine.py:191) but
 *   read as `box_state` (215-217); here it is the `box` parameter.
 * - the circle built from the neighbour's position (207) is discarded and
 *   a default `CircularObstacle()` is added instead (209); here the circle
 *   built from the neighbour's position is the one added.
 * - `execute` ends at a TODO without calling the planner or returning an
 *   outcome (221); here it calls `plan` on the collected obstacles and
 *   returns `path_found` with the path, or `plan_failed`.
 */
module Planning {
  import opened Common

  datatype Obstacle =
    | Circular(radius: real, x: real, y: real)
    | Rectangular(length: real, width: real, x: real, y: real, theta: real)

  /** The configuration read by the state: `robot_radius` and `box` length and width. */
  datatype PlannerParams = PlannerParams(robotRadius: real, boxLength: real, boxWidth: real)

  /** The circle that stands for a neighbour robot: its position and the robot radius. */
  function RobotObstacle(radius: real, robot: Odometry): Obstacle
  {
    Circular(radius, robot.x, robot.y)
  }

  /** The rectangle that stands for the box: its pose and its configured size. */
  function BoxObstacle(params: PlannerParams, box: BoxPose): Obstacle
  {
    Rectangular(params.boxLength, params.boxWidth, box.x, box.y, box.theta)
  }

  /**
   * The robot index that the `k`-th circle stands for: the indices in
   * increasing order with `controllerIndex` skipped. It is never the
   * controlling robot's own index.
   */
  function NeighbourIndex(controllerIndex: int, k: nat): (j: nat)
    ensures j != controllerIndex
    ensures j == k || j == k + 1
    ensures j == k + 1 <==> 0 <= controllerIndex <= k
  {
    if controllerIndex < 0 || k < controllerIndex then k else k + 1
  }

  /** How many robots are the controlling robot: one when its index is in range, else none. */
  function SelfCount(controllerIndex: int, n: nat): nat
  {
    if 0 <= controllerIndex < n then 1 else 0
  }

  /**
   * `PlanTrajectory.execute`: collect the obstacles, then ask the planner.
   * Exactly `len(robots_state) - 1` circles when the controlling index is a
   * robot of the fleet (all robots otherwise), the `k`-th one at the
   * position of robot `NeighbourIndex(controllerIndex, k)`, then exactly one
   * rectangle, last, for the box.
   */
  method Execute(controllerIndex: int, robots: seq<Odometry>, box: BoxPose,
                 params: PlannerParams, plan: seq<Obstacle> -> Option<Path>)
    returns (outcome: Outcome, path: Path, obstacles: seq<Obstacle>)
    ensures |obstacles| == |robots| - SelfCount(controllerIndex, |robots|) + 1
    ensures forall k :: 0 <= k < |obstacles| - 1 ==>
              NeighbourIndex(controllerIndex, k) < |robots| &&
              obstacles[k] == RobotObstacle(params.robotRadius, robots[NeighbourIndex(controllerIndex, k)])
    ensures obstacles[|obstacles| - 1] == BoxObstacle(params, box)
    ensures outcome == PathFound || outcome == PlanFailed
    ensures outcome == PathFound <==> plan(obstacles).Some?
    ensures path == if plan(obstacles).Some? then plan(obstacles).value else []
  {
    // Obstacles for the neighbour robots.
    obstacles := [];
    var i := 0;
    while i < |robots|
      invariant 0 <= i <= |robots|
      invariant |obstacles| == i - SelfCount(controllerIndex, i)
      invariant forall k :: 0 <= k < |obstacles| ==>
                  NeighbourIndex(controllerIndex, k) < i &&
                  obstacles[k] == RobotObstacle(params.robotRadius, robots[NeighbourIndex(controllerIndex, k)])
    {
      if i != controllerIndex {
        obstacles := obstacles + [RobotObstacle(params.robotRadius, robots[i])];
      }
      i := i + 1;
    }
    // Obstacle for the box.
    obstacles := obstacles + [BoxObstacle(params, box)];

    match plan(obstacles)
    case Some(p) =>
      outcome, path := PathFound, p;
    case None =>
      outcome, path := PlanFailed, [];
  }

  /**
   * Every obstacle but the last is a circle and the last is the box
   * rectangle, so there is exactly one rectangle and it comes after the
   * robot obstacles; and no circle stands for the controlling robot.
   */
  lemma OneRectangleLast(controllerIndex: int, robots: seq<Odometry>, box: BoxPose,
                         params: PlannerParams, obstacles: seq<Obstacle>)
    requires |obstacles| >= 1
    requires obstacles[|obstacles| - 1] == BoxObstacle(params, box)
    requires forall k :: 0 <= k < |obstacles| - 1 ==>
               NeighbourIndex(controllerIndex, k) < |robots| &&
               obstacles[k] == RobotObstacle(params.robotRadius, robots[NeighbourIndex(controllerIndex, k)])
    ensures forall k :: 0 <= k < |obstacles| ==> (obstacles[k].Rectangular? <==> k == |obstacles| - 1)
    ensures forall k :: 0 <= k < |obstacles| - 1 ==> NeighbourIndex(controllerIndex, k) != controllerIndex
  {
  }

  /**
   * Every neighbour robot is represented exactly once: robot `j`, other
   * than the controlling one, is the robot of circle `j` or `j - 1` and of
   * no other circle.
   */
  lemma EveryNeighbourRepresented(controllerIndex: int, n: nat, j: nat)
    requires j < n && j != controllerIndex
    ensures var k := if 0 <= controllerIndex < j then j - 1 else j;
            && k < n - SelfCount(controllerIndex, n)
            && NeighbourIndex(controllerIndex, k) == j
            && forall k' :: 0 <= k' < n - SelfCount(controllerIndex, n) && NeighbourIndex(controllerIndex, k') == j ==> k' == k
  {
  }
}
