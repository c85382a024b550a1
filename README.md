# Cooperative transport: the coordination core of one robot

Each robot of a small fleet runs the same hierarchical state machine to
take its turn at a shared box, approach it along a planned path and hand
over to the carry phase. This project models the discrete part of that
machine in Dafny and proves what its wiring and its loops promise:

- **WAIT_FOR_TURN** (`turn_taking.dfy`, module `TurnTaking`): a class that
  holds the registry of distinct robot ids announced on the `task_state`
  topic. The receive handler appends an id only when it is absent. The
  polling loop releases robot `k` at the first poll at which the registry
  holds exactly `k` ids. The proofs show that the registry never holds a
  duplicate and only grows, that its length is the number of distinct ids
  received, and that in a fleet whose robots each announce once, robot
  `k` is released after exactly `k` announcements (robot 0 at once).
- **PLAN_TRAJECTORY** (`planning.dfy`, module `Planning`): the loop that
  collects the planner's obstacles. There is one circle per robot other
  than the controlling one, in index order, and then exactly one
  rectangle for the box. The planner is a parameter.
- **ALIGNMENT and GO_TO_POINT** (`motion.dfy`, module `Motion`): the two
  polling loops run for every goal. Alignment only ever sends commands
  with forward speed 0 and stops at the first aligned heading reading.
  GO_TO_POINT sends the point-to-point law's command every tick, the
  tick on which the law reports `done` included.
- **The wiring of `construct_sm`** (`machine.dfy`, module `Machine`): the
  top-level machine, the attachment machine, the box-approach iterator
  and its container, each as a transition table. They run under one
  smach-like executor, and each machine's rank shows it has no cycle.
  The proofs cover the transitions, the iterator's in-order traversal
  (an empty path yields `approach_ok` with no container run), the
  attachment machine built from its parts with the planned path handed to
  BOX_APPROACH, and the rule that `attachment_failed` always ends the
  mission with `transport_failed`.
- `common.dfy` (module `Common`) holds the outcome labels, the odometry
  and box snapshots, waypoints and velocity commands.

The model has no ROS in it. Sensor readings are functions of the tick
number. What `set_control` receives is the sequence of commands that each
loop returns. The control laws (`arctan2`, `proportional_control`,
`PointToPoint.control_law`, `quaternion_to_yaw` and the sign flip) are
opaque function parameters. The source's loops have no bound, so each
modelled loop takes a tick budget and ends with `None` when the budget
runs out before its exit condition holds.

The source has several defects. The model follows the evident intent at
each one, and the code comments say so:

- `callback` has no `self` (line 135).
- The registry is created as `turn__state` but used as `task_state`
  (lines 127 and 143).
- `turn_number` is compared without being called (line 161), so as
  written the wait never ends.
- The box subscriber is stored as `boxstate` but read as `box_state`
  (lines 191 and 215).
- The circle built for a neighbour is thrown away, and a default
  `CircularObstacle()` is added in its place (lines 207 and 209).
- `PlanTrajectory.execute` stops at a TODO without an outcome (line 221).
  The model calls the planner on the collected obstacles and returns
  `path_found` with the path or `plan_failed`.
- Alignment never recomputes `error` inside its loop (line 265). See
  "## Findings".
- The box-approach iterator is given the list object created at line 30
  when the machine is built (line 40). PLAN_TRAJECTORY can only rebind
  its `path` output key, so that list stays empty. As written,
  BOX_APPROACH therefore always iterates `[]` and reports `approach_ok`
  without running the container. See "## Findings". The intended
  machine (`PlannedAttachment`) iterates the path PLAN_TRAJECTORY found.
- `utils` is never imported, yet `utils.quaternion_to_yaw` is called at
  lines 258, 267 and 326, so as written ALIGNMENT and GO_TO_POINT fail
  with a `NameError` on entry. The model takes the yaw as already
  converted (`Odometry.heading`).
- `turn_state_pub` is created (line 125) but nothing publishes on it, so
  no robot in this file announces its own id. Announcements enter the
  model only as input (the `ticks` of `WaitForTurn.Execute`).

Two behaviours that a reader might expect to be otherwise are kept as
the code has them:

- Alignment's guard is the signed `error > tolerance`, not the absolute
  error.
- The turn condition is the exact equality `turn_number == controller_index`.
  So a robot whose index the registry has already passed is never
  released (`TurnOrdering`).

## Model

| member | source | states |
|---|---|---|
| `TurnTaking.Received` | src/cooperative_transport/statemachine.py:141-145 | the registry after a sequence of announcements, each passed through the handler in order; it has at most one entry per announcement (`ReceivedDistinct` gives its exact contents) |
| `TurnTaking.Insert` | src/cooperative_transport/statemachine.py:141-145 | the handler's registry update keeps the old entries as a prefix, grows by at most one, holds the old ids plus the new one, leaves the registry unchanged for an id already present, and never creates a duplicate |
| `TurnTaking.ReceivedDistinct` | src/cooperative_transport/statemachine.py:141-153 | for any announcement sequence, repeats and any order included, the registry has no duplicates, holds exactly the announced ids, and its length (`turn_number`) is the number of distinct ids |
| `TurnTaking.RepeatIgnored` | src/cooperative_transport/statemachine.py:143-144 | receiving an id already announced leaves the registry unchanged |
| `TurnTaking.ReceivedMonotone` | src/cooperative_transport/statemachine.py:142-144 | the registry after a prefix of the announcements is a prefix of the registry after all of them, so its length never decreases, and it gains at most one id per announcement |
| `TurnTaking.TurnOrdering` | src/cooperative_transport/statemachine.py:155-164 | when no id repeats, robot `k` is released after exactly `k` announcements and at no other point; robot 0 is released with an empty registry |
| `TurnTaking.ThreeRobotScenario` | src/cooperative_transport/statemachine.py:155-164 | with announcements 1, 0, 2, robot 0 goes at once, robot 1 after the first, robot 2 after the second and not after the third |
| `TurnTaking.WaitForTurn.constructor` | src/cooperative_transport/statemachine.py:112-127 | a new state for index `controllerIndex` starts with an empty registry |
| `TurnTaking.WaitForTurn.Callback` | src/cooperative_transport/statemachine.py:135-145 | the handler records the announcement and updates the registry by `Insert`, which preserves the invariant that the registry is the one built from every announcement received |
| `TurnTaking.WaitForTurn.TurnNumber` | src/cooperative_transport/statemachine.py:147-153 | `turn_number` is the registry's length, and that is the number of distinct ids received |
| `TurnTaking.WaitForTurn.Deliver` | src/cooperative_transport/statemachine.py:141-145 | the announcements arriving during one sleep are all received, in arrival order, keeping the invariant |
| `TurnTaking.WaitForTurn.Ready` | src/cooperative_transport/statemachine.py:161 | the loop's release test holds exactly when the announcements received so far contain exactly `k` distinct ids |
| `TurnTaking.WaitForTurn.Execute` | src/cooperative_transport/statemachine.py:155-164 | the loop returns `my_turn` exactly when the distinct ids received number `controller_index`, at the first poll at which they do, having received just the announcements of the sleeps before it; when the ticks run out first it has not been released at any poll |
| `Planning.NeighbourIndex` | src/cooperative_transport/statemachine.py:202-203 | the robot the `k`-th circle stands for is never the controlling robot, and it is `k` or `k + 1`, skipping exactly the controlling index |
| `Planning.Execute` | src/cooperative_transport/statemachine.py:193-221 | the obstacles are `len(robots_state) - 1` circles when the controlling index is in the fleet (all robots otherwise), the `k`-th at the position of robot `NeighbourIndex(k)` with the robot radius, then exactly one rectangle with the box pose and configured size; the outcome is `path_found` with the planner's path exactly when the planner finds one, else `plan_failed` |
| `Planning.OneRectangleLast` | src/cooperative_transport/statemachine.py:200-219 | of the obstacles `Execute` produces, exactly the last is a rectangle, and no circle stands for the controlling robot |
| `Planning.EveryNeighbourRepresented` | src/cooperative_transport/statemachine.py:202-209 | every robot other than the controlling one is the robot of exactly one circle |
| `Motion.Misaligned` | src/cooperative_transport/statemachine.py:262-265 | the guard keeps the robot turning only when its heading is short of the bearing; a heading exactly at the tolerance, or past the bearing however far, counts as aligned |
| `Motion.Align` | src/cooperative_transport/statemachine.py:254-278 | every command has forward speed 0 and the opaque control law's angular speed for the tick's heading; every reading before the last one is misaligned; `alignment_ok` is returned exactly at the first reading within tolerance, and otherwise the budget is used up with every reading misaligned |
| `Motion.AlignAsWritten` | src/cooperative_transport/statemachine.py:254-278 | the loop as written: if the first reading is misaligned it never returns, however the heading evolves; otherwise it returns `alignment_ok` with no command |
| `Motion.StaleErrorCounterexample` | src/cooperative_transport/statemachine.py:261-276 | a robot starting one radian off its bearing and on the bearing from the next reading: the loop as written never reports `alignment_ok`, the corrected one does |
| `Motion.GoToPoint` | src/cooperative_transport/statemachine.py:312-338 | each tick's command is the law's forward and angular speed for that tick's reading; the law did not report `done` before the last tick; `point_reached` is returned after the first tick that reports `done`, its command included; otherwise the budget is used up without `done` |
| `Machine.RunMachine` | src/cooperative_transport/statemachine.py:22-98 | a smach-style run from state `s` starts at `s` and, every transition lowering the rank, executes at most `rank(s) + 1` states |
| `Machine.RunFollowsTransitions` | src/cooperative_transport/statemachine.py:22-98 | a run of any of the machines starts at the initial state, moves along a wired transition between consecutive states of its trace, and ends as its last state did (an exit transition, no outcome, or an unwired outcome) |
| `Machine.ContainerNext` | src/cooperative_transport/statemachine.py:49-63 | the container wires exactly the declared outcomes (`alignment_ok` from ALIGNMENT, `point_reached` from GO_TO_POINT), only forward, and exits only with `approach_continue` |
| `Machine.RunContainer` | src/cooperative_transport/statemachine.py:49-63 | one container run starts at ALIGNMENT and executes at most its two states |
| `Machine.ContainerRun` | src/cooperative_transport/statemachine.py:49-70 | the container returns `approach_continue` exactly when ALIGNMENT and then GO_TO_POINT complete, having run both in that order, and returns no other outcome |
| `Machine.Iterate` | src/cooperative_transport/statemachine.py:37-70 | the iterator's run over a path, the `i`-th goal's container result given by the `i`-th body result; it visits a prefix of the path and yields only `approach_ok` or no outcome |
| `Machine.IterateInOrder` | src/cooperative_transport/statemachine.py:37-70 | the iterator visits a prefix of the path in order; `approach_continue` goes on to the next goal; it yields `approach_ok` exactly when the run on every goal position continued, the whole path then visited; otherwise it stopped at the first run that did not continue; no other outcome |
| `Machine.EmptyPath` | src/cooperative_transport/statemachine.py:37-42 | an empty path yields `approach_ok` with no container run |
| `Machine.BoxApproach` | src/cooperative_transport/statemachine.py:37-70 | BOX_APPROACH runs the container once per goal position; it visits a prefix of the path and yields only `approach_ok` or no outcome |
| `Machine.BoxApproachCompletes` | src/cooperative_transport/statemachine.py:37-70 | BOX_APPROACH yields `approach_ok` exactly when ALIGNMENT and GO_TO_POINT complete on the run for every goal position (a waypoint that repeats may behave differently on each visit), and it has then visited the whole path in order |
| `Machine.AttachNext` | src/cooperative_transport/statemachine.py:75-88 | the attachment machine wires exactly the declared outcomes, only forward, and exits only with `attachment_ok` or `attachment_failed` |
| `Machine.RunAttachment` | src/cooperative_transport/statemachine.py:75-88 | an attachment run starts at WAIT_FOR_TURN and executes at most its four states |
| `Machine.AttachmentRuns` | src/cooperative_transport/statemachine.py:75-88 | after `my_turn`, `plan_failed` ends the machine with `attachment_failed` after WAIT_FOR_TURN and PLAN_TRAJECTORY; `path_found` and `approach_ok` lead through BOX_APPROACH to BOX_FINE_APPROACH, whose outcome ends the machine |
| `Machine.AttachmentFailureCause` | src/cooperative_transport/statemachine.py:81-84 | the attachment machine fails only when the planner reports `plan_failed` or the fine approach fails |
| `Machine.PlannedAttachment` | src/cooperative_transport/statemachine.py:30-88 | the attachment machine with BOX_APPROACH iterating the path PLAN_TRAJECTORY found; after `my_turn` with no path it ends with `attachment_failed` before any approach |
| `Machine.PlannedPathApproached` | src/cooperative_transport/statemachine.py:37-88 | after `my_turn` and a found path, the machine reaches BOX_FINE_APPROACH exactly when ALIGNMENT and GO_TO_POINT complete on every goal of that path, then ends as the fine approach does; otherwise it stays in BOX_APPROACH |
| `Machine.AttachmentAsWritten` | src/cooperative_transport/statemachine.py:30-88 | as written, BOX_APPROACH iterates the empty list from line 30, so once a path is found the machine goes through BOX_APPROACH to BOX_FINE_APPROACH whatever the motion states would do |
| `Machine.EmptyIteratorCounterexample` | src/cooperative_transport/statemachine.py:30-40 | a one-goal path on which the robot never aligns: the machine as written still reaches BOX_FINE_APPROACH, the intended one does not |
| `Machine.RunTransport` | src/cooperative_transport/statemachine.py:22-94 | a mission run starts at BOX_ATTACHMENT, with the attachment machine's result as that state's outcome, and executes at most its two states |
| `Machine.TopNext` | src/cooperative_transport/statemachine.py:92-94 | the top level wires exactly the declared outcomes, only forward, exits only with `transport_ok` or `transport_failed`, and maps `attachment_failed` only to `transport_failed` |
| `Machine.AttachmentFailureFailsTransport` | src/cooperative_transport/statemachine.py:92-94 | `attachment_failed` ends the mission with `transport_failed` without entering MOVE_BOX, whatever MOVE_BOX would do; `attachment_ok` hands over to MOVE_BOX, whose outcome is the mission's |
| `Machine.TransportOkCause` | src/cooperative_transport/statemachine.py:92-94 | the mission ends with `transport_ok` only when the attachment succeeds and MOVE_BOX reports `transport_ok` |

## Left out

- ROS publishers, subscribers, `rospy.Rate` sleeps and `rospy.get_param`: I/O and timing. Readings are functions of the tick, configuration values are parameters, and commands are returned.
- The `threading.Lock` and concurrent delivery to `callback`. Announcements arrive sequentially, in batches between polls (`Deliver`).
- Floating-point control laws (`arctan2`, `proportional_control`, `PointToPoint.control_law`, `quaternion_to_yaw`, the `*= -1` sign flip). They are opaque function parameters. `PointToPoint` is taken to be a function of the goal and the reading, so any internal controller state is not modelled.
- The internals of `Planner`, `CircularObstacle` and `RectangularObstacle`. The planner is a function from obstacles to an optional path, and its bounds are inside it. A circle carries one radius, although line 207 passes the radius twice.
- The internals of smach's `StateMachine` and `Iterator`. Only the transition, loop and exhaustion behaviour visible in the wiring is modelled. The iterator has no break outcomes wired. Userdata is not modelled as a dictionary: the one remapping wired (`path` onto itself, line 84) and the iterator's `goal` key become the `planned` parameter of `PlannedAttachment` and the goal index of each container run.
- Machine.PlannedAttachment: `planned` stands for `plan(obstacles)` as `Planning.Execute` computes it, and `phases(i)` for what `Motion.Align` and `Motion.GoToPoint` return on the `i`-th goal. These methods cannot be called from a function, so the machine takes their results as parameters, and the link to them is by these names only.
- Floating-point arithmetic at the alignment guard. `reference_input - theta > 0.1` is evaluated on exact reals, so rounding and a NaN heading (for which the comparison is false and the loop ends) are not modelled.
- BOX_FINE_APPROACH and MOVE_BOX. They are referenced but never defined. Each is an external state: when its own outcome is one of its machine's outcomes, that outcome ends the machine.
- TurnTaking.WaitForTurn.Execute: the source polls forever when the robot is never released; the model stops with `None` once its ticks are used up, so the unbounded wait itself is not shown.
- Motion.Align: the source loops forever when no reading is aligned; the model stops with `None` after its tick budget.
- Motion.GoToPoint: the source loops forever when the law never reports `done`; the model stops with `None` after its tick budget.
- Per-waypoint convergence of the control laws (that alignment and translation end in finitely many ticks) is a property of the floating-point laws and the robot's motion, not of this code.

## Findings

| source | as written | input that shows it | evidently intended | confidence | as-written member | corrected member |
|---|---|---|---|---|---|---|
| src/cooperative_transport/statemachine.py:40 | the iterator is given the list object created at line 30 when the machine is built, and storing the planned path in `path` rebinds the key without filling that list, so BOX_APPROACH always iterates `[]` | a found path of one goal on which the robot never aligns: the machine still reaches BOX_FINE_APPROACH | iterate the path PLAN_TRAJECTORY stored in `path` | not executed; medium-high (depends on smach reading `it` once, when the machine is built) | `Machine.AttachmentAsWritten`, `Machine.EmptyIteratorCounterexample` | `Machine.PlannedAttachment`, `Machine.PlannedPathApproached` |
| src/cooperative_transport/statemachine.py:265 | `error` is computed once before the alignment loop and never updated inside it, so a misaligned start never leaves the loop | first heading reading one radian below the bearing, every later reading on the bearing | recompute `error` from each new heading and end at the first reading within tolerance | not executed; high | `Motion.AlignAsWritten`, `Motion.StaleErrorCounterexample` | `Motion.Align` |
