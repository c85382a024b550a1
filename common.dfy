/**
 * Values shared by every part of the cooperative-transport state machine:
 * the outcome labels that the smach states return, the geometry snapshots
 * read from odometry, and the velocity commands handed to `set_control`.
 * Coordinates and angles are exact `real`s: floating-point rounding is not
 * modelled.
 */
module Common {

  datatype Option<+T> = None | Some(value: T)

  /** Every outcome label that appears in `construct_sm` and in the states' outcome lists. */
  datatype Outcome =
    | MyTurn
    | PathFound
    | PlanFailed
    | AlignmentOk
    | PointReached
    | ApproachContinue
    | ApproachOk
    | AttachmentOk
    | AttachmentFailed
    | TransportOk
    | TransportFailed

  /** One goal of the planned path, as stored in the iterator's `goal` key. */
  datatype Waypoint = Waypoint(x: real, y: real)

  /** The path produced by the planner, traversed in order. */
  type Path = seq<Waypoint>

  /**
   * What one robot's odometry subscriber holds: position, yaw (already
   * converted from the quaternion) and forward speed.
   */
  datatype Odometry = Odometry(x: real, y: real, heading: real, forwardVelocity: real)

  /** What the box-state subscriber holds. */
  datatype BoxPose = BoxPose(x: real, y: real, theta: real)

  /** One call `set_control(forward, angular)`. */
  datatype Command = Command(forward: real, angular: real)
}
