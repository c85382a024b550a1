/**
 * The two states run for every goal of the path: ALIGNMENT turns the robot
 * on the spot towards the goal, GO_TO_POINT drives it there. Both are
 * polling loops at a fixed rate that emit one `set_control` command per
 * tick. Sensor readings are given as a function of the tick number
 * (`odometry(0)` is read on entry, `odometry(t)` at the t-th tick), the
 * control laws are opaque function parameters, and the emitted commands are
 * returned in emission order. The source loops without bound; `budget`
 * bounds the number of ticks, and a run that uses it up ends with `None`.
 */
module Motion {
  import opened Common

  /** The angular tolerance of the alignment loop, in radians. */
  const TOLERANCE: real := 0.1

  /**
   * The alignment loop's guard, as the source writes it: the signed error
   * `reference_input - theta` is above the tolerance. Only a heading short
   * of the bearing keeps the robot turning; a heading past the bearing,
   * however far, and one exactly at the tolerance both count as aligned.
   */
  predicate Misaligned(reference: real, heading: real): (b: bool)
    ensures b ==> heading < reference
    ensures heading == reference - TOLERANCE ==> !b
  {
    reference - heading > TOLERANCE
  }

  /**
   * `Alignment.execute`. The reference bearing is computed once, from the
   * goal and the first reading (`bearing` stands for `arctan2`); every tick
   * reads the heading, recomputes the error and sends a pure rotation
   * (`control` stands for `proportional_control` with the platform sign
   * flip). The loop ends at the first reading that is not misaligned.
   *
   * The source never recomputes `error` inside the loop
   * (statemachine.py:265); this is the corrected loop, and `AlignAsWritten`
   * below is the loop as written.
   */
  method Align(goal: Waypoint, odometry: nat -> Odometry, bearing: (Waypoint, Odometry) -> real,
               control: (real, real) -> real, budget: nat)
    returns (outcome: Option<Outcome>, commands: seq<Command>)
    ensures outcome == Some(AlignmentOk) || outcome == None
    ensures |commands| <= budget
    ensures forall c :: c in commands ==> c.forward == 0.0
    ensures forall j :: 0 <= j < |commands| ==>
              commands[j] == Command(0.0, control(bearing(goal, odometry(0)), odometry(j + 1).heading))
    ensures forall j :: 0 <= j < |commands| ==> Misaligned(bearing(goal, odometry(0)), odometry(j).heading)
    ensures outcome.Some? ==> !Misaligned(bearing(goal, odometry(0)), odometry(|commands|).heading)
    ensures outcome.None? ==>
              |commands| == budget &&
              forall j :: 0 <= j <= budget ==> Misaligned(bearing(goal, odometry(0)), odometry(j).heading)
  {
    var reference := bearing(goal, odometry(0));
    var error := reference - odometry(0).heading;
    var tick := 0;
    commands := [];
    while error > TOLERANCE
      invariant tick == |commands| <= budget
      invariant error == reference - odometry(tick).heading
      invariant forall j :: 0 <= j < tick ==> commands[j] == Command(0.0, control(reference, odometry(j + 1).heading))
      invariant forall j :: 0 <= j < tick ==> Misaligned(reference, odometry(j).heading)
      decreases budget - tick
    {
      if tick == budget {
        return None, commands;
      }
      tick := tick + 1;
      var theta := odometry(tick).heading;
      error := reference - theta;
      commands := commands + [Command(0.0, control(reference, theta))];
    }
    outcome := Some(AlignmentOk);
  }

  /**
   * `Alignment.execute` as written: `error` is computed once before the
   * loop and never again. When the first reading is misaligned the loop
   * never ends, however the heading evolves; otherwise it ends at once
   * without a command.
   */
  method AlignAsWritten(goal: Waypoint, odometry: nat -> Odometry, bearing: (Waypoint, Odometry) -> real,
                        control: (real, real) -> real, budget: nat)
    returns (outcome: Option<Outcome>, commands: seq<Command>)
    ensures Misaligned(bearing(goal, odometry(0)), odometry(0).heading) ==>
              outcome == None && |commands| == budget
    ensures !Misaligned(bearing(goal, odometry(0)), odometry(0).heading) ==>
              outcome == Some(AlignmentOk) && commands == []
    ensures forall j :: 0 <= j < |commands| ==>
              commands[j] == Command(0.0, control(bearing(goal, odometry(0)), odometry(j + 1).heading))
  {
    var reference := bearing(goal, odometry(0));
    var error := reference - odometry(0).heading;
    var tick := 0;
    commands := [];
    while error > TOLERANCE
      invariant tick == |commands| <= budget
      invariant error == reference - odometry(0).heading
      invariant tick > 0 ==> error > TOLERANCE
      invariant forall j :: 0 <= j < tick ==> commands[j] == Command(0.0, control(reference, odometry(j + 1).heading))
      decreases budget - tick
    {
      if tick == budget {
        return None, commands;
      }
      tick := tick + 1;
      var theta := odometry(tick).heading;
      commands := commands + [Command(0.0, control(reference, theta))];
    }
    outcome := Some(AlignmentOk);
  }

  /**
   * A robot that starts one radian off the bearing and is pointing at the
   * goal from the next reading on: the corrected loop reports
   * `alignment_ok`, the loop as written never does.
   */
  method StaleErrorCounterexample() returns (asWritten: Option<Outcome>, corrected: Option<Outcome>)
    ensures asWritten == None
    ensures corrected == Some(AlignmentOk)
  {
    var goal := Waypoint(1.0, 0.0);
    var odometry := (t: nat) => Odometry(0.0, 0.0, if t == 0 then -1.0 else 0.0, 0.0);
    var bearing := (g: Waypoint, o: Odometry) => 0.0;
    var control := (reference: real, heading: real) => reference - heading;
    var commands;
    asWritten, commands := AlignAsWritten(goal, odometry, bearing, control, 5);
    corrected, commands := Align(goal, odometry, bearing, control, 5);
    assert !Misaligned(bearing(goal, odometry(0)), odometry(1).heading);
  }

  /** What `PointToPoint.control_law` returns: whether the goal is reached, and the two speeds. */
  datatype LawOutput = LawOutput(done: bool, forward: real, angular: real)

  /**
   * `GoToPoint.execute`. With the goal set, every tick reads the pose and
   * forward speed, applies the point-to-point law (`law`, with the
   * platform sign flip) and sends the command it returns, the tick on
   * which the law reports `done` included; then the state reports
   * `point_reached`.
   */
  method GoToPoint(goal: Waypoint, odometry: nat -> Odometry, law: (Waypoint, Odometry) -> LawOutput, budget: nat)
    returns (outcome: Option<Outcome>, commands: seq<Command>)
    ensures outcome == Some(PointReached) || outcome == None
    ensures |commands| <= budget
    ensures forall j :: 0 <= j < |commands| ==>
              commands[j] == Command(law(goal, odometry(j)).forward, law(goal, odometry(j)).angular)
    ensures forall j :: 0 <= j < |commands| - 1 ==> !law(goal, odometry(j)).done
    ensures outcome.Some? ==> |commands| >= 1 && law(goal, odometry(|commands| - 1)).done
    ensures outcome.None? ==> |commands| == budget && forall j :: 0 <= j < budget ==> !law(goal, odometry(j)).done
  {
    var done := false;
    var tick := 0;
    commands := [];
    while !done
      invariant tick == |commands| <= budget
      invariant forall j :: 0 <= j < tick ==>
                  commands[j] == Command(law(goal, odometry(j)).forward, law(goal, odometry(j)).angular)
      invariant forall j :: 0 <= j < tick - 1 ==> !law(goal, odometry(j)).done
      invariant tick > 0 ==> done == law(goal, odometry(tick - 1)).done
      invariant tick == 0 ==> !done
      decreases budget - tick, if done then 0 else 1
    {
      if tick == budget {
        return None, commands;
      }
      var out := law(goal, odometry(tick));
      done := out.done;
      commands := commands + [Command(out.forward, out.angular)];
      tick := tick + 1;
    }
    outcome := Some(PointReached);
  }
}
