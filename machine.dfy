/**
 * The wiring built by `construct_sm`: the top-level machine, the box
 * attachment machine inside it, the box approach iterator inside that, and
 * the container the iterator runs once per goal. Each machine is a
 * transition table from (state, outcome) to the next state or to an
 * outcome of the machine; a run executes the current state, looks its
 * outcome up and goes on, as a smach `StateMachine` does. What a state's
 * `execute` returns is a parameter of the run (`None` when it does not
 * return).
 *
 * BOX_FINE_APPROACH and MOVE_BOX are named as transition targets but never
 * added to their machines. They are kept here as external states whose own
 * outcome, when it is one of the enclosing machine's outcomes, becomes that
 * machine's outcome.
 */
module Machine {
  import opened Common

  /** Where a transition leads: another state of the same machine, or out of it. */
  datatype Target<S> = GoTo(state: S) | Exit(outcome: Outcome)

  /**
   * How a run ended: with an outcome of the machine; with a state whose
   * `execute` did not return; or with an outcome that has no transition
   * (smach raises an error there).
   */
  datatype Ending = Exited(outcome: Outcome) | Stalled | Unwired(outcome: Outcome)

  /** The states a run executed, in order, and how it ended. */
  datatype Run<S> = Run(trace: seq<S>, ending: Ending)

  /** Every transition to a state lowers the rank: the machine has no cycle. */
  ghost predicate Descending<S(!new)>(next: (S, Outcome) -> Option<Target<S>>, rank: S -> nat)
  {
    forall s, o :: next(s, o).Some? && next(s, o).value.GoTo? ==> rank(next(s, o).value.state) < rank(s)
  }

  /** The transition taken from `s`, if its `execute` returns an outcome that is wired. */
  function Step<S>(next: (S, Outcome) -> Option<Target<S>>, exec: S -> Option<Outcome>, s: S): Option<Target<S>>
  {
    if exec(s).Some? then next(s, exec(s).value) else None
  }

  /**
   * A run of a machine from state `s`. It starts at `s`, and, the machine
   * having no cycle, it executes at most `rank(s) + 1` states.
   */
  function RunMachine<S(!new)>(next: (S, Outcome) -> Option<Target<S>>, rank: S -> nat,
                         exec: S -> Option<Outcome>, s: S): (r: Run<S>)
    requires Descending(next, rank)
    ensures 1 <= |r.trace| <= rank(s) + 1 && r.trace[0] == s
    decreases rank(s)
  {
    match exec(s)
    case None => Run([s], Stalled)
    case Some(o) =>
      match next(s, o)
      case None => Run([s], Unwired(o))
      case Some(Exit(result)) => Run([s], Exited(result))
      case Some(GoTo(n)) =>
        var rest := RunMachine(next, rank, exec, n);
        Run([s] + rest.trace, rest.ending)
  }

  /** The outcome a machine returns to its parent, if its run ends with one. */
  function Result<S>(r: Run<S>): Option<Outcome>
  {
    if r.ending.Exited? then Some(r.ending.outcome) else None
  }

  /**
   * A run starts at its initial state, follows a wired transition from each
   * state of its trace to the next, and its ending is what the last state
   * did: an exit transition, no outcome, or an outcome with no transition.
   */
  lemma {:induction false} RunFollowsTransitions<S(!new)>(next: (S, Outcome) -> Option<Target<S>>, rank: S -> nat,
                                                    exec: S -> Option<Outcome>, s: S)
    requires Descending(next, rank)
    ensures var r := RunMachine(next, rank, exec, s);
            && |r.trace| >= 1 && r.trace[0] == s
            && (forall i :: 0 <= i < |r.trace| - 1 ==> Step(next, exec, r.trace[i]) == Some(GoTo(r.trace[i + 1])))
            && var last := r.trace[|r.trace| - 1];
               match r.ending
               case Exited(o) => Step(next, exec, last) == Some(Exit(o))
               case Stalled => exec(last) == None
               case Unwired(o) => exec(last) == Some(o) && next(last, o) == None
    decreases rank(s)
  {
    var r := RunMachine(next, rank, exec, s);
    if exec(s).Some? && next(s, exec(s).value).Some? && next(s, exec(s).value).value.GoTo? {
      var n := next(s, exec(s).value).value.state;
      RunFollowsTransitions(next, rank, exec, n);
      var rest := RunMachine(next, rank, exec, n);
      assert r.trace == [s] + rest.trace;
      forall i | 0 <= i < |r.trace| - 1
        ensures Step(next, exec, r.trace[i]) == Some(GoTo(r.trace[i + 1]))
      {
        if i > 0 {
          assert r.trace[i] == rest.trace[i - 1] && r.trace[i + 1] == rest.trace[i];
        }
      }
    }
  }

  // ------------------------------------------------------------------
  // BOX APPROACH CONTAINER: ALIGNMENT, then GO_TO_POINT.

  datatype ContainerState = Alignment | GoToPoint

  /** The outcomes each state declares. */
  function ContainerDeclared(s: ContainerState): set<Outcome>
  {
    match s
    case Alignment => {AlignmentOk}
    case GoToPoint => {PointReached}
  }

  function ContainerRank(s: ContainerState): nat
  {
    match s
    case Alignment => 1
    case GoToPoint => 0
  }

  /**
   * The container's transitions: every declared outcome is wired and no
   * other; they only go forward; and the container only exits with its
   * one outcome, `approach_continue`.
   */
  function ContainerNext(s: ContainerState, o: Outcome): (t: Option<Target<ContainerState>>)
    ensures t.Some? <==> o in ContainerDeclared(s)
    ensures t.Some? && t.value.GoTo? ==> ContainerRank(t.value.state) < ContainerRank(s)
    ensures t.Some? && t.value.Exit? ==> t.value.outcome == ApproachContinue
  {
    match (s, o)
    case (Alignment, AlignmentOk) => Some(GoTo(GoToPoint))
    case (GoToPoint, PointReached) => Some(Exit(ApproachContinue))
    case _ => None
  }

  /** One run of the container for one goal: from ALIGNMENT, through at most its two states. */
  function RunContainer(exec: ContainerState -> Option<Outcome>): (r: Run<ContainerState>)
    ensures 1 <= |r.trace| <= 2 && r.trace[0] == Alignment
  {
    assert Descending(ContainerNext, ContainerRank);
    RunMachine(ContainerNext, ContainerRank, exec, Alignment)
  }

  /**
   * The container returns `approach_continue` exactly when ALIGNMENT
   * reports `alignment_ok` and then GO_TO_POINT reports `point_reached`,
   * and it then has run both, in that order; it returns no other outcome.
   */
  lemma ContainerRun(exec: ContainerState -> Option<Outcome>)
    ensures Result(RunContainer(exec)) == Some(ApproachContinue) <==>
            exec(Alignment) == Some(AlignmentOk) && exec(GoToPoint) == Some(PointReached)
    ensures Result(RunContainer(exec)) == Some(ApproachContinue) ==> RunContainer(exec).trace == [Alignment, GoToPoint]
    ensures Result(RunContainer(exec)) == None || Result(RunContainer(exec)) == Some(ApproachContinue)
  {
    assert Descending(ContainerNext, ContainerRank);
    var rest := RunMachine(ContainerNext, ContainerRank, exec, GoToPoint);
  }

  // ------------------------------------------------------------------
  // BOX APPROACH ITERATOR: run the container once per goal of the path.

  /** The goals the container was started for, in order, and the iterator's outcome. */
  datatype IteratorRun = IteratorRun(visited: seq<Waypoint>, outcome: Option<Outcome>)

  /**
   * The iterator from the `i`-th goal on: `body(i)` is the container's
   * result for its run on the `i`-th goal (what it returns depends on the
   * odometry at that time, not only on the goal's value).
   * `approach_continue` goes on to the next goal; an exhausted path yields
   * `approach_ok`.
   */
  function IterateFrom(path: Path, i: nat, body: nat -> Option<Outcome>): (r: IteratorRun)
    requires i <= |path|
    ensures r.visited <= path[i..]
    ensures r.outcome == Some(ApproachOk) || r.outcome == None
    decreases |path| - i
  {
    if i == |path| then
      IteratorRun([], Some(ApproachOk))
    else if body(i) == Some(ApproachContinue) then
      var rest := IterateFrom(path, i + 1, body);
      assert path[i..] == [path[i]] + path[i + 1..];
      IteratorRun([path[i]] + rest.visited, rest.outcome)
    else
      IteratorRun([path[i]], None)
  }

  /** The iterator over the whole path. */
  function Iterate(path: Path, body: nat -> Option<Outcome>): (r: IteratorRun)
    ensures r.visited <= path
    ensures r.outcome == Some(ApproachOk) || r.outcome == None
  {
    assert path[0..] == path;
    IterateFrom(path, 0, body)
  }

  lemma {:induction false} IterateFromInOrder(path: Path, i: nat, body: nat -> Option<Outcome>)
    requires i <= |path|
    ensures var r := IterateFrom(path, i, body);
            && (forall j :: i <= j < i + |r.visited| - 1 ==> body(j) == Some(ApproachContinue))
            && (r.outcome == Some(ApproachOk) <==> forall j :: i <= j < |path| ==> body(j) == Some(ApproachContinue))
            && (r.outcome == Some(ApproachOk) ==> r.visited == path[i..])
            && (r.outcome == None ==> |r.visited| >= 1 && body(i + |r.visited| - 1) != Some(ApproachContinue))
    decreases |path| - i
  {
    if i < |path| && body(i) == Some(ApproachContinue) {
      IterateFromInOrder(path, i + 1, body);
      assert path[i..] == [path[i]] + path[i + 1..];
    }
  }

  /**
   * The iterator visits goals in path order: what it visited is a prefix of
   * the path, the container continued for every visited goal but the last,
   * and it yields `approach_ok` exactly when it continued for every goal,
   * having then visited the whole path. Otherwise it stopped at the first
   * goal whose run did not continue. It yields no other outcome.
   */
  lemma IterateInOrder(path: Path, body: nat -> Option<Outcome>)
    ensures var r := Iterate(path, body);
            && r.visited <= path
            && (forall j :: 0 <= j < |r.visited| - 1 ==> body(j) == Some(ApproachContinue))
            && (r.outcome == Some(ApproachOk) <==>
                  r.visited == path && forall j :: 0 <= j < |path| ==> body(j) == Some(ApproachContinue))
            && (r.outcome == Some(ApproachOk) || r.outcome == None)
            && (r.outcome == None ==> |r.visited| >= 1 && body(|r.visited| - 1) != Some(ApproachContinue))
  {
    IterateFromInOrder(path, 0, body);
    assert path[0..] == path;
  }

  /** An empty path yields `approach_ok` without starting the container at all. */
  lemma EmptyPath(body: nat -> Option<Outcome>)
    ensures Iterate([], body) == IteratorRun([], Some(ApproachOk))
  {
  }

  /**
   * The body of the iterator: the container run for the `i`-th goal, with
   * what its two states return on that run given by `phases(i)`.
   */
  function ContainerResult(phases: nat -> ContainerState -> Option<Outcome>, i: nat): Option<Outcome>
  {
    Result(RunContainer(phases(i)))
  }

  /** BOX_APPROACH over `path`. */
  function BoxApproach(path: Path, phases: nat -> ContainerState -> Option<Outcome>): (r: IteratorRun)
    ensures r.visited <= path
    ensures r.outcome == Some(ApproachOk) || r.outcome == None
  {
    Iterate(path, (i: nat) => ContainerResult(phases, i))
  }

  /**
   * BOX_APPROACH yields `approach_ok` exactly when, on every goal's run,
   * ALIGNMENT and GO_TO_POINT both complete; it has then run the two of them
   * for every goal, in path order.
   */
  lemma BoxApproachCompletes(path: Path, phases: nat -> ContainerState -> Option<Outcome>)
    ensures BoxApproach(path, phases).outcome == Some(ApproachOk) <==>
            forall i :: 0 <= i < |path| ==> phases(i)(Alignment) == Some(AlignmentOk) && phases(i)(GoToPoint) == Some(PointReached)
    ensures BoxApproach(path, phases).outcome == Some(ApproachOk) ==> BoxApproach(path, phases).visited == path
  {
    var body := (i: nat) => ContainerResult(phases, i);
    IterateInOrder(path, body);
    forall i: nat | i < |path|
      ensures body(i) == Some(ApproachContinue) <==>
              phases(i)(Alignment) == Some(AlignmentOk) && phases(i)(GoToPoint) == Some(PointReached)
    {
      ContainerRun(phases(i));
    }
  }

  // ------------------------------------------------------------------
  // BOX ATTACHMENT: WAIT_FOR_TURN, PLAN_TRAJECTORY, BOX_APPROACH, then the
  // external BOX_FINE_APPROACH.

  datatype AttachState = WaitForTurn | PlanTrajectory | BoxApproachState | BoxFineApproach

  /** The outcomes each state declares; the external state may end the machine either way. */
  function AttachDeclared(s: AttachState): set<Outcome>
  {
    match s
    case WaitForTurn => {MyTurn}
    case PlanTrajectory => {PathFound, PlanFailed}
    case BoxApproachState => {ApproachOk}
    case BoxFineApproach => {AttachmentOk, AttachmentFailed}
  }

  function AttachRank(s: AttachState): nat
  {
    match s
    case WaitForTurn => 3
    case PlanTrajectory => 2
    case BoxApproachState => 1
    case BoxFineApproach => 0
  }

  /**
   * The attachment machine's transitions: every declared outcome is wired
   * and no other; they only go forward; and the machine only exits with
   * its own outcomes.
   */
  function AttachNext(s: AttachState, o: Outcome): (t: Option<Target<AttachState>>)
    ensures t.Some? <==> o in AttachDeclared(s)
    ensures t.Some? && t.value.GoTo? ==> AttachRank(t.value.state) < AttachRank(s)
    ensures t.Some? && t.value.Exit? ==> t.value.outcome == AttachmentOk || t.value.outcome == AttachmentFailed
  {
    match (s, o)
    case (WaitForTurn, MyTurn) => Some(GoTo(PlanTrajectory))
    case (PlanTrajectory, PathFound) => Some(GoTo(BoxApproachState))
    case (PlanTrajectory, PlanFailed) => Some(Exit(AttachmentFailed))
    case (BoxApproachState, ApproachOk) => Some(GoTo(BoxFineApproach))
    case (BoxFineApproach, AttachmentOk) => Some(Exit(AttachmentOk))
    case (BoxFineApproach, AttachmentFailed) => Some(Exit(AttachmentFailed))
    case _ => None
  }

  /** One run of the attachment machine: from WAIT_FOR_TURN, through at most its four states. */
  function RunAttachment(exec: AttachState -> Option<Outcome>): (r: Run<AttachState>)
    ensures 1 <= |r.trace| <= 4 && r.trace[0] == WaitForTurn
  {
    assert Descending(AttachNext, AttachRank);
    RunMachine(AttachNext, AttachRank, exec, WaitForTurn)
  }

  /**
   * The attachment machine's runs: after `my_turn`, a failed plan ends it
   * with `attachment_failed` before any approach; a found path leads
   * through BOX_APPROACH to BOX_FINE_APPROACH once the approach is ok, and
   * the machine then ends as the fine approach does.
   */
  lemma AttachmentRuns(exec: AttachState -> Option<Outcome>)
    requires exec(WaitForTurn) == Some(MyTurn)
    ensures exec(PlanTrajectory) == Some(PlanFailed) ==>
              RunAttachment(exec) == Run([WaitForTurn, PlanTrajectory], Exited(AttachmentFailed))
    ensures exec(PlanTrajectory) == Some(PathFound) && exec(BoxApproachState) == Some(ApproachOk) ==>
              RunAttachment(exec).trace == [WaitForTurn, PlanTrajectory, BoxApproachState, BoxFineApproach] &&
              Result(RunAttachment(exec)) == (if exec(BoxFineApproach).Some? && exec(BoxFineApproach).value in AttachDeclared(BoxFineApproach)
                                              then exec(BoxFineApproach) else None)
  {
    assert Descending(AttachNext, AttachRank);
    var fromFine := RunMachine(AttachNext, AttachRank, exec, BoxFineApproach);
    assert fromFine.trace == [BoxFineApproach];
    var fromApproach := RunMachine(AttachNext, AttachRank, exec, BoxApproachState);
    var fromPlan := RunMachine(AttachNext, AttachRank, exec, PlanTrajectory);
    if exec(PlanTrajectory) == Some(PathFound) && exec(BoxApproachState) == Some(ApproachOk) {
      assert fromApproach == Run([BoxApproachState] + fromFine.trace, fromFine.ending);
      assert fromPlan == Run([PlanTrajectory] + fromApproach.trace, fromApproach.ending);
    }
  }

  /**
   * The only ways the attachment machine fails: the planner reports
   * `plan_failed`, or the fine approach does.
   */
  lemma AttachmentFailureCause(exec: AttachState -> Option<Outcome>)
    requires Result(RunAttachment(exec)) == Some(AttachmentFailed)
    ensures exec(PlanTrajectory) == Some(PlanFailed) || exec(BoxFineApproach) == Some(AttachmentFailed)
  {
    assert Descending(AttachNext, AttachRank);
    var r := RunAttachment(exec);
    RunFollowsTransitions(AttachNext, AttachRank, exec, WaitForTurn);
    var last := r.trace[|r.trace| - 1];
    assert Step(AttachNext, exec, last) == Some(Exit(AttachmentFailed));
  }

  // ------------------------------------------------------------------
  // The attachment machine built from its parts. PLAN_TRAJECTORY puts the
  // path it found into the `path` key (line 84 remaps it onto itself), and
  // BOX_APPROACH is meant to iterate it. As written, the iterator is given
  // the list object created at line 30 when the machine is built (line 40);
  // storing the planned path rebinds the key and leaves that list empty.

  /**
   * What the attachment machine's states return: WAIT_FOR_TURN returns
   * `turn`; PLAN_TRAJECTORY returns `path_found` when the planner found a
   * path and `plan_failed` otherwise (as `Planning.Execute` does with
   * `planned` for `plan(obstacles)`); BOX_APPROACH iterates `iterated`,
   * with `phases(i)` giving what ALIGNMENT and GO_TO_POINT return on the
   * `i`-th goal; the external fine approach returns `fine`.
   */
  function AttachStates(turn: Option<Outcome>, planned: Option<Path>, iterated: Path,
                        phases: nat -> ContainerState -> Option<Outcome>,
                        fine: Option<Outcome>): AttachState -> Option<Outcome>
  {
    (s: AttachState) =>
      match s
      case WaitForTurn => turn
      case PlanTrajectory => if planned.Some? then Some(PathFound) else Some(PlanFailed)
      case BoxApproachState => BoxApproach(iterated, phases).outcome
      case BoxFineApproach => fine
  }

  /**
   * The attachment machine as intended: BOX_APPROACH iterates the path that
   * PLAN_TRAJECTORY found. When the planner finds none, the machine ends with
   * `attachment_failed` before any approach.
   */
  function PlannedAttachment(turn: Option<Outcome>, planned: Option<Path>,
                             phases: nat -> ContainerState -> Option<Outcome>,
                             fine: Option<Outcome>): (r: Run<AttachState>)
    ensures turn == Some(MyTurn) && planned == None ==>
              r == Run([WaitForTurn, PlanTrajectory], Exited(AttachmentFailed))
  {
    var exec := AttachStates(turn, planned, if planned.Some? then planned.value else [], phases, fine);
    if turn == Some(MyTurn) then
      AttachmentRuns(exec);
      RunAttachment(exec)
    else
      RunAttachment(exec)
  }

  /**
   * The attachment machine as written: BOX_APPROACH iterates the empty list.
   * Once a path is found, the machine goes on to BOX_FINE_APPROACH without
   * running ALIGNMENT or GO_TO_POINT for any goal.
   */
  function AttachmentAsWritten(turn: Option<Outcome>, planned: Option<Path>,
                               phases: nat -> ContainerState -> Option<Outcome>,
                               fine: Option<Outcome>): (r: Run<AttachState>)
    ensures turn == Some(MyTurn) && planned.Some? ==>
              r.trace == [WaitForTurn, PlanTrajectory, BoxApproachState, BoxFineApproach]
  {
    var exec := AttachStates(turn, planned, [], phases, fine);
    assert exec(BoxApproachState) == Some(ApproachOk) by {
      EmptyPath((i: nat) => ContainerResult(phases, i));
    }
    if turn == Some(MyTurn) then
      AttachmentRuns(exec);
      RunAttachment(exec)
    else
      RunAttachment(exec)
  }

  /**
   * After `my_turn` and a found path `p`, the intended machine reaches
   * BOX_FINE_APPROACH exactly when ALIGNMENT and GO_TO_POINT complete on every
   * goal of `p`, and then ends as the fine approach does; otherwise it stays
   * in BOX_APPROACH.
   */
  lemma PlannedPathApproached(p: Path, phases: nat -> ContainerState -> Option<Outcome>, fine: Option<Outcome>)
    ensures var r := PlannedAttachment(Some(MyTurn), Some(p), phases, fine);
            && (BoxFineApproach in r.trace <==>
                  forall i :: 0 <= i < |p| ==> phases(i)(Alignment) == Some(AlignmentOk) && phases(i)(GoToPoint) == Some(PointReached))
            && (BoxFineApproach in r.trace ==>
                  Result(r) == if fine.Some? && fine.value in AttachDeclared(BoxFineApproach) then fine else None)
            && (BoxFineApproach !in r.trace ==> r == Run([WaitForTurn, PlanTrajectory, BoxApproachState], Stalled))
  {
    var exec := AttachStates(Some(MyTurn), Some(p), p, phases, fine);
    BoxApproachCompletes(p, phases);
    AttachmentRuns(exec);
    if exec(BoxApproachState) != Some(ApproachOk) {
      assert Descending(AttachNext, AttachRank);
      var fromApproach := RunMachine(AttachNext, AttachRank, exec, BoxApproachState);
      assert fromApproach == Run([BoxApproachState], Stalled);
      var fromPlan := RunMachine(AttachNext, AttachRank, exec, PlanTrajectory);
      assert fromPlan == Run([PlanTrajectory] + fromApproach.trace, fromApproach.ending);
    }
  }

  /**
   * A one-goal path on which the robot never aligns: the machine as written
   * still reaches BOX_FINE_APPROACH, the intended one does not.
   */
  lemma EmptyIteratorCounterexample()
    ensures var p := [Waypoint(1.0, 0.0)];
            var never: nat -> ContainerState -> Option<Outcome> := (i: nat) => (s: ContainerState) => None;
            && BoxFineApproach in AttachmentAsWritten(Some(MyTurn), Some(p), never, Some(AttachmentOk)).trace
            && BoxFineApproach !in PlannedAttachment(Some(MyTurn), Some(p), never, Some(AttachmentOk)).trace
  {
    var p := [Waypoint(1.0, 0.0)];
    var never: nat -> ContainerState -> Option<Outcome> := (i: nat) => (s: ContainerState) => None;
    PlannedPathApproached(p, never, Some(AttachmentOk));
    assert !(never(0)(Alignment) == Some(AlignmentOk));
  }

  // ------------------------------------------------------------------
  // TOP LEVEL: BOX_ATTACHMENT, then the external MOVE_BOX.

  datatype TopState = BoxAttachment | MoveBox

  function TopDeclared(s: TopState): set<Outcome>
  {
    match s
    case BoxAttachment => {AttachmentOk, AttachmentFailed}
    case MoveBox => {TransportOk, TransportFailed}
  }

  function TopRank(s: TopState): nat
  {
    match s
    case BoxAttachment => 1
    case MoveBox => 0
  }

  /**
   * The top-level transitions: every declared outcome is wired and no
   * other; `attachment_failed` leaves the machine with `transport_failed`;
   * it only exits with its own outcomes.
   */
  function TopNext(s: TopState, o: Outcome): (t: Option<Target<TopState>>)
    ensures t.Some? <==> o in TopDeclared(s)
    ensures t.Some? && t.value.GoTo? ==> TopRank(t.value.state) < TopRank(s)
    ensures t.Some? && t.value.Exit? ==> t.value.outcome in {TransportOk, TransportFailed}
    ensures o == AttachmentFailed ==> t == None || t == Some(Exit(TransportFailed))
  {
    match (s, o)
    case (BoxAttachment, AttachmentFailed) => Some(Exit(TransportFailed))
    case (BoxAttachment, AttachmentOk) => Some(GoTo(MoveBox))
    case (MoveBox, TransportOk) => Some(Exit(TransportOk))
    case (MoveBox, TransportFailed) => Some(Exit(TransportFailed))
    case _ => None
  }

  /**
   * The top-level machine, with BOX_ATTACHMENT run as the nested machine:
   * from BOX_ATTACHMENT, through at most its two states.
   */
  function RunTransport(attach: AttachState -> Option<Outcome>, moveBox: Option<Outcome>): (r: Run<TopState>)
    ensures 1 <= |r.trace| <= 2 && r.trace[0] == BoxAttachment
  {
    assert Descending(TopNext, TopRank);
    var exec := (s: TopState) => if s == BoxAttachment then Result(RunAttachment(attach)) else moveBox;
    RunMachine(TopNext, TopRank, exec, BoxAttachment)
  }

  /**
   * `attachment_failed` always ends the mission with `transport_failed`,
   * whatever MOVE_BOX would do, and MOVE_BOX is never entered; an
   * `attachment_ok` hands over to MOVE_BOX, whose outcome is the mission's.
   */
  lemma AttachmentFailureFailsTransport(attach: AttachState -> Option<Outcome>, moveBox: Option<Outcome>)
    ensures Result(RunAttachment(attach)) == Some(AttachmentFailed) ==>
              RunTransport(attach, moveBox) == Run([BoxAttachment], Exited(TransportFailed))
    ensures Result(RunAttachment(attach)) == Some(AttachmentOk) ==>
              RunTransport(attach, moveBox).trace == [BoxAttachment, MoveBox] &&
              Result(RunTransport(attach, moveBox)) == (if moveBox.Some? && moveBox.value in TopDeclared(MoveBox) then moveBox else None)
  {
    assert Descending(TopNext, TopRank);
    var exec := (s: TopState) => if s == BoxAttachment then Result(RunAttachment(attach)) else moveBox;
    var fromMove := RunMachine(TopNext, TopRank, exec, MoveBox);
  }

  /** A mission ends with `transport_ok` only when the attachment and MOVE_BOX both succeed. */
  lemma TransportOkCause(attach: AttachState -> Option<Outcome>, moveBox: Option<Outcome>)
    requires Result(RunTransport(attach, moveBox)) == Some(TransportOk)
    ensures Result(RunAttachment(attach)) == Some(AttachmentOk) && moveBox == Some(TransportOk)
  {
    assert Descending(TopNext, TopRank);
    var exec := (s: TopState) => if s == BoxAttachment then Result(RunAttachment(attach)) else moveBox;
    var fromMove := RunMachine(TopNext, TopRank, exec, MoveBox);
  }
}
