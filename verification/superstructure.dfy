/** The superstructure subsystem: it holds the current state, pushes every
    new state to the elevator, intake and LEDs, and can mint a copy of the
    current state with another wheel speed. */
module Superstructure {
  import opened Options
  import opened SuperstructureState
  import opened Elevator

  /** The current state and the local copies held by the three subsystems
      it drives. The intake and LED subsystems are reduced to their local
      state. */
  datatype SuperstructureSubsystem = SuperstructureSubsystem(
    current: State,
    elevator: ElevatorSubsystem,
    intakeLocal: State,
    ledLocal: State)

  /** The robot's state-machine world: the global registry plus the
      superstructure. */
  datatype Robot = Robot(registry: Registry, superstructure: SuperstructureSubsystem)

  /** Every object the superstructure holds is an object the registry
      minted, and so are the predefined states, under the first identities. */
  ghost predicate ValidRobot(w: Robot) {
    var ss := w.superstructure;
    && ValidRegistry(w.registry)
    && w.registry.nextId >= |Predefined|
    && (forall i :: 0 <= i < |Predefined| ==> IsMinted(w.registry, Predefined[i]))
    && IsMinted(w.registry, ss.current)
    && IsMinted(w.registry, ss.elevator.localState)
    && IsMinted(w.registry, ss.intakeLocal)
    && IsMinted(w.registry, ss.ledLocal)
  }

  /** The superstructure as constructed: everything idle. */
  function InitialSuperstructure(): (ss: SuperstructureSubsystem)
    ensures GetCurrentSuperstructureState(ss) == Idle
    ensures GetCurrentLocalState(ss.elevator) == Idle && ss.intakeLocal == Idle && ss.ledLocal == Idle
  {
    SuperstructureSubsystem(Idle, InitialElevator(), Idle, Idle)
  }

  function InitialRobot(): (w: Robot)
    ensures ValidRobot(w)
  {
    Robot(InitialRegistry(), InitialSuperstructure())
  }

  /** `getCurrentSuperstructureState`. */
  function GetCurrentSuperstructureState(ss: SuperstructureSubsystem): State {
    ss.current
  }

  /** `updateSuperstructureState`: the new state becomes current and the very
      same object is handed to the elevator, the intake and the LEDs. */
  function UpdateSuperstructureState(ss: SuperstructureSubsystem, s: State): (r: SuperstructureSubsystem)
    ensures GetCurrentSuperstructureState(r) == s
    ensures GetCurrentLocalState(r.elevator) == s && r.intakeLocal == s && r.ledLocal == s
  {
    SuperstructureSubsystem(s, UpdateLocalState(ss.elevator, s), s, s)
  }

  /** Applies a sequence of updates in order. */
  function ApplyUpdates(ss: SuperstructureSubsystem, updates: seq<State>): SuperstructureSubsystem
    decreases |updates|
  {
    if |updates| == 0 then ss
    else ApplyUpdates(UpdateSuperstructureState(ss, updates[0]), updates[1..])
  }

  /** The current state is the last one passed to an update, or idle if
      there was none; the elevator holds the same object. */
  lemma {:induction false} CurrentIsLastUpdate(ss: SuperstructureSubsystem, updates: seq<State>)
    requires ss == InitialSuperstructure() || |updates| > 0
    ensures var r := ApplyUpdates(ss, updates);
      && GetCurrentSuperstructureState(r) == (if |updates| == 0 then Idle else updates[|updates| - 1])
      && GetCurrentLocalState(r.elevator) == GetCurrentSuperstructureState(r)
    decreases |updates|
  {
    if |updates| > 1 {
      CurrentIsLastUpdate(UpdateSuperstructureState(ss, updates[0]), updates[1..]);
    } else if |updates| == 1 {
      assert updates[1..] == [];
    }
  }

  datatype Minted = Minted(robot: Robot, state: State)

  /** `getCurrentStateWithNewWheelSpeed`: mints, through `createState`, a
      state with the current name, height and angle and the given speed.
      The superstructure keeps its current object; the registry entry for
      that name now holds the new object, which is not the current one. */
  function GetCurrentStateWithNewWheelSpeed(w: Robot, speed: real): (r: Minted)
    requires ValidRobot(w)
    ensures ValidRobot(r.robot)
    ensures r.robot.superstructure == w.superstructure
    ensures var cur := w.superstructure.current;
      && r.state.name == cur.name && r.state.heightM == cur.heightM && r.state.deg == cur.deg
      && r.state.speed == speed
      && !SameObject(r.state, cur)
      && GetState(r.robot.registry, cur.name) == Some(r.state)
    ensures forall n :: n != w.superstructure.current.name ==> GetState(r.robot.registry, n) == GetState(w.registry, n)
    ensures r.state.id >= |Predefined|
  {
    var cur := w.superstructure.current;
    var created := CreateState(w.registry, cur.name, cur.heightM, cur.deg, speed);
    Minted(w.(registry := created.registry), created.state)
  }
}
