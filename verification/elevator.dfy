/** The elevator subsystem: it holds a local copy of the superstructure
    state and drives its motors to that state's height every tick. */
module Elevator {
  import opened SuperstructureState

  datatype ElevatorSubsystem = ElevatorSubsystem(localState: State)

  /** The elevator as constructed: its local state is idle. */
  function InitialElevator(): (e: ElevatorSubsystem)
    ensures SameObject(GetCurrentLocalState(e), Idle) && GetCurrentLocalState(e) == Idle
  {
    ElevatorSubsystem(Idle)
  }

  /** `updateLocalState`. */
  function UpdateLocalState(e: ElevatorSubsystem, s: State): (r: ElevatorSubsystem)
    ensures GetCurrentLocalState(r) == s
  {
    e.(localState := s)
  }

  /** `getCurrentLocalState`. */
  function GetCurrentLocalState(e: ElevatorSubsystem): State {
    e.localState
  }

  /** One tick: the position set-point sent to the motors, and the
      subsystem after the tick. */
  datatype ElevatorTick = ElevatorTick(elevator: ElevatorSubsystem, setpointM: real)

  /** `periodic`: commands exactly the local state's height and leaves the
      local state alone. */
  function Periodic(e: ElevatorSubsystem): (t: ElevatorTick)
    ensures t.elevator == e
    ensures t.setpointM == GetCurrentLocalState(e).heightM
  {
    ElevatorTick(e, e.localState.heightM)
  }

  /** After an update, every later tick commands the new state's height,
      however many ticks pass. */
  lemma {:induction false} TicksCommandLastUpdate(e: ElevatorSubsystem, s: State, ticks: nat)
    ensures Run(UpdateLocalState(e, s), ticks) == UpdateLocalState(e, s)
    ensures Periodic(Run(UpdateLocalState(e, s), ticks)).setpointM == s.heightM
  {
    if ticks > 0 {
      TicksCommandLastUpdate(e, s, ticks - 1);
    }
  }

  /** The subsystem after `ticks` calls of `periodic`. */
  function Run(e: ElevatorSubsystem, ticks: nat): ElevatorSubsystem {
    if ticks == 0 then e else Run(Periodic(e).elevator, ticks - 1)
  }
}
