/** The coral elevator command: one press steps the superstructure one
    scoring level up or down. Levels are recognised by object identity, so
    a state that is not one of the four predefined level objects counts as
    no level at all. */
module ElevatorCoral {
  import opened SuperstructureState
  import opened Superstructure

  /** The scoring level a state object stands for: 1 to 4 for the four
      predefined level objects, 0 for any other object. */
  function Level(s: State): (k: nat)
    ensures k <= 4
    ensures k == 1 <==> SameObject(s, L1Scoring)
    ensures k == 2 <==> SameObject(s, L2Scoring)
    ensures k == 3 <==> SameObject(s, L3Scoring)
    ensures k == 4 <==> SameObject(s, L4Scoring)
  {
    if SameObject(s, L1Scoring) then 1
    else if SameObject(s, L2Scoring) then 2
    else if SameObject(s, L3Scoring) then 3
    else if SameObject(s, L4Scoring) then 4
    else 0
  }

  /** The state `initialize` moves to. Up goes one level higher and wraps
      from the top level to level 1; down goes one level lower and stays at
      level 1; any non-level object goes to level 1. The result is always
      one of the four level objects. */
  function NextLevel(current: State, movingUp: bool): (r: State)
    ensures r == L1Scoring || r == L2Scoring || r == L3Scoring || r == L4Scoring
    ensures movingUp ==> Level(r) == (if 1 <= Level(current) <= 3 then Level(current) + 1 else 1)
    ensures !movingUp ==> Level(r) == (if 2 <= Level(current) <= 4 then Level(current) - 1 else 1)
  {
    if movingUp then
      if SameObject(current, L1Scoring) then L2Scoring
      else if SameObject(current, L2Scoring) then L3Scoring
      else if SameObject(current, L3Scoring) then L4Scoring
      else L1Scoring
    else
      if SameObject(current, L4Scoring) then L3Scoring
      else if SameObject(current, L3Scoring) then L2Scoring
      else if SameObject(current, L2Scoring) then L1Scoring
      else L1Scoring
  }

  /** Up then down returns to the starting level object from levels 1 to 3;
      down then up returns to it from levels 2 to 4. */
  lemma StepsUndo(s: State)
    requires s == L1Scoring || s == L2Scoring || s == L3Scoring || s == L4Scoring
    ensures s != L4Scoring ==> NextLevel(NextLevel(s, true), false) == s
    ensures s != L1Scoring ==> NextLevel(NextLevel(s, false), true) == s
  {
  }

  /** Stepping up from levels 1 to 3 raises the elevator set-point;
      stepping down from levels 2 to 4 lowers it. */
  lemma StepsMoveElevator(s: State)
    requires s == L1Scoring || s == L2Scoring || s == L3Scoring || s == L4Scoring
    ensures s != L4Scoring ==> NextLevel(s, true).heightM > s.heightM
    ensures s != L1Scoring ==> NextLevel(s, false).heightM < s.heightM
  {
  }

  /** The four level objects are objects the robot's registry minted. */
  lemma LevelsMinted(w: Robot)
    requires ValidRobot(w)
    ensures IsMinted(w.registry, L1Scoring) && IsMinted(w.registry, L2Scoring)
    ensures IsMinted(w.registry, L3Scoring) && IsMinted(w.registry, L4Scoring)
  {
    assert Predefined[3] == L1Scoring && Predefined[4] == L2Scoring;
    assert Predefined[5] == L3Scoring && Predefined[6] == L4Scoring;
  }

  /** For any object the robot's registry minted, being recognised as a
      level is being that level's predefined state, fields included. */
  lemma LevelIsPredefinedObject(w: Robot, s: State)
    requires ValidRobot(w) && IsMinted(w.registry, s)
    ensures Level(s) == 1 <==> s == L1Scoring
    ensures Level(s) == 2 <==> s == L2Scoring
    ensures Level(s) == 3 <==> s == L3Scoring
    ensures Level(s) == 4 <==> s == L4Scoring
  {
    LevelsMinted(w);
  }

  /** `initialize`: one state update, to the next level; the registry is
      untouched. */
  function Initialize(w: Robot, movingUp: bool): (r: Robot)
    requires ValidRobot(w)
    ensures ValidRobot(r)
    ensures r.registry == w.registry
    ensures r.superstructure == UpdateSuperstructureState(w.superstructure, NextLevel(w.superstructure.current, movingUp))
  {
    LevelsMinted(w);
    w.(superstructure := UpdateSuperstructureState(w.superstructure, NextLevel(w.superstructure.current, movingUp)))
  }

  /** `isFinished`: the command ends in the tick it starts. */
  function IsFinished(): (done: bool)
    ensures done
  {
    true
  }

  /** A re-minted copy of a level (same name, height and angle, other wheel
      speed) is not that level's object, so stepping from it in either
      direction lands on level 1. */
  lemma ReMintedCopyFallsToL1(w: Robot, speed: real, movingUp: bool)
    requires ValidRobot(w)
    ensures var m := GetCurrentStateWithNewWheelSpeed(w, speed);
      var w' := m.robot.(superstructure := UpdateSuperstructureState(m.robot.superstructure, m.state));
      Initialize(w', movingUp).superstructure.current == L1Scoring
  {
  }
}
