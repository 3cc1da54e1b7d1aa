/** The registry of named superstructure states. A `State` is an immutable
    object; the code compares states by reference, so every state carries
    the identity it was minted with. */
module SuperstructureState {
  import opened Options

  /** One mechanism set-point: elevator height in metres, arm angle in
      degrees, wheel speed. `id` is the object's identity: two states are the
      same object exactly when their ids agree. */
  datatype State = State(id: nat, name: string, heightM: real, deg: int, speed: real)

  /** Reference equality (`==` on objects). */
  predicate SameObject(a: State, b: State) {
    a.id == b.id
  }

  /** The name-to-state map, every object minted so far by identity, and the
      identity the next minted state gets. `minted` stands for the heap: an
      identity belongs to exactly one object, with fixed fields. */
  datatype Registry = Registry(states: map<string, State>, minted: map<nat, State>, nextId: nat)

  /** `s` is the object minted under its identity. */
  ghost predicate IsMinted(reg: Registry, s: State) {
    s.id in reg.minted && reg.minted[s.id] == s
  }

  /** Every minted object carries its own identity, below `nextId`; every
      registered state is filed under its own name and is a minted object. */
  ghost predicate ValidRegistry(reg: Registry) {
    && (forall id :: id in reg.minted ==> id < reg.nextId && reg.minted[id].id == id)
    && (forall n :: n in reg.states ==> reg.states[n].name == n && IsMinted(reg, reg.states[n]))
  }

  /** Among minted objects, reference equality is value equality: an
      identity fixes the fields. */
  lemma SameObjectIsEqual(reg: Registry, a: State, b: State)
    requires IsMinted(reg, a) && IsMinted(reg, b)
    ensures SameObject(a, b) <==> a == b
  {
  }

  datatype Created = Created(registry: Registry, state: State)

  /** `createState`: mints a new state object and files it under its name,
      replacing whatever that name held. The new object is distinct from
      every object minted before. */
  function CreateState(reg: Registry, name: string, heightM: real, deg: int, speed: real): (r: Created)
    ensures r.state.name == name && r.state.heightM == heightM && r.state.deg == deg && r.state.speed == speed
    ensures r.state.id == reg.nextId && r.registry.nextId == reg.nextId + 1
    ensures GetState(r.registry, name) == Some(r.state)
    ensures forall n :: n != name ==> GetState(r.registry, n) == GetState(reg, n)
    ensures ValidRegistry(reg) ==> ValidRegistry(r.registry)
    ensures ValidRegistry(reg) ==> forall n :: n in reg.states ==> !SameObject(r.state, reg.states[n])
    ensures ValidRegistry(reg) ==> IsMinted(r.registry, r.state)
    ensures ValidRegistry(reg) ==> forall t :: IsMinted(reg, t) ==> IsMinted(r.registry, t) && !SameObject(r.state, t)
  {
    var s := State(reg.nextId, name, heightM, deg, speed);
    Created(Registry(reg.states[name := s], reg.minted[reg.nextId := s], reg.nextId + 1), s)
  }

  /** `getState`: `None` (the source's `null`) for a name never registered. */
  function GetState(reg: Registry, name: string): (r: Option<State>)
    ensures r.None? <==> name !in reg.states
    ensures ValidRegistry(reg) && r.Some? ==> r.value.name == name && IsMinted(reg, r.value) && r.value.id < reg.nextId
  {
    if name in reg.states then Some(reg.states[name]) else None
  }

  /** `getAllStates`: a copy of the registry's contents, agreeing with
      `GetState` on every name. Being a value, changing it cannot reach back
      into the registry. */
  function GetAllStates(reg: Registry): (m: map<string, State>)
    ensures forall n :: n in m <==> GetState(reg, n).Some?
    ensures forall n :: n in m ==> GetState(reg, n) == Some(m[n])
  {
    reg.states
  }

  // The predefined states, minted in declaration order.
  // Height (m), angle (deg), wheel speed.
  const Idle: State := State(0, "IDLE", 0.1, 18, 0.0)
  const Climb: State := State(1, "CLIMB", 0.5, 0, 0.0)
  const CoralStation: State := State(2, "CORAL_STATION", 0.38, 32, 0.3)
  const L1Scoring: State := State(3, "L1_SCORING", 0.5, 100, 0.0)
  const L2Scoring: State := State(4, "L2_SCORING", 0.8, 120, 0.0)
  const L3Scoring: State := State(5, "L3_SCORING", 1.4, 120, 0.0)
  const L4Scoring: State := State(6, "L4_SCORING", 2.415, 121, 0.0)
  const AlgaeGround: State := State(7, "ALGAE_GROUND", 0.1, 135, 0.0)
  const AlgaeProcessor: State := State(8, "ALGAE_PROCESSOR", 0.1, 90, 0.0)
  const AlgaeBarge: State := State(9, "ALGAE_BARGE", 0.1, 45, -0.25)
  const AlgaeL2: State := State(10, "ALGAE_L2", 0.7, 90, -0.8)
  const AlgaeL3: State := State(11, "ALGAE_L3", 1.85, 135, -0.8)

  const Predefined: seq<State> := [Idle, Climb, CoralStation, L1Scoring, L2Scoring, L3Scoring, L4Scoring,
                                   AlgaeGround, AlgaeProcessor, AlgaeBarge, AlgaeL2, AlgaeL3]

  /** Registers `list` in order through `CreateState`. When the listed ids
      are the ids the registry will mint and the names are distinct, each
      listed state ends up registered as itself and nothing else changes. */
  function Register(reg: Registry, list: seq<State>): (r: Registry)
    requires forall i :: 0 <= i < |list| ==> list[i].id == reg.nextId + i
    requires forall i, j :: 0 <= i < j < |list| ==> list[i].name != list[j].name
    ensures r.nextId == reg.nextId + |list|
    ensures forall i :: 0 <= i < |list| ==> GetState(r, list[i].name) == Some(list[i])
    ensures forall n :: (forall i :: 0 <= i < |list| ==> list[i].name != n) ==> GetState(r, n) == GetState(reg, n)
    ensures ValidRegistry(reg) ==> ValidRegistry(r)
    ensures ValidRegistry(reg) ==> forall i :: 0 <= i < |list| ==> IsMinted(r, list[i])
    ensures ValidRegistry(reg) ==> forall t :: IsMinted(reg, t) ==> IsMinted(r, t)
    decreases |list|
  {
    if |list| == 0 then reg
    else
      var s := list[0];
      var next := CreateState(reg, s.name, s.heightM, s.deg, s.speed).registry;
      var r := Register(next, list[1..]);
      assert forall i :: 1 <= i < |list| ==> list[1..][i - 1] == list[i];
      r
  }

  /** The registry once the class has been initialised: every predefined
      state is registered under its name, and twelve objects have been
      minted. */
  function InitialRegistry(): (reg: Registry)
    ensures ValidRegistry(reg)
    ensures reg.nextId == |Predefined| == 12
    ensures forall i :: 0 <= i < |Predefined| ==> GetState(reg, Predefined[i].name) == Some(Predefined[i])
    ensures forall i :: 0 <= i < |Predefined| ==> IsMinted(reg, Predefined[i])
  {
    Register(Registry(map[], map[], 0), Predefined)
  }

  /** The coral scoring levels sit strictly one above the other; idle is
      low, at 18°, with the wheels stopped. */
  lemma PredefinedHeights()
    ensures L1Scoring.heightM < L2Scoring.heightM < L3Scoring.heightM < L4Scoring.heightM
    ensures L1Scoring.heightM == 0.5 && L4Scoring.heightM == 2.415
    ensures Idle.heightM == 0.1 && Idle.deg == 18 && Idle.speed == 0.0
  {
  }
}
