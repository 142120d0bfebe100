/**
 * The OMPL control environment in SE2 (x, y, theta): the choice of the car
 * length at construction, the bounds set up by initialize, the copying of
 * start and goal, and the conversion of the solution path back into states.
 * The ODE propagation, the RRT planner and the balanced multi-objective are
 * not part of this model.
 */
module OmplEnvXYTHETA {
  import opened Wrappers
  import opened Configuration
  import opened Terrain
  import TravGridObjective

  /** The value OmplEnvXYTHETA::mCarLength holds before any construction. */
  const DefaultCarLength: real := 2.0

  /**
   * The class-wide variable OmplEnvXYTHETA::mCarLength. Every environment
   * shares one such object, so each construction sees the value the previous
   * one left.
   */
  class CarLengthSlot {
    var value: real

    constructor ()
      ensures value == DefaultCarLength
    {
      value := DefaultCarLength;
    }
  }

  /**
   * The car length a construction stores: the larger footprint length, else
   * the larger footprint radius, else the value already stored. It is zero
   * only when all three are.
   */
  function SelectCarLength(config: Config, current: real): (r: real)
    ensures r == 0.0 <==>
              Larger(config.footprintLengthMinMax) == 0.0 &&
              Larger(config.footprintRadiusMinMax) == 0.0 && current == 0.0
  {
    var length := Larger(config.footprintLengthMinMax);
    if length != 0.0 then length
    else
      var radius := Larger(config.footprintRadiusMinMax);
      if radius != 0.0 then radius else current
  }

  /** The stored car length after constructing one environment per configuration, in order. */
  function CarLengthAfter(configs: seq<Config>, initial: real): (r: real)
    ensures r == initial ||
            exists i :: 0 <= i < |configs| && !DefinesNoLength(configs[i]) &&
                        r == SelectCarLength(configs[i], 0.0)
  {
    if configs == [] then initial
    else
      var last := configs[|configs| - 1];
      var prefix := configs[..|configs| - 1];
      var before := CarLengthAfter(prefix, initial);
      assert forall i :: 0 <= i < |prefix| ==> prefix[i] == configs[i];
      SelectCarLength(last, before)
  }

  /** A configuration defines no car length: no footprint length and no radius. */
  predicate DefinesNoLength(config: Config) {
    Larger(config.footprintLengthMinMax) == 0.0 && Larger(config.footprintRadiusMinMax) == 0.0
  }

  /** The three choices, in order of priority. */
  lemma SelectCarLengthPriority(config: Config, current: real)
    ensures Larger(config.footprintLengthMinMax) != 0.0 ==>
              SelectCarLength(config, current) == Larger(config.footprintLengthMinMax)
    ensures Larger(config.footprintLengthMinMax) == 0.0 && Larger(config.footprintRadiusMinMax) != 0.0 ==>
              SelectCarLength(config, current) == Larger(config.footprintRadiusMinMax)
    ensures DefinesNoLength(config) ==> SelectCarLength(config, current) == current
  {
  }

  /** However many environments are constructed, the stored car length is never zero. */
  lemma {:induction false} CarLengthNeverZero(configs: seq<Config>)
    ensures CarLengthAfter(configs, DefaultCarLength) != 0.0
  {
    if configs != [] {
      CarLengthNeverZero(configs[..|configs| - 1]);
    }
  }

  /** With non-negative footprint dimensions the stored car length stays positive. */
  lemma {:induction false} CarLengthPositive(configs: seq<Config>)
    requires forall i :: 0 <= i < |configs| ==>
               configs[i].footprintLengthMinMax.first >= 0.0 && configs[i].footprintRadiusMinMax.first >= 0.0
    ensures CarLengthAfter(configs, DefaultCarLength) > 0.0
  {
    if configs != [] {
      CarLengthPositive(configs[..|configs| - 1]);
    }
  }

  /** While no configuration defines a length, the default 2.0 survives every construction. */
  lemma {:induction false} CarLengthStaysDefault(configs: seq<Config>)
    requires forall i :: 0 <= i < |configs| ==> DefinesNoLength(configs[i])
    ensures CarLengthAfter(configs, DefaultCarLength) == DefaultCarLength
  {
    if configs != [] {
      CarLengthStaysDefault(configs[..|configs| - 1]);
    }
  }

  /**
   * Once a configuration without a length of its own follows one that
   * defines it, the earlier length is kept: the stored value is that of the
   * last configuration defining one.
   */
  lemma {:induction false} CarLengthFromLastDefining(configs: seq<Config>, k: nat, initial: real)
    requires k < |configs| && !DefinesNoLength(configs[k])
    requires forall i :: k < i < |configs| ==> DefinesNoLength(configs[i])
    ensures CarLengthAfter(configs, initial) == SelectCarLength(configs[k], 0.0)
  {
    if k < |configs| - 1 {
      var prefix := configs[..|configs| - 1];
      assert forall i :: k < i < |prefix| ==> prefix[i] == configs[i];
      CarLengthFromLastDefining(prefix, k, initial);
    } else {
      assert configs[..|configs| - 1][..k] == configs[..k];
    }
  }

  // ---------------------------------------------------------------------
  // States, bounds and the path

  /** An SE2 planner state. */
  datatype SE2State = SE2State(x: real, y: real, yaw: real)

  datatype Vector3 = Vector3(x: real, y: real, z: real)

  /** A rigid-body pose; its orientation is a rotation by yaw about the z axis. */
  datatype Pose = Pose(position: Vector3, yaw: real)

  /** A state of the planning library (State) around its pose. */
  datatype MplState = MplState(pose: Pose)

  /** Lower and upper bound per dimension (RealVectorBounds). */
  datatype Bounds = Bounds(low: seq<real>, high: seq<real>)

  /** Start and goal of the problem definition; empty until setStartGoal. */
  datatype ProblemDefinition = ProblemDefinition(start: Option<SE2State>, goal: Option<SE2State>)

  /** The SE2 state setStartGoal builds from a state: x, y and yaw of its pose. */
  function ToPlanner(s: MplState): (st: SE2State) {
    SE2State(s.pose.position.x, s.pose.position.y, s.pose.yaw)
  }

  /** The state fillPath builds from an SE2 state: x and y, z = 0, rotation by yaw about z. */
  function FromPlanner(st: SE2State): (s: MplState)
    ensures s.pose.position.z == 0.0
    ensures ToPlanner(s) == st
  {
    MplState(Pose(Vector3(st.x, st.y, 0.0), st.yaw))
  }

  /** States with z = 0 survive the trip to the planner and back. */
  lemma StateRoundTrip(s: MplState)
    requires s.pose.position.z == 0.0
    ensures FromPlanner(ToPlanner(s)) == s
  {
  }

  /** The path fillPath appends, one state per planner state, in order. */
  function ConvertPath(ps: seq<SE2State>): (r: seq<MplState>)
    ensures |r| == |ps|
  {
    if ps == [] then [] else [FromPlanner(ps[0])] + ConvertPath(ps[1..])
  }

  lemma {:induction false} ConvertPathAppend(ps: seq<SE2State>, p: SE2State)
    ensures ConvertPath(ps + [p]) == ConvertPath(ps) + [FromPlanner(p)]
  {
    if ps != [] {
      assert (ps + [p])[1..] == ps[1..] + [p];
      ConvertPathAppend(ps[1..], p);
    }
  }

  /** The i-th converted state keeps x, y and yaw of the i-th path state, with z = 0. */
  lemma {:induction false} ConvertPathAt(ps: seq<SE2State>, i: nat)
    requires i < |ps|
    ensures |ConvertPath(ps)| == |ps|
    ensures ConvertPath(ps)[i].pose == Pose(Vector3(ps[i].x, ps[i].y, 0.0), ps[i].yaw)
  {
    if i > 0 {
      ConvertPathAt(ps[1..], i - 1);
    } else if |ps| > 1 {
      ConvertPathAt(ps[1..], 0);
    }
  }

  /** The state-space bounds initialize derives from the grid: [0, X] x [0, Y]. */
  function StateBoundsFor(grid: TravGrid): (b: Bounds)
    ensures |b.low| == 2 && |b.high| == 2
    ensures b.low[0] <= b.high[0] && b.low[1] <= b.high[1]
  {
    Bounds([0.0, 0.0], [grid.cellSizeX as real, grid.cellSizeY as real])
  }

  /** The control bounds: [-speed, speed] x [-turning, turning]. */
  function ControlBoundsFor(mobility: Mobility): (b: Bounds)
    ensures |b.low| == 2 && |b.high| == 2
    ensures b.low[0] == -b.high[0] && b.low[1] == -b.high[1]
    ensures mobility.speed >= 0.0 && mobility.turningSpeed >= 0.0 ==>
              b.low[0] <= b.high[0] && b.low[1] <= b.high[1]
  {
    Bounds([-mobility.speed, -mobility.turningSpeed], [mobility.speed, mobility.turningSpeed])
  }

  predicate WithinBounds(b: Bounds, x: real, y: real)
    requires |b.low| == 2 && |b.high| == 2
  {
    b.low[0] <= x <= b.high[0] && b.low[1] <= y <= b.high[1]
  }

  /**
   * Every position stateCost accepts lies inside the state-space bounds; the
   * closed upper edges of the bounds are the only positions inside that it
   * rejects.
   */
  lemma StateBoundsCoverGrid(grid: TravGrid, x: real, y: real)
    ensures InGrid(grid, x, y) ==> WithinBounds(StateBoundsFor(grid), x, y)
    ensures WithinBounds(StateBoundsFor(grid), x, y) && !InGrid(grid, x, y) ==>
              x == grid.cellSizeX as real || y == grid.cellSizeY as real
  {
  }

  /** Control bounds are symmetric around zero in both dimensions. */
  lemma ControlBoundsSymmetric(mobility: Mobility)
    ensures var b := ControlBoundsFor(mobility);
            |b.low| == 2 && |b.high| == 2 &&
            b.low[0] == -b.high[0] && b.low[1] == -b.high[1] &&
            b.high[0] == mobility.speed && b.high[1] == mobility.turningSpeed
  {
  }

  /** The caller's std::vector<State> that fillPath appends to. */
  class StateVector {
    var states: seq<MplState>

    constructor (states: seq<MplState>)
      ensures this.states == states
    {
      this.states := states;
    }
  }

  /** The caller's bool that fillPath receives by reference. */
  class BoolRef {
    var value: bool

    constructor (value: bool)
      ensures this.value == value
    {
      this.value := value;
    }
  }

  /**
   * The environment. The state space, the control space and the problem
   * definition are reduced to their bounds and its start/goal; objective is
   * the traversability objective initialize creates.
   */
  class OmplEnv {
    const config: Config
    const carLength: CarLengthSlot
    var stateBounds: Option<Bounds>
    var controlBounds: Option<Bounds>
    var objective: TravGridObjective.Objective?
    var problem: Option<ProblemDefinition>

    /** Stores the chosen car length in the shared slot; nothing is set up yet. */
    constructor (config: Config, carLength: CarLengthSlot)
      modifies carLength
      ensures this.config == config && this.carLength == carLength
      ensures carLength.value == SelectCarLength(config, old(carLength.value))
      ensures stateBounds == None && controlBounds == None && objective == null && problem == None
    {
      this.config := config;
      this.carLength := carLength;
      stateBounds := None;
      controlBounds := None;
      objective := null;
      problem := None;
      new;
      var length := Larger(config.footprintLengthMinMax);
      if length == 0.0 {
        length := Larger(config.footprintRadiusMinMax);
        if length == 0.0 {
          length := carLength.value;
        }
      }
      carLength.value := length;
    }

    /**
     * Sets the state bounds from the grid, then aborts with false for a zero
     * turning speed (leaving the new control space without bounds); otherwise
     * sets the control bounds and creates the objective and a fresh problem.
     */
    method Initialize(grid: TravGrid, data: Option<TravData>) returns (ok: bool)
      modifies this
      ensures stateBounds == Some(StateBoundsFor(grid))
      ensures ok <==> config.mobility.turningSpeed != 0.0
      ensures !ok ==> controlBounds == None && objective == old(objective) && problem == old(problem)
      ensures ok ==> controlBounds == Some(ControlBoundsFor(config.mobility))
      ensures ok ==> problem == Some(ProblemDefinition(None, None))
      ensures ok ==> objective != null && fresh(objective)
      ensures ok ==> objective.travGrid == Some(grid) && objective.travData == data
      ensures ok ==> objective.config == config && !objective.interpolateMotionCost
    {
      stateBounds := Some(StateBoundsFor(grid));
      controlBounds := None;
      var turningSpeed := config.mobility.turningSpeed;
      if turningSpeed == 0.0 {
        return false;
      }
      controlBounds := Some(Bounds([-config.mobility.speed, -turningSpeed],
                                   [config.mobility.speed, turningSpeed]));
      problem := Some(ProblemDefinition(None, None));
      objective := new TravGridObjective.Objective.WithGrid(false, Some(grid), data, config);
      return true;
    }

    /** Copies x, y and yaw of start and goal into the problem definition. */
    method SetStartGoal(startState: MplState, goalState: MplState) returns (ok: bool)
      requires problem.Some?
      modifies this
      ensures problem == Some(ProblemDefinition(Some(ToPlanner(startState)), Some(ToPlanner(goalState))))
      ensures stateBounds == old(stateBounds) && controlBounds == old(controlBounds)
      ensures objective == old(objective)
      ensures ok
    {
      var start := SE2State(startState.pose.position.x, startState.pose.position.y, startState.pose.yaw);
      var goal := SE2State(goalState.pose.position.x, goalState.pose.position.y, goalState.pose.yaw);
      problem := Some(ProblemDefinition(Some(start), Some(goal)));
      return true;
    }

    /**
     * Appends one converted state per solution-path state to path, keeping
     * what path held; the flag is never written. pathStates is what the OMPL
     * base environment's solution path holds.
     */
    method FillPath(pathStates: seq<SE2State>, path: StateVector, posDefinedInLocalGrid: BoolRef)
      returns (ok: bool)
      modifies path
      ensures path.states == old(path.states) + ConvertPath(pathStates)
      ensures |path.states| == |old(path.states)| + |pathStates|
      ensures forall i :: 0 <= i < |pathStates| ==>
                path.states[|old(path.states)| + i] == FromPlanner(pathStates[i])
      ensures unchanged(posDefinedInLocalGrid)
      ensures ok
    {
      var counter := 0;
      while counter < |pathStates|
        invariant 0 <= counter <= |pathStates|
        invariant path.states == old(path.states) + ConvertPath(pathStates[..counter])
      {
        var state := pathStates[counter];
        var gridPose := Pose(Vector3(state.x, state.y, 0.0), state.yaw);
        path.states := path.states + [MplState(gridPose)];
        ConvertPathAppend(pathStates[..counter], state);
        assert pathStates[..counter + 1] == pathStates[..counter] + [state];
        counter := counter + 1;
      }
      assert pathStates[..counter] == pathStates;
      forall i | 0 <= i < |pathStates|
        ensures path.states[|old(path.states)| + i] == FromPlanner(pathStates[i])
      {
        ConvertPathAt(pathStates, i);
      }
      return true;
    }
  }
}
