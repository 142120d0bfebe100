/**
 * The traversability-grid optimisation objective: the cost of a single
 * planner state (the time to cross its grid cell) and the cost of a motion
 * between two states (the base integral plus the time and penalty for
 * changing the footprint of the SHERPA robot).
 */
module TravGridObjective {
  import opened Wrappers
  import opened Configuration
  import opened Terrain

  /** std::numeric_limits<double>::max(), written out exactly. */
  const MaxFinite: real := 179769313486231570814527423731704356798070567525844996598917476803157260780028538760589558632766878171540458953514382464234321326889464182768467546703537516986049910576551282076245490090389328944075868508455133942304583236903222948165808559332123348274797826204144723168738177180919299881250404026184124858368.0

  /** An objective cost: a finite value, or the infinite cost that forbids a motion. */
  datatype Cost = Finite(value: real) | Infinite

  /** The order the planner compares costs by: every finite cost is below Infinite. */
  predicate Less(a: Cost, b: Cost) {
    match a
    case Finite(x) => b.Infinite? || x < b.value
    case Infinite => false
  }

  /** Adds a finite amount of time to a cost; the infinite cost absorbs it. */
  function AddTime(c: Cost, t: real): (r: Cost)
    ensures r.Infinite? <==> c.Infinite?
    ensures c.Finite? ==> r.value == c.value + t
  {
    match c
    case Finite(v) => Finite(v + t)
    case Infinite => Infinite
  }

  /** The three runtime errors stateCost throws. */
  datatype CostError =
    | NoTravGrid          // "No traversability grid available"
    | UnknownEnvironment  // "received an unknown environment"
    | InvalidState        // "Invalid state received"

  /**
   * A planner state through the accessors the three state spaces offer:
   * values[0], values[1] of the real-vector space, getX(), getY(), getYaw()
   * of the SE2 space, and getFootprintClass() of the SHERPA space.
   */
  datatype PlannerState = PlannerState(x: real, y: real, yaw: real, footprintClass: nat)

  /** What stateCost reads from a state: position and footprint class. */
  datatype Sample = Sample(x: real, y: real, footprintClass: nat)

  /**
   * The position of a state under the configured environment kind, with the
   * footprint class only for SHERPA (0 otherwise); no sample for any other kind.
   */
  function Extract(env: EnvType, s: PlannerState): (r: Option<Sample>)
    ensures r.None? <==> env.EnvOther?
    ensures r.Some? ==> r.value.x == s.x && r.value.y == s.y
    ensures r.Some? ==> r.value.footprintClass == if env.EnvSherpa? then s.footprintClass else 0
  {
    match env
    case EnvXY => Some(Sample(s.x, s.y, 0))
    case EnvXYTheta => Some(Sample(s.x, s.y, 0))
    case EnvSherpa => Some(Sample(s.x, s.y, s.footprintClass))
    case EnvOther(_) => None
  }

  /**
   * The numeric part of stateCost over a looked-up driveability: the maximum
   * finite value for an impassable cell or a robot that cannot move, otherwise
   * the time to cross a cell, divided for SHERPA by (fc + 1) / (N + 1).
   */
  function CellCost(config: Config, scale: real, drivability: real, footprintClass: nat): (r: real)
    ensures r == MaxFinite || (drivability != 0.0 && config.mobility.speed != 0.0)
  {
    if drivability == 0.0 || config.mobility.speed == 0.0 then MaxFinite
    else
      var cost := (scale / config.mobility.speed) / drivability;
      if config.envType.EnvSherpa? then
        cost / ((footprintClass + 1) as real / (config.numFootprintClasses as real + 1.0))
      else cost
  }

  /**
   * stateCost over the objective's fields: the grid handle, the data handle
   * and the configuration.
   */
  function StateCostFor(grid: Option<TravGrid>, data: Option<TravData>, config: Config,
                        s: PlannerState): (r: Result<Cost, CostError>)
    requires WellPaired(grid, data)
    ensures grid.None? ==> r == Err(NoTravGrid)
    ensures grid.Some? && config.envType.EnvOther? ==> r == Err(UnknownEnvironment)
    ensures grid.Some? && !config.envType.EnvOther? && !InGrid(grid.value, s.x, s.y) ==>
              r == Err(InvalidState)
    ensures r.Ok? <==> grid.Some? && !config.envType.EnvOther? && InGrid(grid.value, s.x, s.y)
    ensures r.Ok? ==> r.value.Finite?
  {
    if grid.None? then Err(NoTravGrid)
    else match Extract(config.envType, s)
      case None => Err(UnknownEnvironment)
      case Some(p) =>
        if !InGrid(grid.value, p.x, p.y) then Err(InvalidState)
        else
          var drivability := grid.value.drivabilityOf(CellClass(grid.value, data.value, p.x, p.y));
          Ok(Finite(CellCost(config, grid.value.scaleX, drivability, p.footprintClass)))
  }

  /** |a - b| on the footprint class difference. */
  function Abs(k: int): (r: nat)
    ensures r == k || r == -k
  {
    if k < 0 then -k else k
  }

  /** Seconds to go from footprint class c1 to c2: |c1 - c2| / N of the full-range time. */
  function FootprintTime(config: Config, c1: nat, c2: nat): (t: real)
    requires config.numFootprintClasses > 0
    ensures c1 == c2 ==> t == 0.0
    ensures config.timeToAdaptFootprint >= 0.0 ==> t >= 0.0
  {
    (Abs(c1 - c2) as real / config.numFootprintClasses as real) * config.timeToAdaptFootprint
  }

  /** The squared Euclidean distance between the positions of two states. */
  function SquaredDistance(s1: PlannerState, s2: PlannerState): (d: real)
    ensures d >= 0.0
  {
    (s1.x - s2.x) * (s1.x - s2.x) + (s1.y - s2.y) * (s1.y - s2.y)
  }

  /** dist is the Euclidean norm of the position difference (Eigen's norm()). */
  predicate IsDistance(s1: PlannerState, s2: PlannerState, dist: real) {
    dist >= 0.0 && dist * dist == SquaredDistance(s1, s2)
  }

  /**
   * Adapting the footprint takes longer than driving the segment:
   * fpTime > dist * scale / speed. With zero speed the travel time is +inf
   * (NaN for a zero distance) and the comparison is false either way.
   */
  predicate AdaptionTooSlow(config: Config, scale: real, dist: real, fpTime: real): (b: bool)
    ensures b ==> config.mobility.speed != 0.0
    ensures config.mobility.speed > 0.0 && scale >= 0.0 && dist >= 0.0 && fpTime <= 0.0 ==> !b
  {
    config.mobility.speed != 0.0 && fpTime > (dist * scale) / config.mobility.speed
  }

  /**
   * motionCost over the objective's fields. base is what the OMPL base class's
   * integration of stateCost along the segment returns; dist the Euclidean
   * distance of the two positions in cells.
   */
  function MotionCostFor(grid: Option<TravGrid>, config: Config, s1: PlannerState, s2: PlannerState,
                         dist: real, base: Result<Cost, CostError>): (r: Result<Cost, CostError>)
    requires IsDistance(s1, s2, dist)
    requires config.envType.EnvSherpa? ==> config.numFootprintClasses > 0
    requires config.envType.EnvSherpa? && base.Ok? ==> grid.Some?
    ensures !config.envType.EnvSherpa? ==> r == base
    ensures r.Err? <==> base.Err?
    ensures r.Err? ==> r == base
  {
    if !config.envType.EnvSherpa? || base.Err? then base
    else
      var fpTime := FootprintTime(config, s1.footprintClass, s2.footprintClass);
      var withTime := AddTime(base.value, fpTime);
      var cost := if fpTime > 0.0 then AddTime(withTime, config.adaptFootprintPenalty) else withTime;
      if AdaptionTooSlow(config, grid.value.scaleX, dist, fpTime) then Ok(Infinite) else Ok(cost)
  }

  /**
   * The objective object: its configuration never changes; the grid and the
   * data handles are set at construction or later by SetTravGrid.
   */
  class Objective {
    const interpolateMotionCost: bool  // handed to the base class's integration
    const config: Config
    var travGrid: Option<TravGrid>
    var travData: Option<TravData>

    /** Construction without a grid: both handles empty. */
    constructor WithoutGrid(interpolate: bool, config: Config)
      ensures interpolateMotionCost == interpolate && this.config == config
      ensures travGrid == None && travData == None
      ensures forall s :: StateCost(s) == Err(NoTravGrid)
    {
      interpolateMotionCost := interpolate;
      this.config := config;
      travGrid := None;
      travData := None;
    }

    /** Construction with the grid and data handles given. */
    constructor WithGrid(interpolate: bool, grid: Option<TravGrid>, data: Option<TravData>, config: Config)
      ensures interpolateMotionCost == interpolate && this.config == config
      ensures travGrid == grid && travData == data
    {
      interpolateMotionCost := interpolate;
      this.config := config;
      travGrid := grid;
      travData := data;
    }

    /** Replaces both handles; the configuration is constant. */
    method SetTravGrid(grid: Option<TravGrid>, data: Option<TravData>)
      modifies this
      ensures travGrid == grid && travData == data
    {
      travGrid := grid;
      travData := data;
    }

    /** stateCost on the current handles. */
    function StateCost(s: PlannerState): (r: Result<Cost, CostError>)
      reads this
      requires WellPaired(travGrid, travData)
      ensures travGrid.None? ==> r == Err(NoTravGrid)
    {
      StateCostFor(travGrid, travData, config, s)
    }

    /** motionCost on the current grid handle. */
    function MotionCost(s1: PlannerState, s2: PlannerState, dist: real,
                        base: Result<Cost, CostError>): (r: Result<Cost, CostError>)
      reads this
      requires IsDistance(s1, s2, dist)
      requires config.envType.EnvSherpa? ==> config.numFootprintClasses > 0
      requires config.envType.EnvSherpa? && base.Ok? ==> travGrid.Some?
      ensures !config.envType.EnvSherpa? ==> r == base
    {
      MotionCostFor(travGrid, config, s1, s2, dist, base)
    }
  }

  // ---------------------------------------------------------------------
  // State cost

  /** An in-bounds state of a known kind costs the cell at row y, column x. */
  lemma StateCostReadsCell(grid: TravGrid, data: TravData, config: Config, s: PlannerState)
    requires DataFits(grid, data) && InGrid(grid, s.x, s.y) && !config.envType.EnvOther?
    ensures var row := CellIndex(s.y, grid.cellSizeY);
            var col := CellIndex(s.x, grid.cellSizeX);
            var fc := if config.envType.EnvSherpa? then s.footprintClass else 0;
            StateCostFor(Some(grid), Some(data), config, s)
              == Ok(Finite(CellCost(config, grid.scaleX, grid.drivabilityOf(data[row][col]), fc)))
  {
  }

  /** Every environment kind but the three known ones is rejected, whatever the state. */
  lemma StateCostUnknownKind(grid: Option<TravGrid>, data: Option<TravData>, config: Config,
                             s: PlannerState)
    requires WellPaired(grid, data) && config.envType.EnvOther?
    ensures StateCostFor(grid, data, config, s).Err?
  {
  }

  /** An impassable cell or a robot with zero speed costs exactly the maximum finite value. */
  lemma CellCostImpassable(config: Config, scale: real, drivability: real, fc: nat)
    requires drivability == 0.0 || config.mobility.speed == 0.0
    ensures CellCost(config, scale, drivability, fc) == MaxFinite
    ensures Less(Finite(CellCost(config, scale, drivability, fc)), Infinite)
  {
  }

  /** Outside SHERPA the cost is the time to cross a cell at the achievable speed. */
  lemma CellCostCrossingTime(config: Config, scale: real, drivability: real, fc: nat)
    requires drivability != 0.0 && config.mobility.speed != 0.0 && !config.envType.EnvSherpa?
    ensures CellCost(config, scale, drivability, fc) == (scale / config.mobility.speed) / drivability
  {
  }

  /** For SHERPA the crossing time is multiplied by (N + 1) / (fc + 1). */
  lemma CellCostFootprintFactor(config: Config, scale: real, drivability: real, fc: nat)
    requires drivability != 0.0 && config.mobility.speed != 0.0 && config.envType.EnvSherpa?
    ensures var n := config.numFootprintClasses as real;
            CellCost(config, scale, drivability, fc)
              == (scale / config.mobility.speed) / drivability * (n + 1.0) / (fc as real + 1.0)
  {
    var n := config.numFootprintClasses as real;
    var t := (scale / config.mobility.speed) / drivability;
    var k := fc as real + 1.0;
    assert t / (k / (n + 1.0)) == t * (n + 1.0) / k by {
      assert (k / (n + 1.0)) * ((n + 1.0) / k) == 1.0;
    }
  }

  /** With a positive scale, speed and driveability the cost is strictly positive. */
  lemma CellCostPositive(config: Config, scale: real, drivability: real, fc: nat)
    requires scale > 0.0 && config.mobility.speed > 0.0 && drivability > 0.0
    ensures CellCost(config, scale, drivability, fc) > 0.0
  {
    var t := (scale / config.mobility.speed) / drivability;
    assert t > 0.0;
    if config.envType.EnvSherpa? {
      CellCostFootprintFactor(config, scale, drivability, fc);
      var n := config.numFootprintClasses as real;
      assert t * (n + 1.0) > 0.0;
    }
  }

  /** For SHERPA a larger footprint class gives a strictly smaller cost. */
  lemma CellCostDecreasingInFootprint(config: Config, scale: real, drivability: real, fc1: nat, fc2: nat)
    requires scale > 0.0 && config.mobility.speed > 0.0 && drivability > 0.0
    requires config.envType.EnvSherpa? && fc1 < fc2
    ensures CellCost(config, scale, drivability, fc2) < CellCost(config, scale, drivability, fc1)
  {
    CellCostFootprintFactor(config, scale, drivability, fc1);
    CellCostFootprintFactor(config, scale, drivability, fc2);
    var n := config.numFootprintClasses as real;
    var m := (scale / config.mobility.speed) / drivability * (n + 1.0);
    assert m > 0.0;
    var k1, k2 := fc1 as real + 1.0, fc2 as real + 1.0;
    assert 0.0 < k1 < k2;
    assert m / k2 < m / k1 by {
      assert m / k2 * k2 == m == m / k1 * k1;
      assert m / k2 * k1 < m / k2 * k2;
    }
  }

  /** The minimum footprint (class 0) multiplies the crossing time by N + 1. */
  lemma CellCostMinFootprint(config: Config, scale: real, drivability: real)
    requires drivability != 0.0 && config.mobility.speed != 0.0 && config.envType.EnvSherpa?
    ensures CellCost(config, scale, drivability, 0)
              == (scale / config.mobility.speed) / drivability * (config.numFootprintClasses as real + 1.0)
  {
    CellCostFootprintFactor(config, scale, drivability, 0);
  }

  /**
   * The largest footprint class N - 1 still multiplies the crossing time by
   * (N + 1) / N: only a class index of N would give the unscaled time.
   */
  lemma CellCostMaxFootprint(config: Config, scale: real, drivability: real)
    requires drivability != 0.0 && config.mobility.speed != 0.0 && config.envType.EnvSherpa?
    requires config.numFootprintClasses > 0
    ensures var n := config.numFootprintClasses as real;
            CellCost(config, scale, drivability, config.numFootprintClasses - 1)
              == (scale / config.mobility.speed) / drivability * (n + 1.0) / n
  {
    CellCostFootprintFactor(config, scale, drivability, config.numFootprintClasses - 1);
  }

  /** Scale 1, speed 2 and driveability 0.5 cost one second per cell. */
  lemma CellCostExample(config: Config)
    requires config.mobility.speed == 2.0 && !config.envType.EnvSherpa?
    ensures CellCost(config, 1.0, 0.5, 0) == 1.0
  {
  }

  /** Three footprint classes, class 2: the crossing time is divided by 3/4. */
  lemma CellCostFootprintExample(config: Config)
    requires config.mobility.speed == 1.0 && config.envType.EnvSherpa?
    requires config.numFootprintClasses == 3
    ensures CellCost(config, 3.0, 1.0, 2) == 4.0
  {
    CellCostFootprintFactor(config, 3.0, 1.0, 2);
  }

  // ---------------------------------------------------------------------
  // Motion cost

  /** The footprint adaptation time does not depend on the direction of the change. */
  lemma FootprintTimeSymmetric(config: Config, c1: nat, c2: nat)
    requires config.numFootprintClasses > 0
    ensures FootprintTime(config, c1, c2) == FootprintTime(config, c2, c1)
  {
  }

  /** With a non-zero full-range time, the adaptation time is zero exactly for equal classes. */
  lemma FootprintTimeZeroIffSameClass(config: Config, c1: nat, c2: nat)
    requires config.numFootprintClasses > 0 && config.timeToAdaptFootprint != 0.0
    ensures FootprintTime(config, c1, c2) == 0.0 <==> c1 == c2
  {
    var q := Abs(c1 - c2) as real / config.numFootprintClasses as real;
    if c1 != c2 {
      assert q > 0.0;
      assert q * config.timeToAdaptFootprint != 0.0;
    }
  }

  /**
   * For SHERPA with a positive full-range time and a feasible change, the
   * fixed penalty is added exactly when the footprint class changes.
   */
  lemma MotionCostPenaltyIffChange(grid: TravGrid, config: Config, s1: PlannerState, s2: PlannerState,
                                   dist: real, b: real)
    requires IsDistance(s1, s2, dist)
    requires config.envType.EnvSherpa? && config.numFootprintClasses > 0
    requires config.timeToAdaptFootprint > 0.0
    requires !AdaptionTooSlow(config, grid.scaleX, dist,
                              FootprintTime(config, s1.footprintClass, s2.footprintClass))
    ensures var fpTime := FootprintTime(config, s1.footprintClass, s2.footprintClass);
            var penalty := if s1.footprintClass != s2.footprintClass then config.adaptFootprintPenalty else 0.0;
            MotionCostFor(Some(grid), config, s1, s2, dist, Ok(Finite(b))) == Ok(Finite(b + fpTime + penalty))
  {
    var q := Abs(s1.footprintClass - s2.footprintClass) as real / config.numFootprintClasses as real;
    if s1.footprintClass != s2.footprintClass {
      assert q > 0.0;
      assert q * config.timeToAdaptFootprint > 0.0;
    }
  }

  /** Classes 0 and 2 of three classes with a full-range time of 6 take 4 seconds. */
  lemma FootprintTimeExample(config: Config)
    requires config.numFootprintClasses == 3 && config.timeToAdaptFootprint == 6.0
    ensures FootprintTime(config, 0, 2) == 4.0
  {
  }

  /** For SHERPA with both states in the same footprint class the base cost is returned. */
  lemma MotionCostSameClass(grid: TravGrid, config: Config, s1: PlannerState, s2: PlannerState,
                            dist: real, base: Result<Cost, CostError>)
    requires IsDistance(s1, s2, dist)
    requires config.envType.EnvSherpa? && config.numFootprintClasses > 0
    requires config.mobility.speed >= 0.0 && s1.footprintClass == s2.footprintClass
    ensures MotionCostFor(Some(grid), config, s1, s2, dist, base) == base
  {
    if base.Ok? && config.mobility.speed != 0.0 {
      assert (dist * grid.scaleX) / config.mobility.speed >= 0.0;
    }
  }

  /**
   * For SHERPA with a finite base cost, the motion is forbidden (infinite cost)
   * exactly when adapting the footprint takes longer than driving the segment.
   */
  lemma MotionCostInfiniteIff(grid: TravGrid, config: Config, s1: PlannerState, s2: PlannerState,
                              dist: real, b: real)
    requires IsDistance(s1, s2, dist)
    requires config.envType.EnvSherpa? && config.numFootprintClasses > 0
    ensures var fpTime := FootprintTime(config, s1.footprintClass, s2.footprintClass);
            var r := MotionCostFor(Some(grid), config, s1, s2, dist, Ok(Finite(b)));
            r == Ok(Infinite) <==> AdaptionTooSlow(config, grid.scaleX, dist, fpTime)
  {
  }

  /**
   * For SHERPA, a footprint change that fits into the travel time adds the
   * adaptation time and the fixed penalty to the base cost.
   */
  lemma MotionCostFeasibleChange(grid: TravGrid, config: Config, s1: PlannerState, s2: PlannerState,
                                 dist: real, b: real)
    requires IsDistance(s1, s2, dist)
    requires config.envType.EnvSherpa? && config.numFootprintClasses > 0
    requires config.mobility.speed != 0.0
    requires var fpTime := FootprintTime(config, s1.footprintClass, s2.footprintClass);
             0.0 < fpTime <= (dist * grid.scaleX) / config.mobility.speed
    ensures var fpTime := FootprintTime(config, s1.footprintClass, s2.footprintClass);
            MotionCostFor(Some(grid), config, s1, s2, dist, Ok(Finite(b)))
              == Ok(Finite(b + fpTime + config.adaptFootprintPenalty))
  {
  }

  /**
   * With a non-negative adaptation time and penalty the motion cost is never
   * below the base cost; in particular it is never negative when the base is not.
   */
  lemma MotionCostNotBelowBase(grid: Option<TravGrid>, config: Config, s1: PlannerState, s2: PlannerState,
                               dist: real, base: Cost)
    requires IsDistance(s1, s2, dist)
    requires config.envType.EnvSherpa? ==> config.numFootprintClasses > 0 && grid.Some?
    requires config.timeToAdaptFootprint >= 0.0 && config.adaptFootprintPenalty >= 0.0
    ensures var r := MotionCostFor(grid, config, s1, s2, dist, Ok(base));
            r.Ok? && !Less(r.value, base)
  {
    if config.envType.EnvSherpa? {
      var q := Abs(s1.footprintClass - s2.footprintClass) as real / config.numFootprintClasses as real;
      assert q >= 0.0;
      assert FootprintTime(config, s1.footprintClass, s2.footprintClass) >= 0.0;
    }
  }

  /** Classes 0 to 2 of three, full range 6 s, a one-cell move at speed 1: forbidden. */
  lemma MotionCostExample(config: Config, b: real)
    requires config.envType.EnvSherpa? && config.numFootprintClasses == 3
    requires config.timeToAdaptFootprint == 6.0 && config.mobility.speed == 1.0
    ensures var grid := TravGrid(1, 2, 1.0, c => 1.0);
            var s1 := PlannerState(0.5, 0.5, 0.0, 0);
            var s2 := PlannerState(0.5, 1.5, 0.0, 2);
            MotionCostFor(Some(grid), config, s1, s2, 1.0, Ok(Finite(b))) == Ok(Infinite)
  {
    FootprintTimeExample(config);
  }

  /** The maximum finite cost of an impassable cell stays distinguishable from Infinite. */
  lemma MaxFiniteBelowInfinite()
    ensures Less(Finite(MaxFinite), Infinite) && !Less(Infinite, Finite(MaxFinite))
    ensures Finite(MaxFinite) != Infinite
  {
  }
}
