# Traversal cost model of the OMPL motion planning environment

This project models, in Dafny, the terrain-based cost objective the motion
planning libraries hand to OMPL (`TravGridObjective`) and the set-up rules of
the SE2 control environment (`OmplEnvXYTHETA`).

* **State cost.** The objective maps a planner state to a cell of the
  traversability grid. The cell is read at row y and column x, both truncated
  toward zero. Its driveability becomes the time to cross one cell:
  `(scale / speed) / driveability`. An impassable cell or a robot with zero
  speed costs the largest finite double. For the SHERPA robot, the time is
  also divided by `(fc + 1) / (N + 1)`, where `fc` is the footprint class and
  `N` the number of classes. The query fails when no grid is attached, when
  the environment kind is unknown, or when the position lies outside
  `[0, cellSizeX) x [0, cellSizeY)`.
* **Motion cost.** The objective starts from the cost integrated by the OMPL
  base class. For SHERPA only, it adds the time to change the footprint
  (`|c1 - c2| / N` of the full-range time). When that time is positive, it
  also adds a fixed penalty. It returns the infinite cost when the footprint
  change takes longer than driving the segment (`distance * scale / speed`).
* **Environment.** The constructor stores a car length in the class-wide
  variable `mCarLength`. That length is the larger footprint length, else the
  larger footprint radius, else the value already stored, which is 2.0 at
  start-up. `initialize` sets state bounds `[0, X] x [0, Y]` from the grid. It
  then gives up on a zero turning speed. Otherwise it sets control bounds
  `[-speed, speed] x [-turning, turning]` and creates the objective.
  `setStartGoal` copies x, y and yaw into the problem definition. `fillPath`
  appends one converted state per solution state to the caller's vector.

Modules: `Wrappers` (Option, Result), `Configuration` (the configuration
fields read by the core), `Terrain` (the grid as extents, scale,
class-to-driveability function and a separate cell-data snapshot),
`TravGridObjective` (costs, the two operations, the objective class and their
lemmas), `OmplEnvXYTHETA` (the environment class and the shared car-length
slot).

Costs are `Finite(real) | Infinite`, and `MaxFinite` is the exact value of
`std::numeric_limits<double>::max()`. The C++ static `mCarLength` is a
`CarLengthSlot` object that every environment shares. The caller's
`std::vector<State>` and `bool&` are objects, so `FillPath`'s `modifies`
clause shows that the flag is never written.

The comment at src/ompl/objectives/TravGridObjective.hpp:126-127 says that
the maximum footprint means full speed and that the minimum footprint
multiplies the cost by the number of classes. The code divides by
`(fc + 1) / (N + 1)` instead. With that divisor the minimum footprint
multiplies the cost by N + 1, and the largest class N - 1 still multiplies it
by (N + 1) / N. The model keeps the code's ratio (`CellCostMinFootprint`,
`CellCostMaxFootprint`).

`MotionCostSameClass` needs a non-negative speed because of the test at
src/ompl/objectives/TravGridObjective.hpp:184. With a negative speed and a
positive distance the travel time is negative, so an adaptation time of 0
exceeds it. An equal-class SHERPA motion then costs Infinite, in the source
and in the model alike.

The state bounds set by `initialize` (src/ompl/OmplEnvXYTHETA.cpp:43-46) are
closed: they admit x == cellSizeX and y == cellSizeY. `stateCost`
(src/ompl/objectives/TravGridObjective.hpp:108-112) rejects exactly those
positions with "Invalid state received". `StateBoundsCoverGrid` shows that
the upper edges are the only gap between the two. A state placed on an upper
edge, for example one clamped there after propagation, would make the cost
query throw.

## Model

| member | source | states |
|---|---|---|
| `TravGridObjective.Objective.WithoutGrid` | src/ompl/objectives/TravGridObjective.hpp:41-48 | keeps the flag and the configuration, leaves both handles empty, so every state cost fails with NoTravGrid |
| `TravGridObjective.Objective.WithGrid` | src/ompl/objectives/TravGridObjective.hpp:50-59 | keeps the flag and the configuration and stores both given handles |
| `TravGridObjective.Objective.SetTravGrid` | src/ompl/objectives/TravGridObjective.hpp:64-67 | replaces the grid and data handles; the configuration is constant |
| `TravGridObjective.Objective.StateCost` | src/ompl/objectives/TravGridObjective.hpp:69-73 | on the objective's own handles, a missing grid always fails with NoTravGrid |
| `TravGridObjective.Objective.MotionCost` | src/ompl/objectives/TravGridObjective.hpp:136-146 | on the objective's own grid handle, any kind other than SHERPA returns the base cost |
| `TravGridObjective.Extract` | src/ompl/objectives/TravGridObjective.hpp:78-105 | the three known kinds yield the state's x and y, SHERPA also its footprint class (0 otherwise); every other kind yields nothing |
| `TravGridObjective.StateCostFor` | src/ompl/objectives/TravGridObjective.hpp:69-134 | fails with NoTravGrid, UnknownEnvironment or InvalidState in that order of checks; succeeds exactly for an attached grid, a known kind and a position in [0, X) x [0, Y); a success is never the infinite cost |
| `TravGridObjective.StateCostUnknownKind` | src/ompl/objectives/TravGridObjective.hpp:101-104 | every kind but XY, XYTHETA and SHERPA fails for every state |
| `TravGridObjective.StateCostReadsCell` | src/ompl/objectives/TravGridObjective.hpp:116-118 | an accepted state costs the driveability of data[trunc y][trunc x] |
| `Terrain.CellIndex` | src/ompl/objectives/TravGridObjective.hpp:117 | truncating an in-range coordinate gives an index inside the grid with index <= v < index + 1 |
| `Terrain.InGrid` | src/ompl/objectives/TravGridObjective.hpp:108-109 | the half-open test x in [0, X), y in [0, Y); an empty grid accepts no position |
| `Terrain.CellClass` | src/ompl/objectives/TravGridObjective.hpp:117 | the class value is that of the cell containing (x, y), at row y and column x of the data |
| `TravGridObjective.CellCost` | src/ompl/objectives/TravGridObjective.hpp:119-131 | the cost is MaxFinite unless driveability and speed are both non-zero; its values are stated by `CellCostImpassable`, `CellCostCrossingTime`, `CellCostFootprintFactor`, `CellCostPositive` and `CellCostDecreasingInFootprint` |
| `TravGridObjective.CellCostImpassable` | src/ompl/objectives/TravGridObjective.hpp:119-121 | zero driveability or zero speed gives exactly the maximum finite value, which is below Infinite |
| `TravGridObjective.CellCostCrossingTime` | src/ompl/objectives/TravGridObjective.hpp:122-125 | outside SHERPA the cost is (scale / speed) / driveability |
| `TravGridObjective.CellCostFootprintFactor` | src/ompl/objectives/TravGridObjective.hpp:126-130 | for SHERPA the cost is the crossing time times (N + 1) / (fc + 1) |
| `TravGridObjective.CellCostPositive` | src/ompl/objectives/TravGridObjective.hpp:119-131 | positive scale, speed and driveability give a strictly positive cost for every kind |
| `TravGridObjective.CellCostDecreasingInFootprint` | src/ompl/objectives/TravGridObjective.hpp:128-130 | for SHERPA a larger footprint class gives a strictly smaller cost |
| `TravGridObjective.CellCostMinFootprint` | src/ompl/objectives/TravGridObjective.hpp:126-130 | footprint class 0 multiplies the crossing time by N + 1 |
| `TravGridObjective.CellCostMaxFootprint` | src/ompl/objectives/TravGridObjective.hpp:126-130 | footprint class N - 1 multiplies the crossing time by (N + 1) / N |
| `TravGridObjective.CellCostExample` | src/ompl/objectives/TravGridObjective.hpp:125 | scale 1, speed 2, driveability 0.5 cost 1 |
| `TravGridObjective.CellCostFootprintExample` | src/ompl/objectives/TravGridObjective.hpp:129 | with 3 classes, class 2 divides the crossing time by 3/4 |
| `TravGridObjective.MaxFiniteBelowInfinite` | src/ompl/objectives/TravGridObjective.hpp:121 | the maximum finite cost set here and the infinite cost set at line 187 are distinct and ordered |
| `TravGridObjective.MotionCostFor` | src/ompl/objectives/TravGridObjective.hpp:136-198 | non-SHERPA kinds return the base cost unchanged; it fails exactly when the base integration fails, with the same error |
| `TravGridObjective.Abs` | src/ompl/objectives/TravGridObjective.hpp:154 | the absolute class difference, equal to the difference or its negation |
| `TravGridObjective.AddTime` | src/ompl/objectives/TravGridObjective.hpp:159-163 | adding time keeps a finite cost finite and adds to its value; an infinite base absorbs the addition, as IEEE inf + t does |
| `TravGridObjective.FootprintTime` | src/ompl/objectives/TravGridObjective.hpp:154-156 | equal classes take no time; a non-negative full-range time gives a non-negative adaptation time; symmetry and the zero case are in `FootprintTimeSymmetric` and `FootprintTimeZeroIffSameClass` |
| `TravGridObjective.AdaptionTooSlow` | src/ompl/objectives/TravGridObjective.hpp:173-184 | true only for a non-zero speed; with a positive speed, no footprint change is never too slow; how it decides the result is in `MotionCostInfiniteIff` |
| `TravGridObjective.FootprintTimeSymmetric` | src/ompl/objectives/TravGridObjective.hpp:154-156 | the adaptation time is the same with the two states swapped |
| `TravGridObjective.FootprintTimeZeroIffSameClass` | src/ompl/objectives/TravGridObjective.hpp:154-156 | with a non-zero full-range time, the adaptation time is zero exactly for equal classes |
| `TravGridObjective.MotionCostPenaltyIffChange` | src/ompl/objectives/TravGridObjective.hpp:158-163 | for SHERPA with a positive full-range time and a feasible motion, the fixed penalty is added exactly when the classes differ |
| `TravGridObjective.FootprintTimeExample` | src/ompl/objectives/TravGridObjective.hpp:154-156 | classes 0 and 2 of 3 with full range 6 take 4 |
| `TravGridObjective.MotionCostSameClass` | src/ompl/objectives/TravGridObjective.hpp:154-188 | for SHERPA with equal classes and non-negative speed, the base cost is returned |
| `TravGridObjective.MotionCostInfiniteIff` | src/ompl/objectives/TravGridObjective.hpp:173-188 | for SHERPA with a finite base, the result is infinite if and only if the adaptation time exceeds the travel time |
| `TravGridObjective.MotionCostFeasibleChange` | src/ompl/objectives/TravGridObjective.hpp:158-188 | for SHERPA with 0 < fp <= travel time, the result is base + fp + penalty |
| `TravGridObjective.MotionCostNotBelowBase` | src/ompl/objectives/TravGridObjective.hpp:140-197 | with non-negative adaptation time and penalty, the result is never below the base cost |
| `TravGridObjective.MotionCostExample` | src/ompl/objectives/TravGridObjective.hpp:184-188 | 4 s of adaptation over a 1 s move is infinite |
| `Configuration.Max` | src/ompl/OmplEnvXYTHETA.cpp:21 | std::max: an upper bound of both arguments, equal to one of them |
| `Configuration.Larger` | src/ompl/OmplEnvXYTHETA.cpp:21 | the larger of the pair, equal to one of its entries |
| `OmplEnvXYTHETA.CarLengthSlot.constructor` | src/ompl/OmplEnvXYTHETA.cpp:17 | the shared car length starts at 2.0 |
| `OmplEnvXYTHETA.SelectCarLength` | src/ompl/OmplEnvXYTHETA.cpp:20-32 | the chosen length is zero exactly when length, radius and current value all are |
| `OmplEnvXYTHETA.SelectCarLengthPriority` | src/ompl/OmplEnvXYTHETA.cpp:21-31 | the length wins when non-zero, then the radius, then the current value |
| `OmplEnvXYTHETA.OmplEnv.constructor` | src/ompl/OmplEnvXYTHETA.cpp:20-33 | stores the selected length in the shared slot; nothing is set up yet |
| `OmplEnvXYTHETA.DefinesNoLength` | src/ompl/OmplEnvXYTHETA.cpp:22-25 | both footprint maxima, length and radius, are zero; what the constructor then keeps is in `SelectCarLengthPriority` |
| `OmplEnvXYTHETA.CarLengthAfter` | src/ompl/OmplEnvXYTHETA.cpp:20-32 | after repeated constructions the shared length is the initial value or the length of one of the configurations that define one |
| `OmplEnvXYTHETA.CarLengthNeverZero` | src/ompl/OmplEnvXYTHETA.cpp:17-32 | after any sequence of constructions the shared length is non-zero |
| `OmplEnvXYTHETA.CarLengthPositive` | src/ompl/OmplEnvXYTHETA.cpp:17-32 | with non-negative footprint dimensions the shared length stays positive |
| `OmplEnvXYTHETA.CarLengthStaysDefault` | src/ompl/OmplEnvXYTHETA.cpp:25-27 | while no configuration defines a length, the value remains 2.0 |
| `OmplEnvXYTHETA.CarLengthFromLastDefining` | src/ompl/OmplEnvXYTHETA.cpp:20-32 | the shared length is that of the last configuration defining one, whatever came before |
| `OmplEnvXYTHETA.OmplEnv.Initialize` | src/ompl/OmplEnvXYTHETA.cpp:35-101 | sets state bounds first; returns false exactly for zero turning speed, leaving objective and problem untouched; otherwise sets control bounds and a fresh objective on the grid and data, with interpolation off and a new empty problem |
| `OmplEnvXYTHETA.StateBoundsFor` | src/ompl/OmplEnvXYTHETA.cpp:42-46 | two-dimensional bounds with low <= high in each dimension; how they relate to stateCost's domain is in `StateBoundsCoverGrid` |
| `OmplEnvXYTHETA.StateBoundsCoverGrid` | src/ompl/OmplEnvXYTHETA.cpp:42-46 | every position stateCost accepts is within the state bounds; the only ones within that it rejects lie on the upper edges |
| `OmplEnvXYTHETA.ControlBoundsFor` | src/ompl/OmplEnvXYTHETA.cpp:60-63 | two-dimensional bounds, symmetric around zero, with low <= high for non-negative speeds; the exact values are in `ControlBoundsSymmetric` |
| `OmplEnvXYTHETA.ControlBoundsSymmetric` | src/ompl/OmplEnvXYTHETA.cpp:60-63 | control bounds are [-speed, speed] and [-turning, turning] |
| `OmplEnvXYTHETA.OmplEnv.SetStartGoal` | src/ompl/OmplEnvXYTHETA.cpp:103-126 | start and goal get x, y and yaw unchanged; nothing else changes; returns true |
| `OmplEnvXYTHETA.ToPlanner` | src/ompl/OmplEnvXYTHETA.cpp:108-117 | reads x, y and yaw of a state's pose; `FromPlanner`'s contract says it reads back what fillPath builds; `StateRoundTrip` gives the other direction |
| `OmplEnvXYTHETA.FromPlanner` | src/ompl/OmplEnvXYTHETA.cpp:141-147 | builds a state with z = 0 from which the planner state is read back unchanged |
| `OmplEnvXYTHETA.StateRoundTrip` | src/ompl/OmplEnvXYTHETA.cpp:108-117 | a state whose orientation is a rotation about z, with yaw in the range getYaw() returns, and z = 0 survives the trip to the planner and back |
| `OmplEnvXYTHETA.OmplEnv.FillPath` | src/ompl/OmplEnvXYTHETA.cpp:132-154 | appends one converted state per path state in order, keeps prior entries, never writes the flag, returns true |
| `OmplEnvXYTHETA.ConvertPath` | src/ompl/OmplEnvXYTHETA.cpp:137-151 | one converted state per path state; contents per index are in `ConvertPathAt` |
| `OmplEnvXYTHETA.ConvertPathAppend` | src/ompl/OmplEnvXYTHETA.cpp:137-151 | converting one more path state appends exactly its conversion |
| `OmplEnvXYTHETA.ConvertPathAt` | src/ompl/OmplEnvXYTHETA.cpp:141-149 | the i-th converted state has x, y and yaw of the i-th path state and z = 0 |

## Left out

- The OMPL base `StateCostIntegralObjective::motionCost` (TravGridObjective.hpp:140) is a foreign library call. `MotionCostFor` takes its result as the parameter `base`. Because it calls stateCost, a failing base is propagated, and SHERPA with a successful base requires an attached grid.
- The Euclidean norm (Eigen's `norm()`, TravGridObjective.hpp:173-175) is not computed. `MotionCostFor` receives it as `dist`, fixed by `dist >= 0` and `dist * dist` equal to the squared distance.
- IEEE doubles: reals are used, so overflow to infinity and rounding are not modelled. NaN is not modelled either. For zero speed the travel time is +inf, or NaN for a zero distance; the comparison at line 184 is false in both cases, and `AdaptionTooSlow` states exactly that.
- `MotionCostFor` requires `N > 0` for SHERPA. The footprint classes are 0..N-1, and `N = 0` would divide by zero at line 155.
- `StateCostFor` requires that an attached grid comes with a data snapshot of its dimensions. The source dereferences the data at line 117 without checking.
- Footprint classes are natural numbers, as the SHERPA state space bounds them. So `Abs` takes the unsigned subtraction at line 154 as the plain absolute difference.
- The grid scale is a positive real, as envire cell sizes are.
- The envire grid and `getTraversabilityClass` are not part of this model. The grid is its extents, its scale and a class-to-driveability function.
- Config.hpp is not part of this model. Only the fields the core reads appear, and the environment kinds other than the three handled are `EnvOther`.
- The ODE propagation (`simpleOde`, `postPropagate`, the Runge-Kutta solver), the propagation step and control duration settings, the validity checker, the RRT planner, the problem definition's objective and `getBalancedObjective` (OmplEnvXYTHETA.cpp:66-98, 157-166). These are library wiring and numerics. The problem definition is reduced to its start and goal.
- `setLongestValidSegmentFraction(1/cellSizeX)` (OmplEnvXYTHETA.cpp:48) is OMPL configuration and is not modelled.
- `solve` and `getPathStates` belong to the OMPL base environment, which is not part of this model. `FillPath` receives the solution path states as a parameter.
- StateRoundTrip: a state's orientation is reduced to a yaw angle. In the source, the trip through setStartGoal and fillPath loses roll and pitch, and normalises yaw into the range getYaw() returns. The lemma does not cover those parts.
- OmplEnv.SetStartGoal requires a problem definition, that is, a successful `Initialize` first. The source uses `mpStateSpace` and `mpProblemDefinition` without checking them (OmplEnvXYTHETA.cpp:105-106, 123), so calling it earlier dereferences null pointers.
- Orientation is kept as a yaw angle. The quaternion built with `AngleAxis` and the normalisation of yaw by `getYaw()` are not modelled.
- OmplEnv.Initialize: the control space created before the abort keeps OMPL's default bounds. The model records them as unset (`None`).
- src/ompl/spaces/SherpaStateSpace.cpp (state allocation and projection), src/AbstractMotionPlanningLibrary.hpp (the abstract interface) and viz/PluginLoader.* (the UI plugin) are library wrappers outside the core.
- Logging (`LOG_WARN`, `LOG_INFO`, the path-state counter only being logged) and the thread-safety of concurrent cost queries.
