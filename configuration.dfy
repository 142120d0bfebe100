/**
 * The planner configuration as far as the cost model and the XYTHETA
 * environment read it. Config.hpp itself is not part of this model; only the
 * fields the core reads appear here.
 */
module Configuration {

  /** The environment representation the planner works in (mEnvType). */
  datatype EnvType =
    | EnvXY          // planar position
    | EnvXYTheta     // planar position and orientation
    | EnvSherpa      // planar pose and a footprint class
    | EnvOther(id: nat)  // every other kind of the configuration's enum

  /** Forward and turning speed of the robot (mMobility). */
  datatype Mobility = Mobility(speed: real, turningSpeed: real)

  /** A (first, second) pair such as mFootprintLengthMinMax. */
  datatype MinMax = MinMax(first: real, second: real)

  datatype Config = Config(
    envType: EnvType,
    mobility: Mobility,
    numFootprintClasses: nat,
    timeToAdaptFootprint: real,
    adaptFootprintPenalty: real,
    footprintLengthMinMax: MinMax,
    footprintRadiusMinMax: MinMax)

  /** std::max on two values: the first unless it is less than the second. */
  function Max(a: real, b: real): (r: real)
    ensures r >= a && r >= b
    ensures r == a || r == b
  {
    if a < b then b else a
  }

  /** The larger of the two entries of a min/max pair. */
  function Larger(p: MinMax): (r: real)
    ensures r >= p.first && r >= p.second
    ensures r == p.first || r == p.second
  {
    Max(p.first, p.second)
  }
}
