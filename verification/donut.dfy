/**
 * The donut heat source of friction-stir processing: a rotating tool whose
 * shoulder deposits heat in an annulus around the tool centre, with a
 * quadratic depth profile, a Gaussian radial decay, a fixed value under the
 * pin, and different heat modifiers on the advancing and retreating sides.
 *
 * `exp` and `atan2` are passed to the evaluation as functions: nothing is
 * assumed about them except where a lemma says so (`exp` positive at the one
 * argument used).
 */
module Donut {
  import opened Wrappers
  import opened Numerics
  import opened Axes
  import opened HeatSourceBase

  /** The value returned for a point under the tool pin (inside the inner radius). */
  const InnerZoneValue: real := 300.0

  /** Defaults of the optional database entries. */
  const DefaultRotationSpeed: real := 0.0
  const DefaultHeatModifier: real := 1.0
  const DefaultEfficiency: real := 0.8
  const DefaultForce: real := 4900.0

  /** A required database entry is missing. */
  datatype ConfigError = MissingKey(key: string)

  /** The entries the donut constructor reads, after defaults are filled in. */
  datatype DonutConfig = DonutConfig(
    innerRadiusSquared: real,
    diameter: real,
    rotationSpeed: real,
    advancingHeatModifier: real,
    retreatingHeatModifier: real,
    efficiency: real,
    force: real)

  function GetOr(db: Database, key: string, default: real): real
  {
    if key in db.numbers then db.numbers[key] else default
  }

  /**
   * The constructor's reads: inner_radius and diameter are required (a
   * missing one aborts construction, inner_radius checked first), the other
   * entries fall back to their defaults; the inner radius is stored squared.
   */
  function ReadDonutConfig(db: Database): (r: Result<DonutConfig, ConfigError>)
    ensures r.Success? <==> "inner_radius" in db.numbers && "diameter" in db.numbers
    ensures "inner_radius" !in db.numbers ==> r == Failure(MissingKey("inner_radius"))
    ensures "inner_radius" in db.numbers && "diameter" !in db.numbers ==> r == Failure(MissingKey("diameter"))
    ensures r.Success? ==>
      && r.value.innerRadiusSquared == Sq(db.numbers["inner_radius"])
      && r.value.innerRadiusSquared >= 0.0
      && r.value.diameter == db.numbers["diameter"]
  {
    if "inner_radius" !in db.numbers then Failure(MissingKey("inner_radius"))
    else if "diameter" !in db.numbers then Failure(MissingKey("diameter"))
    else
      var innerRadius := db.numbers["inner_radius"];
      SqNonnegative(innerRadius);
      Success(DonutConfig(
        Sq(innerRadius),
        db.numbers["diameter"],
        GetOr(db, "rotation_speed", DefaultRotationSpeed),
        GetOr(db, "advancing_heat_modifier", DefaultHeatModifier),
        GetOr(db, "retreating_heat_modifier", DefaultHeatModifier),
        GetOr(db, "absorption_efficiency", DefaultEfficiency),
        GetOr(db, "force", DefaultForce)))
  }

  /** Optional entries that are absent take their documented defaults; present ones are taken as given. */
  lemma ReadDonutConfigDefaults(db: Database)
    requires "inner_radius" in db.numbers && "diameter" in db.numbers
    ensures var c := ReadDonutConfig(db).value;
      && c.rotationSpeed == (if "rotation_speed" in db.numbers then db.numbers["rotation_speed"] else 0.0)
      && c.advancingHeatModifier == (if "advancing_heat_modifier" in db.numbers then db.numbers["advancing_heat_modifier"] else 1.0)
      && c.retreatingHeatModifier == (if "retreating_heat_modifier" in db.numbers then db.numbers["retreating_heat_modifier"] else 1.0)
      && c.efficiency == (if "absorption_efficiency" in db.numbers then db.numbers["absorption_efficiency"] else 0.8)
      && c.force == (if "force" in db.numbers then db.numbers["force"] else 4900.0)
  {
  }

  /**
   * The entries the donut constructor documents: absorption_efficiency in
   * [0,1]; depth, diameter, inner_radius and max_power non-negative; the
   * scan-path input file.
   */
  predicate ValidDonutDatabase(db: Database)
  {
    && InUnitInterval(db, "absorption_efficiency")
    && NonNegative(db, "depth")
    && NonNegative(db, "diameter")
    && NonNegative(db, "inner_radius")
    && NonNegative(db, "max_power")
    && "input_file" in db.strings
  }

  /** A database in the documented domain is read without error into the documented ranges. */
  lemma DocumentedDatabaseReads(db: Database)
    requires ValidDonutDatabase(db)
    ensures ReadDonutConfig(db).Success?
    ensures var c := ReadDonutConfig(db).value;
      && 0.0 <= c.efficiency <= 1.0
      && c.diameter >= 0.0
      && c.innerRadiusSquared >= 0.0
  {
  }

  /**
   * Depth profile -3 s^2 - 2 s + 1 with s = z / depth, z measured from the
   * surface (negative below it).
   */
  function DepthProfile(z: real, depth: real): real
    requires depth > 0.0
  {
    -3.0 * Sq(z / depth) - 2.0 * (z / depth) + 1.0
  }

  /** The profile is 1 at the surface and 0 at the tool depth. */
  lemma DepthProfileEnds(depth: real)
    requires depth > 0.0
    ensures DepthProfile(0.0, depth) == 1.0
    ensures DepthProfile(-depth, depth) == 0.0
  {
  }

  lemma DivisionMonotone(a: real, b: real, d: real)
    requires d > 0.0
    ensures a <= b <==> a / d <= b / d
    ensures a < b <==> a / d < b / d
  {
    assert a == (a / d) * d && b == (b / d) * d;
    assert b - a == (b / d - a / d) * d;
  }

  /**
   * The profile is non-negative exactly on [-depth, depth/3], positive
   * exactly inside it; above depth/3 it is negative, and nothing in the
   * evaluation cuts it off there.
   */
  lemma {:induction false} DepthProfileSign(z: real, depth: real)
    requires depth > 0.0
    ensures DepthProfile(z, depth) >= 0.0 <==> -depth <= z <= depth / 3.0
    ensures DepthProfile(z, depth) > 0.0 <==> -depth < z < depth / 3.0
  {
    var s := z / depth;
    assert DepthProfile(z, depth) == (1.0 - 3.0 * s) * (1.0 + s);
    DivisionMonotone(-depth, z, depth);
    DivisionMonotone(z, depth / 3.0, depth);
    assert -depth / depth == -1.0;
    assert (depth / 3.0) / depth == 1.0 / 3.0;
    ProductSign(1.0 - 3.0 * s, 1.0 + s);
  }

  /**
   * Mechanical power of the tool: torque (force times radius) times angular
   * velocity, where `rotationSpeed` is converted as if it were in rev/min.
   * It vanishes with the rotation speed and, for a positive force and
   * diameter, has its sign.
   */
  function ToolPower(force: real, diameter: real, rotationSpeed: real): (p: real)
    ensures rotationSpeed == 0.0 ==> p == 0.0
    ensures force > 0.0 && diameter > 0.0 ==>
      (p > 0.0 <==> rotationSpeed > 0.0) && (p < 0.0 <==> rotationSpeed < 0.0)
  {
    var toolRadius := diameter / 2.0;
    var angularVelocity := rotationSpeed * 2.0 * PI / 60.0;
    var torque := force * toolRadius;
    ProductSign(force, toolRadius);
    ProductSign(torque, angularVelocity);
    torque * angularVelocity
  }

  /**
   * The heat coefficient: efficiency times power times `log01`, over the
   * tool-face area times the depth. It vanishes when any factor of the
   * numerator does, and for positive efficiency and power it has the sign of
   * `log01`.
   */
  function HeatCoefficient(efficiency: real, power: real, log01: real, diameter: real, depth: real): (a: real)
    requires diameter > 0.0 && depth > 0.0
    ensures efficiency == 0.0 || power == 0.0 || log01 == 0.0 ==> a == 0.0
    ensures efficiency > 0.0 && power > 0.0 ==> (a < 0.0 <==> log01 < 0.0) && (a > 0.0 <==> log01 > 0.0)
  {
    var toolRadius := diameter / 2.0;
    var area := PI * Sq(toolRadius) * depth;
    ProductSign(toolRadius, toolRadius);
    ProductSign(PI * Sq(toolRadius), depth);
    ProductSign(efficiency, power);
    ProductSign(efficiency * power, log01);
    QuotientSign(efficiency * power * log01, area);
    efficiency * power * log01 / area
  }

  /** The source's angle of a point relative to the tool: fmod of the difference, not normalised. */
  function RelativeAngle(pointAngle: real, toolAngle: real): (r: real)
    ensures -2.0 * PI < r < 2.0 * PI
  {
    Fmod(pointAngle - toolAngle, 2.0 * PI)
  }

  /** The source's side test: the relative angle lies in [-PI/2, PI/2]. */
  predicate OnAdvancingSide(pointAngle: real, toolAngle: real)
  {
    -PI / 2.0 <= RelativeAngle(pointAngle, toolAngle) <= PI / 2.0
  }

  /** The side test on the relative angle normalised into (-PI, PI]. */
  predicate IntendedAdvancingSide(pointAngle: real, toolAngle: real)
  {
    -PI / 2.0 <= NormalisedAngle(pointAngle - toolAngle) <= PI / 2.0
  }

  /**
   * With the relative angle normalised, the side depends only on the
   * direction of the point relative to the tool: two angle pairs whose
   * differences are a whole number of turns apart fall on the same side.
   */
  lemma {:induction false} IntendedSideDependsOnlyOnDirection(p1: real, t1: real, p2: real, t2: real)
    requires IsMultiple((p1 - t1) - (p2 - t2), 2.0 * PI)
    ensures IntendedAdvancingSide(p1, t1) == IntendedAdvancingSide(p2, t2)
  {
    NormalisedAngleOfSameDirection(p1 - t1, p2 - t2);
  }

  /**
   * The source's test, unnormalised, puts the same direction on two sides:
   * a point at -3PI/4 with the tool at PI (difference -7PI/4) is retreating,
   * while a point at PI/4 with the tool at 0 (difference PI/4, the same
   * direction) is advancing, which is where the normalised test puts both.
   */
  lemma UnnormalisedSideMisclassifies()
    ensures IsMultiple((-3.0 * PI / 4.0 - PI) - (PI / 4.0 - 0.0), 2.0 * PI)
    ensures !OnAdvancingSide(-3.0 * PI / 4.0, PI)
    ensures OnAdvancingSide(PI / 4.0, 0.0)
    ensures IntendedAdvancingSide(-3.0 * PI / 4.0, PI) && IntendedAdvancingSide(PI / 4.0, 0.0)
  {
    MultipleOf((-3.0 * PI / 4.0 - PI) - (PI / 4.0 - 0.0), 2.0 * PI, -1);
    assert RelativeAngle(-3.0 * PI / 4.0, PI) == -7.0 * PI / 4.0;
    assert RelativeAngle(PI / 4.0, 0.0) == PI / 4.0;
  }

  /** Where the difference is already in (-PI, PI] the two tests agree. */
  lemma SidesAgreeInPrincipalRange(pointAngle: real, toolAngle: real)
    requires -PI < pointAngle - toolAngle <= PI
    ensures OnAdvancingSide(pointAngle, toolAngle) == IntendedAdvancingSide(pointAngle, toolAngle)
  {
  }

  lemma SumOfSquaresZero(a: real, b: real)
    ensures Sq(a) + Sq(b) >= 0.0
    ensures Sq(a) + Sq(b) == 0.0 <==> a == 0.0 && b == 0.0
  {
    SqNonnegative(a);
    SqNonnegative(b);
    ProductSign(a, a);
    ProductSign(b, b);
  }

  /**
   * A rotating friction-stir tool. The configuration is fixed at
   * construction; `UpdateTime` is the only writer of the tool centre, the
   * rotation angle and the heat coefficient, and `Value` only reads them.
   */
  class DonutHeatSource {
    const dim: nat
    const depth: real                    // the base properties' depth
    const innerRadiusSquared: real
    const diameter: real
    const rotationSpeed: real            // documented as rad/s
    const advancingHeatModifier: real
    const retreatingHeatModifier: real
    const efficiency: real
    const force: real
    const log01: real                    // the logarithmic decay constant of the Gaussian

    var beamCenter: seq<real>            // a 3-D point
    var currentAngle: real
    var alpha: Option<real>              // None until the first UpdateTime (a signalling NaN)

    ghost predicate Valid()
      reads this
    {
      && SupportedDim(dim)
      && depth > 0.0
      && diameter > 0.0
      && |beamCenter| == 3
      && -2.0 * PI < currentAngle < 2.0 * PI
    }

    constructor (dim: nat, beam: HeatSourceProperties, config: DonutConfig, log01: real)
      requires SupportedDim(dim) && beam.depth > 0.0 && config.diameter > 0.0
      ensures Valid()
      ensures this.dim == dim && depth == beam.depth && this.log01 == log01
      ensures innerRadiusSquared == config.innerRadiusSquared && diameter == config.diameter
      ensures rotationSpeed == config.rotationSpeed
      ensures advancingHeatModifier == config.advancingHeatModifier
      ensures retreatingHeatModifier == config.retreatingHeatModifier
      ensures efficiency == config.efficiency && force == config.force
      ensures beamCenter == [0.0, 0.0, 0.0] && currentAngle == 0.0 && alpha == None
    {
      this.dim, depth, this.log01 := dim, beam.depth, log01;
      innerRadiusSquared, diameter := config.innerRadiusSquared, config.diameter;
      rotationSpeed := config.rotationSpeed;
      advancingHeatModifier := config.advancingHeatModifier;
      retreatingHeatModifier := config.retreatingHeatModifier;
      efficiency, force := config.efficiency, config.force;
      beamCenter := [0.0, 0.0, 0.0];
      currentAngle := 0.0;
      alpha := None;
    }

    /**
     * Moves the tool to `time`: `scanPathPosition` is where the scan path puts
     * the tool centre at that time. The angle is the rotation so far, wrapped
     * by fmod; the heat coefficient is derived from the mechanical power.
     */
    method UpdateTime(time: real, scanPathPosition: seq<real>)
      requires Valid() && |scanPathPosition| == 3
      modifies this
      ensures Valid()
      ensures beamCenter == scanPathPosition
      ensures currentAngle == Fmod(rotationSpeed * time, 2.0 * PI)
      ensures rotationSpeed == 0.0 ==> currentAngle == 0.0
      ensures alpha == Some(HeatCoefficient(efficiency, ToolPower(force, diameter, rotationSpeed), log01, diameter, depth))
      ensures rotationSpeed == 0.0 ==> alpha == Some(0.0)
    {
      beamCenter := scanPathPosition;
      currentAngle := Fmod(rotationSpeed * time, 2.0 * PI);
      var toolRadius := diameter / 2.0;
      var angularVelocity := rotationSpeed * 2.0 * PI / 60.0;
      var torque := force * toolRadius;
      var power := torque * angularVelocity;
      SqPositive(toolRadius);
      assert power == ToolPower(force, diameter, rotationSpeed);
      alpha := Some(efficiency * power * log01 / (PI * Sq(toolRadius) * depth));
      assert alpha.value == HeatCoefficient(efficiency, power, log01, diameter, depth);
    }

    predicate BelowTool(point: seq<real>, height: real)
      requires SupportedDim(dim) && |point| == dim
    {
      point[Z(dim)] - height + depth < 0.0
    }

    /**
     * Squared distance in the plane from the tool centre: the x offset, plus
     * the y offset in 3-D. It is zero exactly at the tool centre's in-plane
     * position.
     */
    function PlanarDistanceSquared(point: seq<real>): (d2: real)
      reads this
      requires Valid() && |point| == dim
      ensures d2 >= 0.0
      ensures d2 == 0.0 <==> point[X] == beamCenter[X] && (dim == 3 ==> point[Y] == beamCenter[Y])
    {
      var dx := point[X] - beamCenter[X];
      SumOfSquaresZero(dx, 0.0);
      if dim == 3 then
        var dy := point[Y] - beamCenter[Y];
        SumOfSquaresZero(dx, dy);
        Sq(dx) + Sq(dy)
      else
        Sq(dx)
    }

    /** The point passes the depth gate and lies outside the pin. */
    predicate ReachesAngularSplit(point: seq<real>, height: real)
      reads this
      requires Valid() && |point| == dim
    {
      !BelowTool(point, height) && PlanarDistanceSquared(point) >= innerRadiusSquared
    }

    /** The Gaussian radial decay at squared planar distance `d2`. */
    function RadialFactor(d2: real, exp: real -> real): real
      requires diameter > 0.0
    {
      SqPositive(diameter / 2.0);
      exp(log01 * d2 / Sq(diameter / 2.0))
    }

    /**
     * The heat deposited at `point` for a material surface at `height`. The
     * angular split reads the y component, which a 2-D point does not have:
     * in 2-D only points settled by the depth gate or the pin may be asked.
     */
    function Value(point: seq<real>, height: real, exp: real -> real, atan2: (real, real) -> real): (r: real)
      reads this
      requires Valid() && alpha.Some? && |point| == dim
      requires dim == 3 || !ReachesAngularSplit(point, height)
      ensures BelowTool(point, height) ==> r == 0.0
      ensures !BelowTool(point, height) && PlanarDistanceSquared(point) < innerRadiusSquared ==> r == InnerZoneValue
      ensures ReachesAngularSplit(point, height) && alpha.value == 0.0 ==> r == 0.0
      ensures ReachesAngularSplit(point, height) && advancingHeatModifier == retreatingHeatModifier ==>
        r == alpha.value * advancingHeatModifier * RadialFactor(PlanarDistanceSquared(point), exp) * DepthProfile(point[Z(dim)] - height, depth)
      ensures ReachesAngularSplit(point, height) ==>
        r == alpha.value
             * (if OnAdvancingSide(atan2(point[Y], point[X]), currentAngle) then advancingHeatModifier else retreatingHeatModifier)
             * RadialFactor(PlanarDistanceSquared(point), exp) * DepthProfile(point[Z(dim)] - height, depth)
    {
      var z := point[Z(dim)] - height;
      if z + depth < 0.0 then
        0.0
      else
        var distributionZ := DepthProfile(z, depth);
        var xpySquared := PlanarDistanceSquared(point);
        if xpySquared < innerRadiusSquared then
          InnerZoneValue
        else
          var pointAngle := atan2(point[Y], point[X]);
          var heatModifier :=
            if OnAdvancingSide(pointAngle, currentAngle) then advancingHeatModifier else retreatingHeatModifier;
          alpha.value * heatModifier * RadialFactor(xpySquared, exp) * distributionZ
    }
  }

  /**
   * Outside the pin and strictly inside the depth profile's positive band,
   * with positive modifiers and a positive exponential, the heat has the
   * sign of the heat coefficient.
   */
  lemma ValueHasSignOfAlpha(src: DonutHeatSource, point: seq<real>, height: real,
                            exp: real -> real, atan2: (real, real) -> real)
    requires src.Valid() && src.alpha.Some? && |point| == src.dim && src.dim == 3
    requires src.ReachesAngularSplit(point, height)
    requires point[Z(src.dim)] - height < src.depth / 3.0
    requires -src.depth < point[Z(src.dim)] - height
    requires src.advancingHeatModifier > 0.0 && src.retreatingHeatModifier > 0.0
    requires src.RadialFactor(src.PlanarDistanceSquared(point), exp) > 0.0
    ensures src.Value(point, height, exp, atan2) > 0.0 <==> src.alpha.value > 0.0
    ensures src.Value(point, height, exp, atan2) < 0.0 <==> src.alpha.value < 0.0
  {
    var z := point[Z(src.dim)] - height;
    DepthProfileSign(z, src.depth);
    var p := DepthProfile(z, src.depth);
    var e := src.RadialFactor(src.PlanarDistanceSquared(point), exp);
    var m := if OnAdvancingSide(atan2(point[Y], point[X]), src.currentAngle)
             then src.advancingHeatModifier else src.retreatingHeatModifier;
    assert src.Value(point, height, exp, atan2) == src.alpha.value * m * e * p;
    ProductSign(m, e);
    ProductSign(m * e, p);
    assert src.alpha.value * m * e * p == src.alpha.value * (m * e * p);
    ProductSign(src.alpha.value, m * e * p);
  }

  /**
   * The side test as written, seen through `Value`: with the tool turned to
   * PI, a point whose absolute angle is -3PI/4 lies a quarter turn ahead of
   * the tool (on the normalised advancing side), yet it gets the retreating
   * modifier.
   */
  lemma {:induction false} ValueMisclassifiesAdvancingPoint(src: DonutHeatSource, point: seq<real>, height: real,
                                                            exp: real -> real, atan2: (real, real) -> real)
    requires src.Valid() && src.alpha.Some? && |point| == src.dim && src.dim == 3
    requires src.ReachesAngularSplit(point, height)
    requires src.currentAngle == PI && atan2(point[Y], point[X]) == -3.0 * PI / 4.0
    ensures IntendedAdvancingSide(atan2(point[Y], point[X]), src.currentAngle)
    ensures !OnAdvancingSide(atan2(point[Y], point[X]), src.currentAngle)
    ensures src.Value(point, height, exp, atan2)
            == src.alpha.value * src.retreatingHeatModifier
               * src.RadialFactor(src.PlanarDistanceSquared(point), exp)
               * DepthProfile(point[Z(src.dim)] - height, src.depth)
  {
    UnnormalisedSideMisclassifies();
  }

  /** At the tool centre, a point in the material's reach gets the pin value whenever the pin has a radius. */
  lemma ToolCentreGetsInnerZoneValue(src: DonutHeatSource, point: seq<real>, height: real,
                                     exp: real -> real, atan2: (real, real) -> real)
    requires src.Valid() && src.alpha.Some? && |point| == src.dim
    requires src.innerRadiusSquared > 0.0 && !src.BelowTool(point, height)
    requires point[X] == src.beamCenter[X] && (src.dim == 3 ==> point[Y] == src.beamCenter[Y])
    ensures src.Value(point, height, exp, atan2) == InnerZoneValue
  {
  }
}
