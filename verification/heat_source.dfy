/**
 * The scan-path records, the heat-source properties, the documented rules on
 * a heat source's input database, and the stateful parts of the heat-source
 * base: the beam-centre cursor with its save/rewind checkpoint, and the
 * domain height.
 */
module HeatSourceBase {
  import opened Wrappers
  import opened Axes

  /** The two kinds of record a scan-path file holds. */
  datatype ScanPathSegmentType = Line | Point

  datatype Point2 = Point2(x: real, y: real)

  /**
   * One leg of the scan path: when it ends (seconds), the power modifier
   * active during it, and where it ends (metres). It starts where the
   * preceding segment ended.
   */
  datatype ScanPathSegment = ScanPathSegment(endTime: real, powerModifier: real, endPoint: Point2)

  /** Where segment `i` starts: the end of the segment before it. */
  function StartPoint(segments: seq<ScanPathSegment>, i: nat): Point2
    requires 0 < i < |segments|
  {
    segments[i - 1].endPoint
  }

  function SquaredLength(segments: seq<ScanPathSegment>, i: nat): real
    requires 0 < i < |segments|
  {
    var s, e := StartPoint(segments, i), segments[i].endPoint;
    (e.x - s.x) * (e.x - s.x) + (e.y - s.y) * (e.y - s.y)
  }

  /**
   * A spot (a `point` record) that follows `previous`: once its end time is
   * known it is stored as a line that ends where it starts.
   */
  function Spot(previous: ScanPathSegment, endTime: real, powerModifier: real): ScanPathSegment
  {
    ScanPathSegment(endTime, powerModifier, previous.endPoint)
  }

  /** A spot appended to a scan path is a segment of zero length. */
  lemma SpotHasZeroLength(segments: seq<ScanPathSegment>, endTime: real, powerModifier: real)
    requires |segments| > 0
    ensures var extended := segments + [Spot(segments[|segments| - 1], endTime, powerModifier)];
      && StartPoint(extended, |segments|) == extended[|segments|].endPoint
      && SquaredLength(extended, |segments|) == 0.0
  {
  }

  /** The physical properties of a heat source. */
  datatype HeatSourceProperties = HeatSourceProperties(
    depth: real,                  // absolute penetration where 99% of the energy is absorbed
    absorptionEfficiency: real,   // energy conversion efficiency on the surface
    radiusSquared: real,          // square of the beam radius
    maxPower: real)               // maximum power of the beam

  /** The input database: numeric entries and string entries by key. */
  datatype Database = Database(numbers: map<string, real>, strings: map<string, string>)

  predicate InUnitInterval(db: Database, key: string)
  {
    key in db.numbers && 0.0 <= db.numbers[key] <= 1.0
  }

  predicate NonNegative(db: Database, key: string)
  {
    key in db.numbers && db.numbers[key] >= 0.0
  }

  predicate NonNegativeIfPresent(db: Database, key: string)
  {
    key in db.numbers ==> db.numbers[key] >= 0.0
  }

  /**
   * The entries the heat-source constructor documents as required: both
   * efficiencies in [0,1]; depth and diameter non-negative; the power given
   * either as max_power or as current together with voltage (each
   * non-negative); the path given either as an input file with its delimiter
   * or as an abscissa expression (and, in 3-D, an ordinate expression).
   */
  predicate ValidHeatSourceDatabase(db: Database, dim: nat)
  {
    && InUnitInterval(db, "energy_conversion_efficiency")
    && InUnitInterval(db, "control_efficiency")
    && NonNegative(db, "depth")
    && NonNegative(db, "diameter")
    && NonNegativeIfPresent(db, "max_power")
    && NonNegativeIfPresent(db, "current")
    && NonNegativeIfPresent(db, "voltage")
    && ("current" in db.numbers <==> "voltage" in db.numbers)
    && ("max_power" in db.numbers || "current" in db.numbers)
    && ("input_file" in db.strings ==> "delimiter" in db.strings)
    && ("input_file" !in db.strings ==> "abscissa" in db.strings && (dim == 3 ==> "ordinate" in db.strings))
  }

  /** How a valid database gives the beam power. */
  datatype PowerInput = MaxPower(power: real) | CurrentAndVoltage(current: real, voltage: real)

  /** How a valid database gives the scan path. */
  datatype PathInput =
    | ScanPathFile(name: string, delimiter: string)
    | AnalyticPath(abscissa: string, ordinate: Option<string>)

  /** max_power when it is given, otherwise current and voltage. */
  function PowerInputOf(db: Database, dim: nat): (p: PowerInput)
    requires ValidHeatSourceDatabase(db, dim)
    ensures p.MaxPower? <==> "max_power" in db.numbers
    ensures p.MaxPower? ==> p.power >= 0.0
    ensures p.CurrentAndVoltage? ==> p.current >= 0.0 && p.voltage >= 0.0
    ensures p.MaxPower? ==> p.power == db.numbers["max_power"]
    ensures p.CurrentAndVoltage? ==> p.current == db.numbers["current"] && p.voltage == db.numbers["voltage"]
  {
    if "max_power" in db.numbers then MaxPower(db.numbers["max_power"])
    else CurrentAndVoltage(db.numbers["current"], db.numbers["voltage"])
  }

  /** The input file when it is given, otherwise the analytic expressions. */
  function PathInputOf(db: Database, dim: nat): (p: PathInput)
    requires ValidHeatSourceDatabase(db, dim)
    ensures p.ScanPathFile? <==> "input_file" in db.strings
    ensures p.AnalyticPath? && dim == 3 ==> p.ordinate.Some?
    ensures p.ScanPathFile? ==> p.name == db.strings["input_file"] && p.delimiter == db.strings["delimiter"]
    ensures p.AnalyticPath? ==> p.abscissa == db.strings["abscissa"] && (p.ordinate.Some? <==> "ordinate" in db.strings)
    ensures p.AnalyticPath? && p.ordinate.Some? ==> p.ordinate.value == db.strings["ordinate"]
  {
    if "input_file" in db.strings then ScanPathFile(db.strings["input_file"], db.strings["delimiter"])
    else AnalyticPath(db.strings["abscissa"],
                      if "ordinate" in db.strings then Some(db.strings["ordinate"]) else None)
  }

  /** A position of the beam-centre cursor: a segment index and a time. */
  datatype Cursor = Cursor(segment: nat, time: real)

  /** The cursor together with its checkpoint slot. */
  datatype CursorState = CursorState(current: Cursor, saved: Cursor)

  /** The checkpoint slot takes the current cursor. */
  function Save(s: CursorState): CursorState
  {
    CursorState(s.current, s.current)
  }

  /** The current cursor takes the checkpoint slot. */
  function Rewind(s: CursorState): CursorState
  {
    CursorState(s.saved, s.saved)
  }

  /** Any movement of the current cursor (the position lookup moves it), leaving the slot alone. */
  function MoveTo(s: CursorState, c: Cursor): CursorState
  {
    CursorState(c, s.saved)
  }

  /** Whatever the cursor does between a save and a rewind, the rewind brings it back. */
  lemma {:induction false} RewindUndoesMoves(s: CursorState, moves: seq<Cursor>)
    ensures Rewind(MoveAll(Save(s), moves)).current == s.current
  {
    MoveAllKeepsSlot(Save(s), moves);
  }

  function MoveAll(s: CursorState, moves: seq<Cursor>): CursorState
    decreases |moves|
  {
    if moves == [] then s else MoveAll(MoveTo(s, moves[0]), moves[1..])
  }

  lemma {:induction false} MoveAllKeepsSlot(s: CursorState, moves: seq<Cursor>)
    ensures MoveAll(s, moves).saved == s.saved
    decreases |moves|
  {
    if moves != [] {
      MoveAllKeepsSlot(MoveTo(s, moves[0]), moves[1..]);
    }
  }

  /** Rewinding twice is rewinding once. */
  lemma RewindIdempotent(s: CursorState)
    ensures Rewind(Rewind(s)) == Rewind(s)
  {
  }

  /** A save directly followed by a rewind changes nothing. */
  lemma SaveThenRewindIsIdentityOnCursor(s: CursorState)
    ensures Rewind(Save(s)) == Save(s) && Rewind(Save(s)).current == s.current
  {
  }

  /**
   * The beam-centre tracker: the segment list and a cursor into it, which
   * the position lookup advances even though it is a const query, plus a
   * checkpoint slot for retrying a rejected time step.
   */
  class BeamCenter {
    var currentSegment: nat
    var currentTime: real
    var savedSegment: nat
    var savedTime: real
    var segmentList: seq<ScanPathSegment>

    function State(): CursorState
      reads this
    {
      CursorState(Cursor(currentSegment, currentTime), Cursor(savedSegment, savedTime))
    }

    constructor ()
      ensures State() == CursorState(Cursor(0, 0.0), Cursor(0, 0.0))
      ensures segmentList == []
    {
      currentSegment, currentTime := 0, 0.0;
      savedSegment, savedTime := 0, 0.0;
      segmentList := [];
    }

    /** Replaces the segment list. */
    method LoadSegmentList(segments: seq<ScanPathSegment>)
      modifies this
      ensures segmentList == segments
    {
      segmentList := segments;
    }

    /** Copies the current cursor into the checkpoint slot. */
    method SaveTime()
      modifies this
      ensures State() == Save(old(State()))
      ensures segmentList == old(segmentList)
    {
      savedSegment := currentSegment;
      savedTime := currentTime;
    }

    /** Resets the cursor to the checkpoint slot. */
    method RewindTime()
      modifies this
      ensures State() == Rewind(old(State()))
      ensures segmentList == old(segmentList)
    {
      currentSegment := savedSegment;
      currentTime := savedTime;
    }
  }

  /**
   * The state the heat-source base keeps besides its properties: the height
   * of the domain, the scan path and the beam-centre tracker.
   */
  class HeatSource {
    const dim: nat
    const beam: HeatSourceProperties
    const segmentList: seq<ScanPathSegment>
    const beamCenter: BeamCenter
    var maxHeight: real

    /** The tracker walks the heat source's own scan path. */
    ghost predicate Valid()
      reads this, beamCenter
    {
      beamCenter.segmentList == segmentList
    }

    constructor (dim: nat, beam: HeatSourceProperties, segments: seq<ScanPathSegment>, maxHeight: real)
      requires SupportedDim(dim)
      ensures this.dim == dim && this.beam == beam && this.segmentList == segments
      ensures this.maxHeight == maxHeight
      ensures fresh(beamCenter) && beamCenter.segmentList == segments
      ensures Valid()
    {
      this.dim, this.beam, this.segmentList := dim, beam, segments;
      this.maxHeight := maxHeight;
      var tracker := new BeamCenter();
      tracker.LoadSegmentList(segments);
      this.beamCenter := tracker;
    }

    /** Sets the height at which the beam enters the material. */
    method SetMaxHeight(height: real)
      requires Valid()
      modifies this
      ensures Valid()
      ensures maxHeight == height
      ensures unchanged(beamCenter)
    {
      maxHeight := height;
    }

    /** Saves the current time and position of the beam along the path. */
    method SaveTime()
      requires Valid()
      modifies beamCenter
      ensures Valid()
      ensures beamCenter.State() == Save(old(beamCenter.State()))
      ensures beamCenter.segmentList == old(beamCenter.segmentList)
      ensures maxHeight == old(maxHeight)
    {
      beamCenter.SaveTime();
    }

    /** Resets the current time and position of the beam to the last save. */
    method RewindTime()
      requires Valid()
      modifies beamCenter
      ensures Valid()
      ensures beamCenter.State() == Rewind(old(beamCenter.State()))
      ensures beamCenter.segmentList == old(beamCenter.segmentList)
      ensures maxHeight == old(maxHeight)
    {
      beamCenter.RewindTime();
    }
  }
}
