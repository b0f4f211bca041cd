/** The `Segment` record (one consistent-angle stretch of a track), its
    dictionary form, and its conversion to and from segment frames. */
module SegmentModel {
  import opened Wrappers
  import opened Frames

  datatype Tack = Port | Starboard
  {
    function Label(): string
    {
      match this
      case Port => "Port"
      case Starboard => "Starboard"
    }
  }

  datatype Direction = Upwind | Downwind
  {
    function Label(): string
    {
      match this
      case Upwind => "Upwind"
      case Downwind => "Downwind"
    }
  }

  /** Times are seconds (None stands for a missing timestamp); angles are degrees. */
  datatype Segment = Segment(
    startTime: Option<int>,
    endTime: Option<int>,
    startIdx: int,
    endIdx: int,
    bearing: real,
    distance: real,
    duration: real,
    avgSpeedKnots: real,
    pointCount: int,
    angleToWind: Option<real>,
    tack: Option<Tack>,
    direction: Option<Direction>,
    qualityScore: Option<real>)

  /** A segment as the detector creates it: the wind and quality fields take their default None. */
  function NewSegment(startTime: Option<int>, endTime: Option<int>, startIdx: int, endIdx: int,
                      bearing: real, distance: real, duration: real, avgSpeedKnots: real,
                      pointCount: int): (s: Segment)
    ensures s.angleToWind.None? && s.tack.None? && s.direction.None? && s.qualityScore.None?
    ensures s.startIdx == startIdx && s.endIdx == endIdx && s.bearing == bearing && s.distance == distance
    ensures s.duration == duration && s.avgSpeedKnots == avgSpeedKnots && s.pointCount == pointCount
    ensures s.startTime == startTime && s.endTime == endTime
  {
    Segment(startTime, endTime, startIdx, endIdx, bearing, distance, duration, avgSpeedKnots,
            pointCount, None, None, None, None)
  }

  /** A value in a row dictionary. */
  datatype Cell = NoneCell | TimeCell(t: int) | IntCell(i: int) | RealCell(r: real) | TextCell(text: string)

  const RequiredColumns: set<Column> :=
    {StartTimeCol, EndTimeCol, StartIdxCol, EndIdxCol, BearingCol, DistanceCol, DurationCol,
     AvgSpeedCol, PointCountCol}

  const OptionalColumns: set<Column> := {AngleToWindCol, TackCol, DirectionCol, QualityScoreCol}

  const SegmentColumns: set<Column> := RequiredColumns + OptionalColumns

  function TimeCellOf(t: Option<int>): Cell
  {
    match t
    case None => NoneCell
    case Some(v) => TimeCell(v)
  }

  function RealCellOf(x: Option<real>): Cell
  {
    match x
    case None => NoneCell
    case Some(v) => RealCell(v)
  }

  function TackCell(t: Option<Tack>): Cell
  {
    match t
    case None => NoneCell
    case Some(v) => TextCell(v.Label())
  }

  function DirectionCell(d: Option<Direction>): Cell
  {
    match d
    case None => NoneCell
    case Some(v) => TextCell(v.Label())
  }

  /** `Segment.to_dict`: one entry per field, keyed by the column whose `Name()` is the dictionary key. */
  function ToDict(s: Segment): (d: map<Column, Cell>)
    ensures d.Keys == SegmentColumns
  {
    map[
      StartTimeCol := TimeCellOf(s.startTime),
      EndTimeCol := TimeCellOf(s.endTime),
      StartIdxCol := IntCell(s.startIdx),
      EndIdxCol := IntCell(s.endIdx),
      BearingCol := RealCell(s.bearing),
      DistanceCol := RealCell(s.distance),
      DurationCol := RealCell(s.duration),
      AvgSpeedCol := RealCell(s.avgSpeedKnots),
      PointCountCol := IntCell(s.pointCount),
      AngleToWindCol := RealCellOf(s.angleToWind),
      TackCol := TackCell(s.tack),
      DirectionCol := DirectionCell(s.direction),
      QualityScoreCol := RealCellOf(s.qualityScore)
    ]
  }

  /** The dictionary keeps every field: two segments with the same dictionary are the same segment. */
  lemma ToDictInjective(a: Segment, b: Segment)
    requires ToDict(a) == ToDict(b)
    ensures a == b
  {
    var da, db := ToDict(a), ToDict(b);
    assert da[StartTimeCol] == db[StartTimeCol] && da[EndTimeCol] == db[EndTimeCol];
    TimeCellInjective(a.startTime, b.startTime);
    TimeCellInjective(a.endTime, b.endTime);
    assert da[AngleToWindCol] == db[AngleToWindCol] && da[QualityScoreCol] == db[QualityScoreCol];
    RealCellInjective(a.angleToWind, b.angleToWind);
    RealCellInjective(a.qualityScore, b.qualityScore);
    assert da[TackCol] == db[TackCol] && da[DirectionCol] == db[DirectionCol];
    TackLabelInjective(a.tack, b.tack);
    DirectionLabelInjective(a.direction, b.direction);
    assert da[BearingCol] == db[BearingCol] && da[DistanceCol] == db[DistanceCol];
    assert da[DurationCol] == db[DurationCol] && da[AvgSpeedCol] == db[AvgSpeedCol];
    assert da[StartIdxCol] == db[StartIdxCol] && da[EndIdxCol] == db[EndIdxCol];
    assert da[PointCountCol] == db[PointCountCol];
  }

  lemma TimeCellInjective(a: Option<int>, b: Option<int>)
    requires TimeCellOf(a) == TimeCellOf(b)
    ensures a == b
  {
  }

  lemma RealCellInjective(a: Option<real>, b: Option<real>)
    requires RealCellOf(a) == RealCellOf(b)
    ensures a == b
  {
  }

  lemma TackLabelInjective(a: Option<Tack>, b: Option<Tack>)
    requires TackCell(a) == TackCell(b)
    ensures a == b
  {
    if a.Some? && b.Some? {
      assert a.value.Label()[0] == b.value.Label()[0];
    }
  }

  lemma DirectionLabelInjective(a: Option<Direction>, b: Option<Direction>)
    requires DirectionCell(a) == DirectionCell(b)
    ensures a == b
  {
    if a.Some? && b.Some? {
      assert a.value.Label()[0] == b.value.Label()[0];
    }
  }

  /** `segments_to_dataframe`: no segments give `pd.DataFrame()`; otherwise the
      frame has the 13 dictionary columns and one row per segment, in order. */
  function SegmentsToDataframe(segments: seq<Segment>): (f: Frame<Segment>)
    ensures segments == [] <==> f.IsEmpty()
    ensures f.rows == segments
    ensures segments != [] ==> f.columns == SegmentColumns
  {
    if segments == [] then EmptyFrame() else Frame(SegmentColumns, segments)
  }

  /** The row as `dataframe_to_segments` reads it: `row.get` yields None for an absent optional column. */
  function ReadRow(columns: set<Column>, s: Segment): Segment
  {
    s.(angleToWind := if AngleToWindCol in columns then s.angleToWind else None,
       tack := if TackCol in columns then s.tack else None,
       direction := if DirectionCol in columns then s.direction else None,
       qualityScore := if QualityScoreCol in columns then s.qualityScore else None)
  }

  /** The required columns in the order the constructor reads them. */
  const RequiredOrder: seq<Column> :=
    [StartTimeCol, EndTimeCol, StartIdxCol, EndIdxCol, BearingCol, DistanceCol, DurationCol,
     AvgSpeedCol, PointCountCol]

  /** The first required column `row[...]` fails on, if any. */
  function MissingRequired(columns: set<Column>, keys: seq<Column>): (r: Option<Column>)
    ensures r.None? <==> forall k :: k in keys ==> k in columns
    ensures r.Some? ==> r.value in keys && r.value !in columns
  {
    if keys == [] then None
    else if keys[0] !in columns then Some(keys[0])
    else MissingRequired(columns, keys[1..])
  }

  /** What `dataframe_to_segments` computes: a KeyError when a row exists and a
      required column does not, otherwise one segment per row. */
  function FrameToSegments(df: Frame<Segment>): Result<seq<Segment>>
  {
    var missing := MissingRequired(df.columns, RequiredOrder);
    if |df.rows| > 0 && missing.Some? then Failure("KeyError: " + missing.value.Name())
    else Success(ReadRows(df.columns, df.rows))
  }

  function ReadRows(columns: set<Column>, rows: seq<Segment>): (r: seq<Segment>)
    ensures |r| == |rows|
    ensures forall i :: 0 <= i < |rows| ==> r[i] == ReadRow(columns, rows[i])
  {
    if rows == [] then [] else [ReadRow(columns, rows[0])] + ReadRows(columns, rows[1..])
  }

  /** `dataframe_to_segments`: iterates the rows, building one segment each. */
  method DataframeToSegments(df: Frame<Segment>) returns (r: Result<seq<Segment>>)
    ensures r == FrameToSegments(df)
  {
    var segments: seq<Segment> := [];
    var missing := MissingRequired(df.columns, RequiredOrder);
    for i := 0 to |df.rows|
      invariant missing == MissingRequired(df.columns, RequiredOrder)
      invariant i > 0 ==> missing.None?
      invariant segments == ReadRows(df.columns, df.rows[..i])
    {
      assert df.rows[..i + 1] == df.rows[..i] + [df.rows[i]];
      ReadRowsAppend(df.columns, df.rows[..i], [df.rows[i]]);
      if missing.Some? {
        return Failure("KeyError: " + missing.value.Name());
      }
      segments := segments + [ReadRow(df.columns, df.rows[i])];
    }
    assert df.rows[..|df.rows|] == df.rows;
    return Success(segments);
  }

  lemma ReadRowsAppend(columns: set<Column>, a: seq<Segment>, b: seq<Segment>)
    ensures ReadRows(columns, a + b) == ReadRows(columns, a) + ReadRows(columns, b)
  {
    var l, r := ReadRows(columns, a + b), ReadRows(columns, a) + ReadRows(columns, b);
    assert forall i :: 0 <= i < |l| ==> l[i] == r[i];
  }

  lemma RequiredPresent()
    ensures MissingRequired(SegmentColumns, RequiredOrder).None?
  {
    forall k | k in RequiredOrder
      ensures k in SegmentColumns
    {
      assert k in RequiredColumns;
    }
  }

  /** Round trip: converting segments to a frame and back gives the same segments. */
  lemma RoundTrip(segments: seq<Segment>)
    ensures FrameToSegments(SegmentsToDataframe(segments)) == Success(segments)
  {
    var f := SegmentsToDataframe(segments);
    if segments != [] {
      RequiredPresent();
      var r := ReadRows(f.columns, f.rows);
      assert AngleToWindCol in SegmentColumns && TackCol in SegmentColumns;
      assert DirectionCol in SegmentColumns && QualityScoreCol in SegmentColumns;
      assert forall i :: 0 <= i < |r| ==> r[i] == segments[i];
      assert r == segments;
      assert FrameToSegments(f) == Success(r);
    }
  }

  /** A frame without rows converts to no segments, whatever its columns. */
  lemma EmptyFrameToSegments(df: Frame<Segment>)
    requires df.rows == []
    ensures FrameToSegments(df) == Success([])
  {
  }

  /** A frame that lacks an optional column yields None in that field for every segment. */
  lemma AbsentOptionalIsNone(df: Frame<Segment>, i: nat)
    requires FrameToSegments(df).Success? && i < |df.rows|
    ensures AngleToWindCol !in df.columns ==> FrameToSegments(df).value[i].angleToWind.None?
    ensures TackCol !in df.columns ==> FrameToSegments(df).value[i].tack.None?
    ensures DirectionCol !in df.columns ==> FrameToSegments(df).value[i].direction.None?
    ensures QualityScoreCol !in df.columns ==> FrameToSegments(df).value[i].qualityScore.None?
    ensures FrameToSegments(df).value[i].bearing == df.rows[i].bearing
  {
  }

  /** knots to metres per second, via the factor 1/1.94384 (`avg_speed_ms`). */
  function AvgSpeedMs(s: Segment): (r: real)
    ensures r * 1.94384 == s.avgSpeedKnots
  {
    s.avgSpeedKnots * (1.0 / 1.94384)
  }

  /** `distance_km`. */
  function DistanceKm(s: Segment): (r: real)
    ensures r * 1000.0 == s.distance
  {
    s.distance / 1000.0
  }

  /** `duration_minutes`. */
  function DurationMinutes(s: Segment): (r: real)
    ensures r * 60.0 == s.duration
  {
    s.duration / 60.0
  }
}
