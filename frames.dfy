/** Tabular data as the pipeline sees it: a pandas DataFrame is a set of
    column names and a sequence of typed rows. A value stored in a row for a
    column that is not in `columns` is never read by the model. */
module Frames {
  import opened Wrappers

  /** The column names the pipeline reads or writes; `Other` is any further column. */
  datatype Column =
    | StartTimeCol | EndTimeCol | StartIdxCol | EndIdxCol | BearingCol | DistanceCol | DurationCol
    | AvgSpeedCol | PointCountCol | AngleToWindCol | TackCol | DirectionCol | QualityScoreCol
    | LatitudeCol | LongitudeCol | TimeCol | DistanceMCol | DurationSecCol
    | Other(name: string)
  {
    function Name(): string
    {
      match this
      case StartTimeCol => "start_time"
      case EndTimeCol => "end_time"
      case StartIdxCol => "start_idx"
      case EndIdxCol => "end_idx"
      case BearingCol => "bearing"
      case DistanceCol => "distance"
      case DurationCol => "duration"
      case AvgSpeedCol => "avg_speed_knots"
      case PointCountCol => "point_count"
      case AngleToWindCol => "angle_to_wind"
      case TackCol => "tack"
      case DirectionCol => "direction"
      case QualityScoreCol => "quality_score"
      case LatitudeCol => "latitude"
      case LongitudeCol => "longitude"
      case TimeCol => "time"
      case DistanceMCol => "distance_m"
      case DurationSecCol => "duration_sec"
      case Other(n) => n
    }
  }

  datatype Frame<R> = Frame(columns: set<Column>, rows: seq<R>)
  {
    /** pandas `DataFrame.empty`: no rows, or no columns. */
    predicate IsEmpty()
    {
      |rows| == 0 || |columns| == 0
    }

    function WithRows(rs: seq<R>): Frame<R>
    {
      Frame(columns, rs)
    }
  }

  /** `pd.DataFrame()`: no columns and no rows. */
  function EmptyFrame<R>(): (f: Frame<R>)
    ensures f.IsEmpty() && f.rows == [] && f.columns == {}
  {
    Frame({}, [])
  }

  /** One GPS fix of a track: coordinates in degrees and an optional timestamp in seconds. */
  datatype TrackPoint = TrackPoint(latitude: real, longitude: real, time: Option<int>)

  /** Python's normalisation of one slice bound against length n. */
  function SliceBound(i: int, n: nat): (r: nat)
    ensures r <= n
    ensures 0 <= i <= n ==> r == i
  {
    if i < 0 then (if n + i < 0 then 0 else n + i) else if i > n then n else i
  }

  /** `s[a:b]` / `iloc[a:b]` with Python's clamping and negative-index rules. */
  function PySlice<T>(s: seq<T>, a: int, b: int): (r: seq<T>)
    ensures |r| <= |s|
    ensures 0 <= a <= b <= |s| ==> r == s[a..b]
    ensures forall k :: 0 <= k < |r| ==> SliceBound(a, |s|) + k < |s| && r[k] == s[SliceBound(a, |s|) + k]
  {
    var lo, hi := SliceBound(a, |s|), SliceBound(b, |s|);
    if lo >= hi then [] else s[lo..hi]
  }

  /** Every element of a slice is an element of the sliced sequence. */
  lemma PySliceMember<T>(s: seq<T>, a: int, b: int, k: nat)
    requires k < |PySlice(s, a, b)|
    ensures PySlice(s, a, b)[k] in s
  {
    var i := SliceBound(a, |s|) + k;
    assert s[i] == PySlice(s, a, b)[k];
  }
}
