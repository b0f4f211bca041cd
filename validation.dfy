/** Input guards of the pipeline (backend/core/validation.py): frame checks
    that raise `ValidationError`, range checks on detection parameters, wind
    normalisation, an upload check, a boolean safety probe and the cleaning
    filter for segment frames. A Python `None` argument is `Option.None`. */
module Validation {
  import opened Wrappers
  import opened PyNum
  import opened Seqs
  import opened Frames
  import opened SegmentModel
  import C = Constants

  /** The reasons a `ValidationError` is raised with; the counts are those in the messages. */
  datatype ValidationError =
    | FrameIsNone
    | FrameIsEmpty
    | MissingColumns(columns: seq<Column>)
    | InvalidLatitudes(count: nat)
    | InvalidLongitudes(count: nat)
    | TooFewPoints(count: nat)
    | NegativeDistances(count: nat)
    | NegativeDurations(count: nat)
    | InvalidBearings(count: nat)
    | ValueIsNone
    | CannotConvert(text: string)
    | NotFinite
    | OutOfRange(parameter: Parameter, value: real)
    | NoFile
    | FileTooLarge(size: int)
    | InvalidFileType(suffix: string)

  datatype Validated<T> = Valid(value: T) | Invalid(error: ValidationError)

  /** The columns of `required`, in order, that the frame lacks. */
  function MissingOf(columns: set<Column>, required: seq<Column>): (r: seq<Column>)
    ensures forall c :: c in r <==> c in required && c !in columns
  {
    if required == [] then []
    else (if required[0] in columns then [] else [required[0]]) + MissingOf(columns, required[1..])
  }

  // ---------------------------------------------------------------------
  // validate_gpx_dataframe

  predicate LatitudeInRange(p: TrackPoint)
  {
    -90.0 <= p.latitude <= 90.0
  }

  predicate LongitudeInRange(p: TrackPoint)
  {
    -180.0 <= p.longitude <= 180.0
  }

  predicate BadLatitude(p: TrackPoint)
  {
    !LatitudeInRange(p)
  }

  predicate BadLongitude(p: TrackPoint)
  {
    !LongitudeInRange(p)
  }

  /** `validate_gpx_dataframe`: the checks in the source's order; a frame that passes them all is returned as is. */
  function ValidateGpxDataframe(df: Option<Frame<TrackPoint>>): (r: Validated<Frame<TrackPoint>>)
    ensures r.Valid? ==> df.Some? && r.value == df.value
    ensures df.None? ==> r == Invalid(FrameIsNone)
    ensures df.Some? && df.value.IsEmpty() ==> r == Invalid(FrameIsEmpty)
  {
    if df.None? then Invalid(FrameIsNone)
    else
      var f := df.value;
      if f.IsEmpty() then Invalid(FrameIsEmpty)
      else
        var missing := MissingOf(f.columns, [LatitudeCol, LongitudeCol]);
        if missing != [] then Invalid(MissingColumns(missing))
        else
          var badLat := Filter(f.rows, BadLatitude);
          var badLon := Filter(f.rows, BadLongitude);
          if badLat != [] then Invalid(InvalidLatitudes(|badLat|))
          else if badLon != [] then Invalid(InvalidLongitudes(|badLon|))
          else if |f.rows| < 2 then Invalid(TooFewPoints(|f.rows|))
          else Valid(f)
  }

  /** A GPX frame is accepted exactly when it exists, is not empty, has both
      coordinate columns, all coordinates in range and at least two points. */
  lemma GpxValidIff(df: Option<Frame<TrackPoint>>)
    ensures ValidateGpxDataframe(df).Valid? <==>
      && df.Some? && !df.value.IsEmpty()
      && LatitudeCol in df.value.columns && LongitudeCol in df.value.columns
      && (forall i :: 0 <= i < |df.value.rows| ==> LatitudeInRange(df.value.rows[i]) && LongitudeInRange(df.value.rows[i]))
      && |df.value.rows| >= 2
  {
    if df.Some? && !df.value.IsEmpty() {
      var f := df.value;
      var missing := MissingOf(f.columns, [LatitudeCol, LongitudeCol]);
      if missing != [] {
        assert missing[0] in missing;
        assert !(LatitudeCol in f.columns && LongitudeCol in f.columns);
      } else {
        NoneFiltered(f.rows, BadLatitude);
        NoneFiltered(f.rows, BadLongitude);
      }
    }
  }

  /** An empty filter result means no element satisfies the predicate; a
      non-empty one names as many elements as it holds. */
  lemma NoneFiltered<T>(s: seq<T>, p: T -> bool)
    ensures Filter(s, p) == [] <==> forall i :: 0 <= i < |s| ==> !p(s[i])
  {
    if Filter(s, p) == [] {
      forall i | 0 <= i < |s| ensures !p(s[i]) {
        FilterMember(s, p, s[i]);
      }
    } else {
      var x := Filter(s, p)[0];
      assert x in Filter(s, p);
    }
  }

  // ---------------------------------------------------------------------
  // validate_segments_dataframe

  predicate NegativeDistance(s: Segment)
  {
    s.distance < 0.0
  }

  predicate NegativeDuration(s: Segment)
  {
    s.duration < 0.0
  }

  predicate BearingOutOfRange(s: Segment)
  {
    !(0.0 <= s.bearing <= 360.0)
  }

  /** `validate_segments_dataframe`: None is rejected, an empty frame is accepted,
      otherwise the checks run in the source's order. */
  function ValidateSegmentsDataframe(df: Option<Frame<Segment>>): (r: Validated<Frame<Segment>>)
    ensures r.Valid? ==> df.Some? && r.value == df.value
    ensures df.None? ==> r == Invalid(FrameIsNone)
    ensures df.Some? && df.value.IsEmpty() ==> r == Valid(df.value)
  {
    if df.None? then Invalid(FrameIsNone)
    else
      var f := df.value;
      if f.IsEmpty() then Valid(f)
      else
        var missing := MissingOf(f.columns, [DistanceCol, DurationCol, BearingCol]);
        if missing != [] then Invalid(MissingColumns(missing))
        else
          var negDist := Filter(f.rows, NegativeDistance);
          var negDur := Filter(f.rows, NegativeDuration);
          var badBearing := Filter(f.rows, BearingOutOfRange);
          if negDist != [] then Invalid(NegativeDistances(|negDist|))
          else if negDur != [] then Invalid(NegativeDurations(|negDur|))
          else if badBearing != [] then Invalid(InvalidBearings(|badBearing|))
          else Valid(f)
  }

  predicate SaneSegment(s: Segment)
  {
    s.distance >= 0.0 && s.duration >= 0.0 && 0.0 <= s.bearing <= 360.0
  }

  /** A segment frame is accepted exactly when it exists and, unless empty, has
      the three critical columns and no negative distance, no negative duration
      and no bearing outside [0, 360]. */
  lemma SegmentsValidIff(df: Option<Frame<Segment>>)
    ensures ValidateSegmentsDataframe(df).Valid? <==>
      && df.Some?
      && (!df.value.IsEmpty() ==>
            && {DistanceCol, DurationCol, BearingCol} <= df.value.columns
            && forall i :: 0 <= i < |df.value.rows| ==> SaneSegment(df.value.rows[i]))
  {
    if df.Some? && !df.value.IsEmpty() {
      var f := df.value;
      RequiredPresentIff(f.columns);
      RowsSaneIff(f.rows);
    }
  }

  lemma RequiredPresentIff(columns: set<Column>)
    ensures MissingOf(columns, [DistanceCol, DurationCol, BearingCol]) == [] <==>
              {DistanceCol, DurationCol, BearingCol} <= columns
  {
    var missing := MissingOf(columns, [DistanceCol, DurationCol, BearingCol]);
    if missing != [] {
      assert missing[0] in missing;
    }
  }

  lemma RowsSaneIff(rows: seq<Segment>)
    ensures (Filter(rows, NegativeDistance) == [] && Filter(rows, NegativeDuration) == []
             && Filter(rows, BearingOutOfRange) == [])
            <==> forall i :: 0 <= i < |rows| ==> SaneSegment(rows[i])
  {
    NoneFiltered(rows, NegativeDistance);
    NoneFiltered(rows, NegativeDuration);
    NoneFiltered(rows, BearingOutOfRange);
  }

  // ---------------------------------------------------------------------
  // validate_wind_direction

  /** A Python float: a finite value, NaN or an infinity. */
  datatype Float = Finite(x: real) | NaN | Infinity(negative: bool)

  /** The argument: None, a number, or a string for `float()` to parse. */
  datatype WindArgument = NoValue | Number(f: Float) | Text(s: string)

  /** `validate_wind_direction`; `parseFloat` is Python's `float()` on a string
      (None where it raises ValueError). */
  function ValidateWindDirection(wind: WindArgument, parseFloat: string -> Option<Float>): (r: Validated<real>)
    ensures r.Valid? ==> 0.0 <= r.value < 360.0
    ensures wind.Number? && wind.f.Finite? ==> r == Valid(Mod360(wind.f.x))
    ensures wind.NoValue? ==> r == Invalid(ValueIsNone)
    ensures wind.Number? && !wind.f.Finite? ==> r == Invalid(NotFinite)
  {
    match wind
    case NoValue => Invalid(ValueIsNone)
    case Text(s) =>
      (match parseFloat(s)
       case None => Invalid(CannotConvert(s))
       case Some(f) => NormalizeFloat(f))
    case Number(f) => NormalizeFloat(f)
  }

  function NormalizeFloat(f: Float): Validated<real>
  {
    match f
    case Finite(x) => Valid(Mod360(x))
    case _ => Invalid(NotFinite)
  }

  /** A normalised direction is a fixed point: validating it again returns it unchanged. */
  lemma ValidateWindIdempotent(wind: WindArgument, parseFloat: string -> Option<Float>)
    requires ValidateWindDirection(wind, parseFloat).Valid?
    ensures var once := ValidateWindDirection(wind, parseFloat).value;
            ValidateWindDirection(Number(Finite(once)), parseFloat) == Valid(once)
  {
    var once := ValidateWindDirection(wind, parseFloat).value;
    Mod360OfRange(once);
  }

  /** Directions a whole number of turns apart normalise to the same value. */
  lemma ValidateWindPeriodic(x: real, k: int, parseFloat: string -> Option<Float>)
    ensures ValidateWindDirection(Number(Finite(x + 360.0 * k as real)), parseFloat)
         == ValidateWindDirection(Number(Finite(x)), parseFloat)
  {
    Mod360Shift(x, k);
  }

  // ---------------------------------------------------------------------
  // validate_parameter_ranges

  datatype Parameter = AngleTolerance | MinDistance | MinDuration | MinSpeed | SuspiciousAngleThreshold

  /** The range each detection parameter must lie in. */
  predicate InRange(p: Parameter, v: real)
  {
    match p
    case AngleTolerance => 0.0 < v <= 180.0
    case MinDistance => 0.0 <= v <= 10000.0
    case MinDuration => 0.0 <= v <= 3600.0
    case MinSpeed => 0.0 <= v <= 200.0
    case SuspiciousAngleThreshold => 0.0 <= v <= 90.0
  }

  function CheckParameter(p: Parameter, v: Option<real>): (r: Option<ValidationError>)
    ensures r.None? <==> v.None? || InRange(p, v.value)
    ensures r.Some? ==> r.value == OutOfRange(p, v.value)
  {
    if v.Some? && !InRange(p, v.value) then Some(OutOfRange(p, v.value)) else None
  }

  /** `validate_parameter_ranges`: None when every supplied parameter is in range,
      otherwise the first offender in argument order. */
  function ValidateParameterRanges(angleTolerance: Option<real>, minDistance: Option<real>, minDuration: Option<real>,
                                   minSpeed: Option<real>, suspiciousAngleThreshold: Option<real>): (r: Option<ValidationError>)
    ensures r.None? <==>
      && (angleTolerance.None? || InRange(AngleTolerance, angleTolerance.value))
      && (minDistance.None? || InRange(MinDistance, minDistance.value))
      && (minDuration.None? || InRange(MinDuration, minDuration.value))
      && (minSpeed.None? || InRange(MinSpeed, minSpeed.value))
      && (suspiciousAngleThreshold.None? || InRange(SuspiciousAngleThreshold, suspiciousAngleThreshold.value))
    ensures angleTolerance.Some? && !InRange(AngleTolerance, angleTolerance.value) ==>
      r == Some(OutOfRange(AngleTolerance, angleTolerance.value))
  {
    var a := CheckParameter(AngleTolerance, angleTolerance);
    var d := CheckParameter(MinDistance, minDistance);
    var t := CheckParameter(MinDuration, minDuration);
    var v := CheckParameter(MinSpeed, minSpeed);
    var s := CheckParameter(SuspiciousAngleThreshold, suspiciousAngleThreshold);
    if a.Some? then a else if d.Some? then d else if t.Some? then t else if v.Some? then v else s
  }

  // ---------------------------------------------------------------------
  // validate_file_upload

  /** An uploaded file; `size` and `name` are None when the object lacks that attribute. */
  datatype Upload = Upload(size: Option<int>, name: Option<string>)

  /** The text after the last '/' of a path, which ends the path. */
  function LastPart(path: string): (r: string)
    ensures |r| <= |path| && '/' !in r
  {
    if path == [] then []
    else if path[|path| - 1] == '/' then []
    else LastPart(path[..|path| - 1]) + [path[|path| - 1]]
  }

  /** `PurePath(path).name`: pathlib drops empty and "." components, so the name is the
      last remaining component, or "" when none remains. */
  function BaseName(path: string): (r: string)
    ensures '/' !in r && r != "."
    decreases |path|
  {
    var part := LastPart(path);
    if part != [] && part != "." then part
    else if |part| == |path| then []
    else BaseName(path[..|path| - |part| - 1])
  }

  /** Index of the last '.', or -1. */
  function LastDot(name: string): (i: int)
    ensures -1 <= i < |name|
    ensures i >= 0 ==> name[i] == '.' && forall k :: i < k < |name| ==> name[k] != '.'
    ensures i == -1 ==> forall k :: 0 <= k < |name| ==> name[k] != '.'
  {
    if name == [] then -1
    else if name[|name| - 1] == '.' then |name| - 1
    else LastDot(name[..|name| - 1])
  }

  /** `pathlib.PurePath.suffix`: the final component's text from its last dot,
      unless that dot comes first or last in the component. */
  function Suffix(path: string): (r: string)
    ensures r != [] ==> r[0] == '.' && |r| >= 2 && '.' !in r[1..]
  {
    NameSuffix(BaseName(path))
  }

  /** The suffix of one path component. */
  function NameSuffix(name: string): (r: string)
    ensures r != [] ==> r[0] == '.' && |r| >= 2 && '.' !in r[1..]
  {
    var i := LastDot(name);
    if 0 < i < |name| - 1 then name[i..] else []
  }

  /** `validate_file_upload`: None when the upload passes. */
  function ValidateFileUpload(file: Option<Upload>): (r: Option<ValidationError>)
    ensures r.None? <==>
      && file.Some?
      && (file.value.size.Some? ==> file.value.size.value <= C.MaxUploadBytes)
      && (file.value.name.Some? ==> Lower(Suffix(file.value.name.value)) == ".gpx")
  {
    if file.None? then Some(NoFile)
    else
      var f := file.value;
      if f.size.Some? && f.size.value > C.MaxUploadBytes then Some(FileTooLarge(f.size.value))
      else if f.name.Some? && Lower(Suffix(f.name.value)) != ".gpx" then Some(InvalidFileType(Suffix(f.name.value)))
      else None
  }

  lemma {:induction false} LastPartWithoutSlash(name: string)
    requires '/' !in name
    ensures LastPart(name) == name
  {
    if name != [] {
      assert '/' !in name[..|name| - 1] by {
        assert forall k :: 0 <= k < |name| - 1 ==> name[..|name| - 1][k] == name[k];
      }
      LastPartWithoutSlash(name[..|name| - 1]);
    }
  }

  lemma {:induction false} LastPartAfterSlash(dir: string, name: string)
    ensures LastPart(dir + "/" + name) == LastPart(name)
    decreases |name|
  {
    var p := dir + "/" + name;
    if name == [] {
      assert p == dir + "/";
      assert p[|p| - 1] == '/';
    } else {
      assert p[..|p| - 1] == dir + "/" + name[..|name| - 1];
      LastPartAfterSlash(dir, name[..|name| - 1]);
    }
  }

  /** A name without separators, other than "" and ".", is its own base name. */
  lemma BaseNameOfName(name: string)
    requires '/' !in name && name != [] && name != "."
    ensures BaseName(name) == name
  {
    LastPartWithoutSlash(name);
  }

  /** Only the last component after the last '/' matters. */
  lemma BaseNameAfterSlash(dir: string, name: string)
    requires '/' !in name && name != [] && name != "."
    ensures BaseName(dir + "/" + name) == name
  {
    LastPartAfterSlash(dir, name);
    LastPartWithoutSlash(name);
  }

  /** A trailing '/' or "/." does not change the base name, so it does not change the suffix. */
  lemma TrailingSeparatorIgnored(path: string)
    ensures BaseName(path + "/") == BaseName(path) && Suffix(path + "/") == Suffix(path)
    ensures BaseName(path + "/.") == BaseName(path) && Suffix(path + "/.") == Suffix(path)
  {
    var p := path + "/";
    assert p[|p| - 1] == '/';
    assert p[..|p| - 0 - 1] == path;
    var q := path + "/.";
    assert q[..|q| - 1] == p;
    assert LastPart(q) == ".";
    assert q[..|q| - 1 - 1] == path;
  }

  lemma {:induction false} LastDotOfExtension(stem: string, ext: string)
    requires '.' !in ext
    ensures LastDot(stem + "." + ext) == |stem|
    decreases |ext|
  {
    var n := stem + "." + ext;
    if ext == [] {
      assert n == stem + ".";
      assert n[|n| - 1] == '.';
    } else {
      assert n[|n| - 1] == ext[|ext| - 1] by {
        assert n == (stem + ".") + ext;
      }
      assert n[..|n| - 1] == stem + "." + ext[..|ext| - 1];
      assert '.' !in ext[..|ext| - 1] by {
        assert forall k :: 0 <= k < |ext| - 1 ==> ext[..|ext| - 1][k] == ext[k];
      }
      LastDotOfExtension(stem, ext[..|ext| - 1]);
    }
  }

  /** A file name `stem.ext` with a non-empty stem and extension is accepted
      exactly when the extension is "gpx" in any letter case; the directory part
      and the size (up to 10 MiB) do not matter. */
  lemma UploadAcceptsGpxExtension(dir: string, stem: string, ext: string, size: int)
    requires stem != [] && ext != [] && '/' !in stem && '/' !in ext && '.' !in ext
    requires size <= C.MaxUploadBytes
    ensures ValidateFileUpload(Some(Upload(Some(size), Some(dir + "/" + stem + "." + ext)))).None?
            <==> Lower("." + ext) == ".gpx"
  {
    SuffixOfName(dir, stem, ext);
  }

  lemma SuffixOfName(dir: string, stem: string, ext: string)
    requires stem != [] && ext != [] && '/' !in stem && '/' !in ext && '.' !in ext
    ensures Suffix(dir + "/" + stem + "." + ext) == "." + ext
  {
    var name := stem + "." + ext;
    assert dir + "/" + stem + "." + ext == dir + "/" + name;
    NameSuffixOfExtension(stem, ext);
    SuffixAfterSlash(dir, name);
  }

  lemma SuffixAfterSlash(dir: string, name: string)
    requires '/' !in name && name != [] && name != "."
    ensures Suffix(dir + "/" + name) == NameSuffix(name)
  {
    BaseNameAfterSlash(dir, name);
  }

  lemma NameSuffixOfExtension(stem: string, ext: string)
    requires stem != [] && ext != [] && '/' !in stem && '/' !in ext && '.' !in ext
    ensures var name := stem + "." + ext; '/' !in name && name != "." && name != [] && NameSuffix(name) == "." + ext
  {
    var name := stem + "." + ext;
    LastDotOfExtension(stem, ext);
    assert name[|stem|..] == "." + ext;
    assert '/' !in name by {
      assert forall k :: 0 <= k < |name| ==> name[k] == (if k < |stem| then stem[k] else if k == |stem| then '.' else ext[k - |stem| - 1]);
    }
  }

  /** A hidden-file name such as ".gpx" has no suffix, so it is rejected. */
  lemma UploadRejectsDotName(ext: string)
    requires '/' !in ext && '.' !in ext
    ensures ValidateFileUpload(Some(Upload(None, Some("." + ext)))) == Some(InvalidFileType([]))
  {
    var name := "." + ext;
    assert '/' !in name;
    LastDotOfExtension([], ext);
    assert [] + "." + ext == name;
    assert NameSuffix(name) == [];
    if ext == [] {
      assert name == ".";
      assert BaseName(name) == [];
    } else {
      BaseNameOfName(name);
    }
    assert Suffix(name) == [];
  }

  // ---------------------------------------------------------------------
  // safe_dataframe_operation

  /** `safe_dataframe_operation`: the frame exists, is not empty when rows are
      required, has at least `minRows` rows and every required column. */
  function SafeDataframeOperation<R>(df: Option<Frame<R>>, requiredColumns: seq<Column>, minRows: int): (r: bool)
    ensures r <==>
      && df.Some?
      && !(df.value.IsEmpty() && minRows > 0)
      && |df.value.rows| >= minRows
      && forall c :: c in requiredColumns ==> c in df.value.columns
  {
    if df.None? then false
    else if df.value.IsEmpty() && minRows > 0 then false
    else if |df.value.rows| < minRows then false
    else if requiredColumns != [] && MissingOf(df.value.columns, requiredColumns) != [] then
      assert MissingOf(df.value.columns, requiredColumns)[0] in MissingOf(df.value.columns, requiredColumns);
      false
    else true
  }

  // ---------------------------------------------------------------------
  // validate_and_clean_segments

  /** The row conditions the cleaning filters impose, each only when its column exists. */
  predicate CleanRow(columns: set<Column>, s: Segment)
  {
    && (DistanceCol in columns ==> s.distance >= 0.0)
    && (DurationCol in columns ==> s.duration >= 0.0)
    && (BearingCol in columns ==> 0.0 <= s.bearing <= 360.0)
    && (AvgSpeedCol in columns ==> 0.0 <= s.avgSpeedKnots <= 200.0)
  }

  function CleanRows(columns: set<Column>, rows: seq<Segment>): seq<Segment>
  {
    Filter(rows, s => CleanRow(columns, s))
  }

  /** `validate_and_clean_segments`: None and empty frames pass through; otherwise
      the rows breaking a condition are dropped, the columns kept. */
  function ValidateAndCleanSegments(segments: Option<Frame<Segment>>): (r: Option<Frame<Segment>>)
    ensures segments.None? ==> r.None?
    ensures segments.Some? && segments.value.IsEmpty() ==> r == segments
    ensures segments.Some? ==> r.Some? && r.value.columns == segments.value.columns
    ensures segments.Some? ==> forall x :: x in r.value.rows <==> x in segments.value.rows && CleanRow(segments.value.columns, x)
    ensures segments.Some? && !segments.value.IsEmpty() ==>
      r.value.rows == Filter(segments.value.rows, s => CleanRow(segments.value.columns, s))
  {
    if segments.None? then None
    else
      var f := segments.value;
      if f.IsEmpty() then
        assert forall x :: x in f.rows ==> CleanRow(f.columns, x) by {
          if |f.rows| > 0 {
            assert f.columns == {};
          }
        }
        segments
      else
        forall x ensures x in CleanRows(f.columns, f.rows) <==> x in f.rows && CleanRow(f.columns, x) {
          FilterMember(f.rows, s => CleanRow(f.columns, s), x);
        }
        Some(f.WithRows(CleanRows(f.columns, f.rows)))
  }

  /** The cleaned rows keep their relative order. */
  lemma CleanKeepsOrder(segments: Frame<Segment>)
    ensures Subseq(ValidateAndCleanSegments(Some(segments)).value.rows, segments.rows)
  {
    if segments.IsEmpty() {
      SubseqRefl(segments.rows);
    } else {
      FilterSubseq(segments.rows, s => CleanRow(segments.columns, s));
    }
  }

  /** Cleaning twice is cleaning once. */
  lemma CleanIdempotent(segments: Option<Frame<Segment>>)
    ensures ValidateAndCleanSegments(ValidateAndCleanSegments(segments)) == ValidateAndCleanSegments(segments)
  {
    if segments.Some? && !segments.value.IsEmpty() {
      var f := segments.value;
      var once := ValidateAndCleanSegments(segments).value;
      if !once.IsEmpty() {
        FilterIdempotent(f.rows, s => CleanRow(f.columns, s));
      }
    }
  }

  /** A cleaned non-empty frame passes `validate_segments_dataframe` when it has the three critical columns. */
  lemma CleanedPassesValidation(segments: Frame<Segment>)
    requires {DistanceCol, DurationCol, BearingCol} <= segments.columns
    ensures ValidateSegmentsDataframe(ValidateAndCleanSegments(Some(segments))).Valid?
  {
    var r := ValidateAndCleanSegments(Some(segments)).value;
    forall i | 0 <= i < |r.rows| ensures SaneSegment(r.rows[i]) {
      assert r.rows[i] in r.rows;
    }
    SegmentsValidIff(Some(r));
  }
}
