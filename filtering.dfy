/** Time-window and lat/lon-box filters on detected segments, applied after
    detection and before wind analysis (backend/core/filtering.py). Times are
    seconds; a missing timestamp is None. */
module Filtering {
  import opened Wrappers
  import opened Seqs
  import opened Frames
  import opened SegmentModel

  // ---------------------------------------------------------------------
  // Time filter

  /** A segment overlaps the window: it ends at or after `timeStart` and starts
      at or before `timeEnd`; a missing bound or a missing timestamp never excludes. */
  predicate OverlapsWindow(s: Segment, timeStart: Option<int>, timeEnd: Option<int>)
  {
    && (timeStart.Some? && s.endTime.Some? ==> s.endTime.value >= timeStart.value)
    && (timeEnd.Some? && s.startTime.Some? ==> s.startTime.value <= timeEnd.value)
  }

  predicate HasStartTime(s: Segment)
  {
    s.startTime.Some?
  }

  predicate HasEndTime(s: Segment)
  {
    s.endTime.Some?
  }

  /** The filter is skipped for an empty frame, for missing time columns, and
      when no segment has a start time or none has an end time. */
  predicate TimeFilterApplies(segments: Frame<Segment>)
  {
    && !segments.IsEmpty()
    && StartTimeCol in segments.columns && EndTimeCol in segments.columns
    && (exists i :: 0 <= i < |segments.rows| && HasStartTime(segments.rows[i]))
    && (exists i :: 0 <= i < |segments.rows| && HasEndTime(segments.rows[i]))
  }

  /** `filter_segments_by_time`. */
  function FilterSegmentsByTime(segments: Frame<Segment>, timeStart: Option<int>, timeEnd: Option<int>): (r: Frame<Segment>)
    ensures r.columns == segments.columns
    ensures !TimeFilterApplies(segments) ==> r == segments
    ensures TimeFilterApplies(segments) ==> r.rows == Filter(segments.rows, s => OverlapsWindow(s, timeStart, timeEnd))
  {
    if !TimeFilterApplies(segments) then segments
    else segments.WithRows(Filter(segments.rows, s => OverlapsWindow(s, timeStart, timeEnd)))
  }

  /** When the filter applies it keeps exactly the overlapping segments. */
  lemma TimeFilterKeepsExactly(segments: Frame<Segment>, timeStart: Option<int>, timeEnd: Option<int>, x: Segment)
    requires TimeFilterApplies(segments)
    ensures x in FilterSegmentsByTime(segments, timeStart, timeEnd).rows <==> x in segments.rows && OverlapsWindow(x, timeStart, timeEnd)
  {
    FilterMember(segments.rows, s => OverlapsWindow(s, timeStart, timeEnd), x);
  }

  /** The kept segments are in their original order. */
  lemma TimeFilterSubseq(segments: Frame<Segment>, timeStart: Option<int>, timeEnd: Option<int>)
    ensures Subseq(FilterSegmentsByTime(segments, timeStart, timeEnd).rows, segments.rows)
  {
    if TimeFilterApplies(segments) {
      FilterSubseq(segments.rows, s => OverlapsWindow(s, timeStart, timeEnd));
    } else {
      SubseqRefl(segments.rows);
    }
  }

  /** Without bounds nothing is dropped. */
  lemma TimeFilterWithoutBounds(segments: Frame<Segment>)
    ensures FilterSegmentsByTime(segments, None, None) == segments
  {
    if TimeFilterApplies(segments) {
      FilterAllTrue(segments.rows, s => OverlapsWindow(s, None, None));
    }
  }

  // ---------------------------------------------------------------------
  // Spatial filter

  /** A closed lat/lon box with its bounds in order. */
  datatype Box = Box(latMin: real, latMax: real, lonMin: real, lonMax: real)

  predicate InBox(p: TrackPoint, b: Box)
  {
    b.latMin <= p.latitude <= b.latMax && b.lonMin <= p.longitude <= b.lonMax
  }

  /** The box the filter uses: a missing axis covers the globe; swapped bounds are put in order. */
  function BoxOf(latBounds: Option<(real, real)>, lonBounds: Option<(real, real)>): (b: Box)
    ensures b.latMin <= b.latMax && b.lonMin <= b.lonMax
    ensures latBounds.None? ==> b.latMin == -90.0 && b.latMax == 90.0
    ensures lonBounds.None? ==> b.lonMin == -180.0 && b.lonMax == 180.0
    ensures latBounds.Some? ==> {b.latMin, b.latMax} == {latBounds.value.0, latBounds.value.1}
    ensures lonBounds.Some? ==> {b.lonMin, b.lonMax} == {lonBounds.value.0, lonBounds.value.1}
  {
    var (la, lb) := if latBounds.Some? then latBounds.value else (-90.0, 90.0);
    var (oa, ob) := if lonBounds.Some? then lonBounds.value else (-180.0, 180.0);
    Box(if la > lb then lb else la, if la > lb then la else lb,
        if oa > ob then ob else oa, if oa > ob then oa else ob)
  }

  /** The segment's points: `track.iloc[start_idx:end_idx + 1]`. */
  function SegmentPoints(track: seq<TrackPoint>, s: Segment): seq<TrackPoint>
  {
    PySlice(track, s.startIdx, s.endIdx + 1)
  }

  /** `segment_in_bounds`: some point of the segment lies in the box (an empty slice has none). */
  predicate SegmentInBounds(track: seq<TrackPoint>, b: Box, s: Segment)
  {
    exists k :: 0 <= k < |SegmentPoints(track, s)| && InBox(SegmentPoints(track, s)[k], b)
  }

  predicate SpatialFilterApplies(segments: Frame<Segment>, track: Frame<TrackPoint>,
                                 latBounds: Option<(real, real)>, lonBounds: Option<(real, real)>)
  {
    && !segments.IsEmpty()
    && (latBounds.Some? || lonBounds.Some?)
    && StartIdxCol in segments.columns && EndIdxCol in segments.columns
    && LatitudeCol in track.columns && LongitudeCol in track.columns
  }

  /** `filter_segments_by_spatial_bounds`. */
  function FilterSegmentsBySpatialBounds(segments: Frame<Segment>, track: Frame<TrackPoint>,
                                         latBounds: Option<(real, real)>, lonBounds: Option<(real, real)>): (r: Frame<Segment>)
    ensures r.columns == segments.columns
    ensures !SpatialFilterApplies(segments, track, latBounds, lonBounds) ==> r == segments
  {
    if !SpatialFilterApplies(segments, track, latBounds, lonBounds) then segments
    else
      var b := BoxOf(latBounds, lonBounds);
      segments.WithRows(Filter(segments.rows, s => SegmentInBounds(track.rows, b, s)))
  }

  /** When the filter applies, a segment is kept exactly when one of its track
      points lies in the (ordered) box. */
  lemma SpatialFilterKeepsExactly(segments: Frame<Segment>, track: Frame<TrackPoint>,
                                  latBounds: Option<(real, real)>, lonBounds: Option<(real, real)>, x: Segment)
    requires SpatialFilterApplies(segments, track, latBounds, lonBounds)
    ensures x in FilterSegmentsBySpatialBounds(segments, track, latBounds, lonBounds).rows
            <==> x in segments.rows && SegmentInBounds(track.rows, BoxOf(latBounds, lonBounds), x)
  {
    var b := BoxOf(latBounds, lonBounds);
    FilterMember(segments.rows, s => SegmentInBounds(track.rows, b, s), x);
  }

  /** A segment whose index range selects no track point is always dropped. */
  lemma EmptySliceDropped(segments: Frame<Segment>, track: Frame<TrackPoint>,
                          latBounds: Option<(real, real)>, lonBounds: Option<(real, real)>, x: Segment)
    requires SpatialFilterApplies(segments, track, latBounds, lonBounds)
    requires SegmentPoints(track.rows, x) == []
    ensures x !in FilterSegmentsBySpatialBounds(segments, track, latBounds, lonBounds).rows
  {
    SpatialFilterKeepsExactly(segments, track, latBounds, lonBounds, x);
  }

  /** Swapping a pair of bounds does not change the result. */
  lemma SpatialFilterSwapInvariant(segments: Frame<Segment>, track: Frame<TrackPoint>, la: real, lb: real, oa: real, ob: real)
    ensures FilterSegmentsBySpatialBounds(segments, track, Some((la, lb)), Some((oa, ob)))
         == FilterSegmentsBySpatialBounds(segments, track, Some((lb, la)), Some((ob, oa)))
  {
    assert BoxOf(Some((la, lb)), Some((oa, ob))) == BoxOf(Some((lb, la)), Some((ob, oa)));
  }

  lemma SpatialFilterSubseq(segments: Frame<Segment>, track: Frame<TrackPoint>,
                            latBounds: Option<(real, real)>, lonBounds: Option<(real, real)>)
    ensures Subseq(FilterSegmentsBySpatialBounds(segments, track, latBounds, lonBounds).rows, segments.rows)
  {
    if SpatialFilterApplies(segments, track, latBounds, lonBounds) {
      var b := BoxOf(latBounds, lonBounds);
      FilterSubseq(segments.rows, s => SegmentInBounds(track.rows, b, s));
    } else {
      SubseqRefl(segments.rows);
    }
  }

  // ---------------------------------------------------------------------
  // apply_filters and validate_filter_params

  /** `apply_filters`: the time filter when a time bound is given, then the
      spatial filter when a box bound is given. */
  function ApplyFilters(segments: Frame<Segment>, track: Frame<TrackPoint>, timeStart: Option<int>, timeEnd: Option<int>,
                        latBounds: Option<(real, real)>, lonBounds: Option<(real, real)>): (r: Frame<Segment>)
    ensures segments.IsEmpty() ==> r == segments
    ensures r.columns == segments.columns
  {
    if segments.IsEmpty() then segments
    else
      var timed := if timeStart.Some? || timeEnd.Some? then FilterSegmentsByTime(segments, timeStart, timeEnd) else segments;
      if latBounds.Some? || lonBounds.Some? then FilterSegmentsBySpatialBounds(timed, track, latBounds, lonBounds) else timed
  }

  /** Skipping a filter whose parameters are absent is the same as running it:
      `apply_filters` is the spatial filter after the time filter. */
  lemma ApplyFiltersComposes(segments: Frame<Segment>, track: Frame<TrackPoint>, timeStart: Option<int>, timeEnd: Option<int>,
                             latBounds: Option<(real, real)>, lonBounds: Option<(real, real)>)
    ensures ApplyFilters(segments, track, timeStart, timeEnd, latBounds, lonBounds)
         == FilterSegmentsBySpatialBounds(FilterSegmentsByTime(segments, timeStart, timeEnd), track, latBounds, lonBounds)
  {
    if timeStart.None? && timeEnd.None? {
      TimeFilterWithoutBounds(segments);
    }
  }

  /** Every row `apply_filters` keeps is a row of its input, in the input's order. */
  lemma ApplyFiltersSubseq(segments: Frame<Segment>, track: Frame<TrackPoint>, timeStart: Option<int>, timeEnd: Option<int>,
                           latBounds: Option<(real, real)>, lonBounds: Option<(real, real)>)
    ensures Subseq(ApplyFilters(segments, track, timeStart, timeEnd, latBounds, lonBounds).rows, segments.rows)
  {
    ApplyFiltersComposes(segments, track, timeStart, timeEnd, latBounds, lonBounds);
    var timed := FilterSegmentsByTime(segments, timeStart, timeEnd);
    TimeFilterSubseq(segments, timeStart, timeEnd);
    SpatialFilterSubseq(timed, track, latBounds, lonBounds);
    SubseqTrans(FilterSegmentsBySpatialBounds(timed, track, latBounds, lonBounds).rows, timed.rows, segments.rows);
  }

  /** `validate_filter_params`: None for (True, None), otherwise the first failing check's message. */
  function ValidateFilterParams(timeStart: Option<int>, timeEnd: Option<int>,
                                latBounds: Option<(real, real)>, lonBounds: Option<(real, real)>): (r: Option<string>)
    ensures r.None? <==>
      && (timeStart.Some? && timeEnd.Some? ==> timeStart.value <= timeEnd.value)
      && (latBounds.Some? ==> -90.0 <= latBounds.value.0 && latBounds.value.1 <= 90.0 && latBounds.value.0 <= latBounds.value.1)
      && (lonBounds.Some? ==> -180.0 <= lonBounds.value.0 && lonBounds.value.1 <= 180.0 && lonBounds.value.0 <= lonBounds.value.1)
    ensures timeStart.Some? && timeEnd.Some? && timeStart.value > timeEnd.value ==> r == Some("time_start must be before time_end")
  {
    if timeStart.Some? && timeEnd.Some? && timeStart.value > timeEnd.value then Some("time_start must be before time_end")
    else if latBounds.Some? && (latBounds.value.0 < -90.0 || latBounds.value.1 > 90.0) then Some("Latitude must be between -90 and 90")
    else if latBounds.Some? && latBounds.value.0 > latBounds.value.1 then Some("lat_min must be less than lat_max")
    else if lonBounds.Some? && (lonBounds.value.0 < -180.0 || lonBounds.value.1 > 180.0) then Some("Longitude must be between -180 and 180")
    else if lonBounds.Some? && lonBounds.value.0 > lonBounds.value.1 then Some("lon_min must be less than lon_max")
    else None
  }

  /** A range check on an axis is reported before that axis's order check. */
  lemma ValidateFilterParamsOrder(lat: (real, real))
    requires lat.0 > lat.1 && lat.1 > 90.0
    ensures ValidateFilterParams(None, None, Some(lat), None) == Some("Latitude must be between -90 and 90")
  {
  }

  /** Bounds that pass validation describe the box the spatial filter uses, unchanged. */
  lemma ValidBoundsNeedNoSwap(latBounds: (real, real), lonBounds: (real, real))
    requires ValidateFilterParams(None, None, Some(latBounds), Some(lonBounds)).None?
    ensures BoxOf(Some(latBounds), Some(lonBounds)) == Box(latBounds.0, latBounds.1, lonBounds.0, lonBounds.1)
  {
  }
}
