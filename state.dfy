/**
 * Application state (state.py): the shared `AppState` record and the zoom-range recorder
 * subscribed to the plot's range stream.
 */
module AppStateModel {
  import opened Wrappers
  import opened Frames
  import opened DataLoader

  /**
   * The stored range after one report: the reported range when it is recordable and
   * differs from the stored one, the stored range otherwise.
   */
  function RecordedRange(saved: Option<ViewRange>, reported: Option<ViewRange>): (r: Option<ViewRange>)
    ensures FullyGiven(reported) ==> r == reported
    ensures !FullyGiven(reported) ==> r == saved
    ensures r == saved || FullyGiven(r)
  {
    if FullyGiven(reported) && saved != reported then reported else saved
  }

  /** Reporting the same range twice leaves the state of the first report. */
  lemma RecordedRangeIdempotent(saved: Option<ViewRange>, reported: Option<ViewRange>)
    ensures RecordedRange(RecordedRange(saved, reported), reported) == RecordedRange(saved, reported)
  {
  }

  /** Reporting the range already stored changes nothing. */
  lemma RecordingStoredRangeIsNoOp(saved: Option<ViewRange>)
    ensures RecordedRange(saved, saved) == saved
  {
  }

  /** class AppState: the fields the controller reads and writes. */
  class AppState {
    var currentSimPath: Option<string>
    var variableGroups: Menu
    var savedXRange: Option<ViewRange>
    var savedYRange: Option<ViewRange>
    var currentCoordBounds: Option<(real, real, real, real)>
    var autoContourRange: bool
    var updatingContourProgrammatically: bool
    var isLoadingSimulation: bool
    var hasDataLoaded: bool
    var skipRangeExtraction: bool
    var levVals: Option<seq<real>>
    /** slider position to file time index */
    var timeIndexMap: map<int, int>
    var availableTimeIndices: seq<int>
    /** set when the vertical bounds changed, consumed by the level slider setup */
    var resetLevSlider: bool
    /** the `(nx, ny)` grid size seen at the previous simulation load */
    var tempGridBounds: Option<(int, int)>

    /** The parameter defaults of `AppState()`. */
    constructor ()
      ensures currentSimPath.None? && variableGroups == []
      ensures savedXRange.None? && savedYRange.None? && currentCoordBounds.None?
      ensures autoContourRange && !updatingContourProgrammatically
      ensures !isLoadingSimulation && !hasDataLoaded && !skipRangeExtraction
      ensures levVals.None? && timeIndexMap == map[] && availableTimeIndices == []
      ensures !resetLevSlider && tempGridBounds.None?
    {
      currentSimPath := None;
      variableGroups := [];
      savedXRange := None;
      savedYRange := None;
      currentCoordBounds := None;
      autoContourRange := true;
      updatingContourProgrammatically := false;
      isLoadingSimulation := false;
      hasDataLoaded := false;
      skipRangeExtraction := false;
      levVals := None;
      timeIndexMap := map[];
      availableTimeIndices := [];
      resetLevSlider := false;
      tempGridBounds := None;
    }

    /**
     * `record_ranges(x_range=..., y_range=...)`: each saved range follows RecordedRange
     * independently of the other; nothing else changes.
     */
    method RecordRanges(xr: Option<ViewRange>, yr: Option<ViewRange>)
      modifies this
      ensures savedXRange == RecordedRange(old(savedXRange), xr)
      ensures savedYRange == RecordedRange(old(savedYRange), yr)
      ensures currentSimPath == old(currentSimPath) && variableGroups == old(variableGroups)
      ensures currentCoordBounds == old(currentCoordBounds) && autoContourRange == old(autoContourRange)
      ensures updatingContourProgrammatically == old(updatingContourProgrammatically)
      ensures isLoadingSimulation == old(isLoadingSimulation) && hasDataLoaded == old(hasDataLoaded)
      ensures skipRangeExtraction == old(skipRangeExtraction) && levVals == old(levVals)
      ensures timeIndexMap == old(timeIndexMap) && availableTimeIndices == old(availableTimeIndices)
      ensures resetLevSlider == old(resetLevSlider) && tempGridBounds == old(tempGridBounds)
    {
      if FullyGiven(xr) {
        if savedXRange != xr {
          savedXRange := xr;
        }
      }
      if FullyGiven(yr) {
        if savedYRange != yr {
          savedYRange := yr;
        }
      }
    }
  }
}
