/**
 * The ExtractorSolver base class: the options, search hints and result state
 * that every extractor/solver back end inherits. The base class only stores
 * and reports this state; extraction and solving live in subclasses.
 */
module Solver {
  import opened SolverTypes
  import opened SearchHints

  class ExtractorSolver {
    // Primary options
    var processType: ProcessType
    var extractorType: ExtractorType
    var solverType: SolverType

    // Logging settings
    var logToFile: bool
    var logFileName: string
    var astrometryLogLevel: AstrometryLogLevel
    var ssLogLevel: SSolverLogLevel

    // Temporary-file naming
    var baseName: string
    var basePath: string

    // Index files
    var indexFolderPaths: seq<string>
    var indexFiles: seq<string>

    /** The 3x3 convolution kernel handed to the internal extractor, row by row. */
    var convFilter: seq<real>

    // Scale hint; `scaleUnit` means something only once `useScale` has been set
    var useScale: bool
    var scaleLo: Double
    var scaleHi: Double
    var scaleUnit: ScaleUnits

    // Depth band of a child solver; -1 means unset
    var depthLo: int
    var depthHi: int

    // Position hint, in decimal degrees
    var usePosition: bool
    var searchRa: Double
    var searchDec: Double

    // State flags
    var hasExtracted: bool
    var hasSolved: bool
    var hasWCS: bool
    var wasAborted: bool

    // Subframing
    var useSubframe: bool
    var subFrameRect: Rect

    // The image; the buffer is borrowed from the caller, never copied
    var statistics: Statistic
    var imageBuffer: array?<bv8>
    var usingDownsampledImage: bool

    // Results
    var background: Background
    var extractedStars: seq<Star>
    var solution: Solution
    var solutionIndexNumber: Int16
    var solutionHealpix: Int16

    // Files the astrometry engine watches
    var cancelFileName: string
    var solvedFileName: string

    var isChildSolver: bool

    /**
     * The state of a solver nobody has configured or run yet: every option at
     * its declared initial value, no hints in use, no results.
     * `scaleUnit`, `background` and `solution` are not constrained.
     */
    predicate HasDefaultState()
      reads this
    {
      && !logToFile && logFileName == ""
      && astrometryLogLevel == LogNone && ssLogLevel == LogNormal
      && baseName == "" && basePath == ""
      && indexFolderPaths == [] && indexFiles == []
      && convFilter == [1.0, 2.0, 1.0, 2.0, 4.0, 2.0, 1.0, 2.0, 1.0]
      && !useScale && scaleLo == Finite(0.0) && scaleHi == Finite(0.0)
      && depthLo == -1 && depthHi == -1
      && !usePosition && searchRa == HugeVal && searchDec == HugeVal
      && !hasExtracted && !hasSolved && !hasWCS && !wasAborted
      && !useSubframe && subFrameRect == NullRect
      && !usingDownsampledImage
      && extractedStars == []
      && solutionIndexNumber == -1 && solutionHealpix == -1
      && cancelFileName == "" && solvedFileName == ""
      && !isChildSolver
    }

    /** The search hints currently set on this solver. */
    function Hints(): (c: SearchConfig)
      reads this
    {
      SearchConfig(useScale, scaleLo, scaleHi, scaleUnit,
                   usePosition, searchRa, searchDec,
                   useSubframe, subFrameRect)
    }

    /**
     * Builds a solver for one process type and back-end pair over the given
     * image; the buffer reference is kept as given, and everything else
     * starts at its default.
     */
    constructor (pType: ProcessType, eType: ExtractorType, sType: SolverType,
                 stats: Statistic, buffer: array?<bv8>)
      ensures processType == pType && extractorType == eType && solverType == sType
      ensures statistics == stats && imageBuffer == buffer
      ensures HasDefaultState()
    {
      processType, extractorType, solverType := pType, eType, sType;
      statistics, imageBuffer := stats, buffer;
      logToFile, logFileName := false, "";
      astrometryLogLevel, ssLogLevel := LogNone, LogNormal;
      baseName, basePath := "", "";
      indexFolderPaths, indexFiles := [], [];
      convFilter := [1.0, 2.0, 1.0, 2.0, 4.0, 2.0, 1.0, 2.0, 1.0];
      useScale, scaleLo, scaleHi := false, Finite(0.0), Finite(0.0);
      depthLo, depthHi := -1, -1;
      usePosition, searchRa, searchDec := false, HugeVal, HugeVal;
      hasExtracted, hasSolved, hasWCS, wasAborted := false, false, false, false;
      useSubframe, subFrameRect := false, NullRect;
      usingDownsampledImage := false;
      extractedStars := [];
      solutionIndexNumber, solutionHealpix := -1, -1;
      cancelFileName, solvedFileName := "", "";
      isChildSolver := false;
    }

    /**
     * Turns the scale hint on and stores the range and its units exactly as
     * given: no check that the values are finite or that low <= high. The
     * frame names the four scale fields only, so position, subframe, result
     * and state fields are unchanged.
     */
    method SetSearchScale(fovLow: Double, fovHigh: Double, units: ScaleUnits)
      modifies this`useScale, this`scaleLo, this`scaleHi, this`scaleUnit
      ensures useScale && scaleLo == fovLow && scaleHi == fovHigh && scaleUnit == units
      ensures Hints() == WithScale(old(Hints()), fovLow, fovHigh, units)
    {
      useScale := true;
      scaleLo := fovLow;
      scaleHi := fovHigh;
      scaleUnit := units;
    }

    /**
     * Turns the position hint on and stores RA and Dec (both in degrees) as
     * given. Only the three position fields may change.
     */
    method SetSearchPositionInDegrees(ra: Double, dec: Double)
      modifies this`usePosition, this`searchRa, this`searchDec
      ensures usePosition && searchRa == ra && searchDec == dec
      ensures Hints() == WithPosition(old(Hints()), ra, dec)
    {
      usePosition := true;
      searchRa := ra;
      searchDec := dec;
    }

    /** Turns subframing on and stores the rectangle. Only the two subframe fields may change. */
    method SetUseSubframe(frame: Rect)
      modifies this`useSubframe, this`subFrameRect
      ensures useSubframe && subFrameRect == frame
      ensures Hints() == WithSubframe(old(Hints()), frame)
    {
      useSubframe := true;
      subFrameRect := frame;
    }

    /** The astrometry keyword for the current scale unit, empty if the unit is not one of the four named ones. */
    function GetScaleUnitString(): (keyword: string)
      reads this
      ensures keyword == ScaleUnitKeyword(scaleUnit)
      ensures keyword != "" <==> IsNamedUnit(scaleUnit)
    {
      ScaleUnitKeyword(scaleUnit)
    }

    /** The number of stars the last extraction found. */
    function GetNumStarsFound(): (n: int)
      reads this
      ensures n == |extractedStars|
      ensures n == 0 <==> extractedStars == []
    {
      |extractedStars|
    }

    /** Whether the extraction also measures the half-flux radius of each star. */
    function IsCalculatingHFR(): (hfr: bool)
      reads this
      ensures hfr <==> processType == ExtractWithHFR
    {
      processType == ExtractWithHFR
    }

    /** Whether star extraction has completed successfully. */
    function ExtractionDone(): (done: bool)
      reads this
      ensures done == hasExtracted
    {
      hasExtracted
    }

    /** Whether plate solving has completed successfully. */
    function SolvingDone(): (done: bool)
      reads this
      ensures done == hasSolved
    {
      hasSolved
    }

    /** Whether WCS data is available after solving. */
    function HasWCSData(): (has: bool)
      reads this
      ensures has == hasWCS
    {
      hasWCS
    }

    function GetBackground(): (b: Background)
      reads this
      ensures b == background
    {
      background
    }

    function GetStarList(): (stars: seq<Star>)
      reads this
      ensures stars == extractedStars && |stars| == GetNumStarsFound()
    {
      extractedStars
    }

    function GetSolution(): (s: Solution)
      reads this
      ensures s == solution
    {
      solution
    }

    /** The index file number that produced the last solution, -1 if none. */
    function GetSolutionIndexNumber(): (n: Int16)
      reads this
      ensures n == solutionIndexNumber
    {
      solutionIndexNumber
    }

    /** The healpix of the index that produced the last solution, -1 if none. */
    function GetSolutionHealpix(): (n: Int16)
      reads this
      ensures n == solutionHealpix
    {
      solutionHealpix
    }
  }

  /** What the queries report on a solver in its default state. */
  lemma FreshSolverQueries(s: ExtractorSolver)
    requires s.HasDefaultState()
    ensures !s.ExtractionDone() && !s.SolvingDone() && !s.HasWCSData()
    ensures s.GetNumStarsFound() == 0 && s.GetStarList() == []
    ensures s.GetSolutionIndexNumber() == -1 && s.GetSolutionHealpix() == -1
    ensures !s.Hints().useScale && !s.Hints().usePosition && !s.Hints().useSubframe
  {
  }
}
