/**
 * Value types shared by the ExtractorSolver model: the SSolver enumerations,
 * the FITSImage records the solver stores, and the astrometry scale-unit
 * keywords.
 */
module SolverTypes {

  datatype Option<T> = None | Some(value: T)

  /** What a solver run does: extract stars, extract them and compute HFR, or plate solve. */
  datatype ProcessType = Extract | ExtractWithHFR | Solve

  /** Which star extractor backs the solver. */
  datatype ExtractorType = ExtractorInternal | ExtractorExternal | ExtractorBuiltin

  /** Which astrometric solver backs the solver. */
  datatype SolverType =
    | SolverStellarSolver
    | SolverLocalAstrometry
    | SolverASTAP
    | SolverWatneyAstrometry
    | SolverOnlineAstrometry

  /**
   * Units of a search-scale range. `OtherUnits` stands for any value of the
   * C++ enum outside the four named enumerators (the field has no
   * initializer), so that the `default:` branch of the keyword switch is
   * reachable.
   */
  datatype ScaleUnits = DegWidth | ArcminWidth | ArcsecPerPix | FocalMM | OtherUnits

  /** Logging level handed to the astrometry engine. */
  datatype AstrometryLogLevel = LogNone | LogError | LogMsg | LogVerb | LogAll

  /** Logging level of the solver's own messages. */
  datatype SSolverLogLevel = LogNormal | LogVerbose

  /**
   * An IEEE double that is only stored, never computed on: a finite value,
   * HUGE_VAL (positive infinity, the "no position given" default), negative
   * infinity or NaN.
   */
  datatype Double = Finite(value: real) | HugeVal | NegHugeVal | NaN

  /** A QRect given by its top-left corner and its size. */
  datatype Rect = Rect(x: int, y: int, width: int, height: int)

  /** The null rectangle a default-constructed QRect holds. */
  const NullRect: Rect := Rect(0, 0, 0, 0)

  /** Image statistics the solver is built with; only stored by the base class. */
  datatype Statistic = Statistic(width: nat, height: nat, channels: nat, dataType: int, bytesPerPixel: nat)

  /** One extracted star. */
  datatype Star = Star(x: real, y: real, ra: real, dec: real, mag: real, peak: real, hfr: real)

  /** Summary of the image background found during extraction. */
  datatype Background = Background(bw: int, bh: int, global: real, globalRms: real, numStarsDetected: int)

  datatype Parity = Both | Positive | Negative

  /** The sky calibration returned by a successful solve. */
  datatype Solution = Solution(
    fieldWidth: real, fieldHeight: real,
    ra: real, dec: real,
    orientation: real, pixscale: real,
    parity: Parity)

  /** A signed 16-bit value (`short`). */
  newtype Int16 = x: int | -0x8000 <= x < 0x8000

  /** True for the four scale units the astrometry engine understands. */
  predicate IsNamedUnit(u: ScaleUnits)
  {
    u != OtherUnits
  }

  /**
   * The astrometry keyword for a scale unit; the empty string for any value
   * outside the four named units.
   */
  function ScaleUnitKeyword(u: ScaleUnits): (keyword: string)
    ensures keyword != "" <==> IsNamedUnit(u)
    ensures u == OtherUnits ==> keyword == ""
  {
    match u
    case DegWidth => "degwidth"
    case ArcminWidth => "arcminwidth"
    case ArcsecPerPix => "arcsecperpix"
    case FocalMM => "focalmm"
    case OtherUnits => ""
  }

  /** The four keywords, unit by unit. */
  lemma ScaleUnitKeywords()
    ensures ScaleUnitKeyword(DegWidth) == "degwidth"
    ensures ScaleUnitKeyword(ArcminWidth) == "arcminwidth"
    ensures ScaleUnitKeyword(ArcsecPerPix) == "arcsecperpix"
    ensures ScaleUnitKeyword(FocalMM) == "focalmm"
  {
  }

  /** Distinct units give distinct keywords, so a keyword identifies its unit. */
  lemma ScaleUnitKeywordInjective(u: ScaleUnits, v: ScaleUnits)
    requires ScaleUnitKeyword(u) == ScaleUnitKeyword(v)
    ensures u == v
  {
  }
}
