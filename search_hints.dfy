/**
 * The search hints an ExtractorSolver carries — scale range, sky position and
 * subframe — as a value, with the effect of each setter on it. The solver
 * class states its setters in terms of these functions; the lemmas here say
 * what any sequence of setter calls leaves behind.
 */
module SearchHints {
  import opened SolverTypes

  /** The hint fields of one solver. */
  datatype SearchConfig = SearchConfig(
    useScale: bool, scaleLo: Double, scaleHi: Double, scaleUnit: ScaleUnits,
    usePosition: bool, searchRa: Double, searchDec: Double,
    useSubframe: bool, subframe: Rect)

  /** The three groups of hint fields, one per setter. */
  datatype HintKind = ScaleHint | PositionHint | SubframeHint

  /** Whether two configurations hold the same fields of the given group. */
  predicate AgreeOn(c: SearchConfig, d: SearchConfig, k: HintKind)
  {
    match k
    case ScaleHint =>
      c.useScale == d.useScale && c.scaleLo == d.scaleLo && c.scaleHi == d.scaleHi && c.scaleUnit == d.scaleUnit
    case PositionHint =>
      c.usePosition == d.usePosition && c.searchRa == d.searchRa && c.searchDec == d.searchDec
    case SubframeHint =>
      c.useSubframe == d.useSubframe && c.subframe == d.subframe
  }

  /**
   * setSearchScale: turns scale use on and stores the range and its units as
   * given (no check that lo <= hi); position and subframe are untouched.
   */
  function WithScale(c: SearchConfig, lo: Double, hi: Double, units: ScaleUnits): (r: SearchConfig)
    ensures r.useScale && r.scaleLo == lo && r.scaleHi == hi && r.scaleUnit == units
    ensures AgreeOn(r, c, PositionHint) && AgreeOn(r, c, SubframeHint)
  {
    c.(useScale := true, scaleLo := lo, scaleHi := hi, scaleUnit := units)
  }

  /**
   * setSearchPositionInDegrees: turns position use on and stores RA and Dec;
   * scale and subframe are untouched.
   */
  function WithPosition(c: SearchConfig, ra: Double, dec: Double): (r: SearchConfig)
    ensures r.usePosition && r.searchRa == ra && r.searchDec == dec
    ensures AgreeOn(r, c, ScaleHint) && AgreeOn(r, c, SubframeHint)
  {
    c.(usePosition := true, searchRa := ra, searchDec := dec)
  }

  /** setUseSubframe: turns subframing on and stores the rectangle; scale and position are untouched. */
  function WithSubframe(c: SearchConfig, frame: Rect): (r: SearchConfig)
    ensures r.useSubframe && r.subframe == frame
    ensures AgreeOn(r, c, ScaleHint) && AgreeOn(r, c, PositionHint)
  {
    c.(useSubframe := true, subframe := frame)
  }

  /** Calling either search setter, or the subframe setter, twice with the same arguments equals calling it once. */
  lemma SettersIdempotent(c: SearchConfig, lo: Double, hi: Double, units: ScaleUnits, ra: Double, dec: Double, frame: Rect)
    ensures WithScale(WithScale(c, lo, hi, units), lo, hi, units) == WithScale(c, lo, hi, units)
    ensures WithPosition(WithPosition(c, ra, dec), ra, dec) == WithPosition(c, ra, dec)
    ensures WithSubframe(WithSubframe(c, frame), frame) == WithSubframe(c, frame)
  {
  }

  /** The scale and position setters write disjoint fields, so their order does not matter. */
  lemma ScaleAndPositionCommute(c: SearchConfig, lo: Double, hi: Double, units: ScaleUnits, ra: Double, dec: Double)
    ensures WithPosition(WithScale(c, lo, hi, units), ra, dec) == WithScale(WithPosition(c, ra, dec), lo, hi, units)
  {
  }

  /** One setter call with its arguments. */
  datatype SetterCall =
    | ScaleCall(lo: Double, hi: Double, units: ScaleUnits)
    | PositionCall(ra: Double, dec: Double)
    | SubframeCall(frame: Rect)

  function KindOf(call: SetterCall): HintKind
  {
    match call
    case ScaleCall(_, _, _) => ScaleHint
    case PositionCall(_, _) => PositionHint
    case SubframeCall(_) => SubframeHint
  }

  /** The effect of one call: it sets its own group and leaves the other two as they were. */
  function Apply(c: SearchConfig, call: SetterCall): (r: SearchConfig)
    ensures forall k :: k != KindOf(call) ==> AgreeOn(r, c, k)
  {
    match call
    case ScaleCall(lo, hi, units) => WithScale(c, lo, hi, units)
    case PositionCall(ra, dec) => WithPosition(c, ra, dec)
    case SubframeCall(frame) => WithSubframe(c, frame)
  }

  /** The configuration after the calls, made in order, starting from `c`. */
  function ApplyAll(c: SearchConfig, calls: seq<SetterCall>): SearchConfig
  {
    if calls == [] then c else Apply(ApplyAll(c, calls[..|calls| - 1]), calls[|calls| - 1])
  }

  /** The last call of the given kind, if there is one. */
  function LastCallOf(calls: seq<SetterCall>, k: HintKind): (r: Option<SetterCall>)
    ensures r.Some? ==> r.value in calls && KindOf(r.value) == k
    ensures r.Some? ==> exists i :: 0 <= i < |calls| && calls[i] == r.value &&
                          forall j :: i < j < |calls| ==> KindOf(calls[j]) != k
    ensures r.None? ==> forall call :: call in calls ==> KindOf(call) != k
  {
    if calls == [] then None
    else if KindOf(calls[|calls| - 1]) == k then Some(calls[|calls| - 1])
    else LastCallOf(calls[..|calls| - 1], k)
  }

  /** A call sets every field of its own group whatever the configuration it is applied to. */
  lemma ApplyOverwritesOwnGroup(c: SearchConfig, d: SearchConfig, call: SetterCall)
    ensures AgreeOn(Apply(c, call), Apply(d, call), KindOf(call))
  {
  }

  lemma AgreeOnTransitive(a: SearchConfig, b: SearchConfig, c: SearchConfig, k: HintKind)
    requires AgreeOn(a, b, k) && AgreeOn(b, c, k)
    ensures AgreeOn(a, c, k)
  {
  }

  /**
   * The setters keep no history: after any sequence of calls, each group of
   * hint fields is what the last call of that group wrote, or what it was
   * before if no call of that group was made.
   */
  lemma {:induction false} LastCallWins(c: SearchConfig, calls: seq<SetterCall>, k: HintKind)
    ensures LastCallOf(calls, k).None? ==> AgreeOn(ApplyAll(c, calls), c, k)
    ensures LastCallOf(calls, k).Some? ==> AgreeOn(ApplyAll(c, calls), Apply(c, LastCallOf(calls, k).value), k)
  {
    if calls != [] {
      var init, last := calls[..|calls| - 1], calls[|calls| - 1];
      var before := ApplyAll(c, init);
      if KindOf(last) == k {
        ApplyOverwritesOwnGroup(before, c, last);
      } else {
        LastCallWins(c, init, k);
        assert AgreeOn(ApplyAll(c, calls), before, k);
        match LastCallOf(init, k)
        case None =>
          AgreeOnTransitive(ApplyAll(c, calls), before, c, k);
        case Some(prev) =>
          AgreeOnTransitive(ApplyAll(c, calls), before, Apply(c, prev), k);
      }
    }
  }
}
