/** Severity levels and the calibration policy applied to every issue a rule raises. */
module Severity {
  import opened Snapshots

  datatype Level = INFO | LOW | MEDIUM | HIGH | CRITICAL

  /** Position of a level in the order INFO < LOW < MEDIUM < HIGH < CRITICAL. */
  function Rank(l: Level): nat
  {
    match l
    case INFO => 0
    case LOW => 1
    case MEDIUM => 2
    case HIGH => 3
    case CRITICAL => 4
  }

  /**
   * `downgradeSeverity`: inline-wrapped components only ever get INFO; otherwise a
   * confidence below 0.7 gives LOW, below 0.85 gives MEDIUM, and the base level is kept.
   */
  function Calibrate(base: Level, confidence: real, boundary: BoundaryType): Level
  {
    if boundary == INLINE then INFO
    else if confidence < 0.7 then LOW
    else if confidence < 0.85 then MEDIUM
    else base
  }

  /** The only levels calibration can produce are INFO, LOW, MEDIUM and the base itself. */
  lemma CalibrateRange(base: Level, confidence: real, boundary: BoundaryType)
    ensures Calibrate(base, confidence, boundary) in {INFO, LOW, MEDIUM, base}
    ensures boundary == INLINE ==> Calibrate(base, confidence, boundary) == INFO
    ensures boundary == HOC && confidence >= 0.85 ==> Calibrate(base, confidence, boundary) == base
  {
  }

  /** For a base of MEDIUM or above, calibration never raises the level. */
  lemma CalibrateNeverRaisesHighBase(base: Level, confidence: real, boundary: BoundaryType)
    requires Rank(base) >= Rank(MEDIUM)
    ensures Rank(Calibrate(base, confidence, boundary)) <= Rank(base)
  {
  }

  /**
   * A base of INFO or LOW can be raised: the policy does not promise "never above base".
   * With base INFO, confidence 0.5 and an HOC boundary the result is LOW.
   */
  lemma CalibrateMayRaiseLowBase()
    ensures Calibrate(INFO, 0.5, HOC) == LOW
    ensures Calibrate(LOW, 0.8, HOC) == MEDIUM
  {
  }

  /** For a base of MEDIUM or above, more confidence never gives a lower level. */
  lemma CalibrateMonotoneInConfidence(base: Level, c1: real, c2: real, boundary: BoundaryType)
    requires Rank(base) >= Rank(MEDIUM)
    requires c1 <= c2
    ensures Rank(Calibrate(base, c1, boundary)) <= Rank(Calibrate(base, c2, boundary))
  {
  }
}
