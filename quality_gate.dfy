/**
 * The document-image quality gate of `KYCVerificationSystem.check_card_quality`.
 *
 * The three measurements (variance of the Laplacian, mean grey level and the
 * fraction of Canny edge pixels) are computed by OpenCV and NumPy; here they
 * are inputs. Weights and the admission threshold are kept in integer tenths
 * (0.3 = 3, 0.2 = 2, 0.5 = 5): every floating-point sum of a subset of
 * {0.3, 0.2, 0.5} orders against 0.3 exactly as the corresponding tenths do
 * against 3, so no rounding is lost.
 */
module QualityGate {

  /** What the image-processing library reports for one grey-scale card image. */
  datatype Measurements = Measurements(laplacianVar: real, brightness: real, edgeDensity: real)

  /** Score contributions, in tenths. */
  const BlurWeight: int := 3
  const BrightnessWeight: int := 2
  const EdgeWeight: int := 5

  /** `min_card_quality_score = 0.3`, in tenths. */
  const MinCardQualityScore: int := 3

  /** Sharp enough: the Laplacian variance exceeds 100. */
  predicate Sharp(m: Measurements) {
    m.laplacianVar > 100.0
  }

  /** Neither under- nor over-exposed: mean brightness strictly between 100 and 200. */
  predicate WellLit(m: Measurements) {
    100.0 < m.brightness < 200.0
  }

  /** A printed card's edge density: strictly between 0.05 and 0.15. */
  predicate PlausibleEdges(m: Measurements) {
    0.05 < m.edgeDensity < 0.15
  }

  /** The total score, the sum of the weights of the checks that pass. */
  function QualityScore(m: Measurements): (score: int)
    ensures score in {0, 2, 3, 5, 7, 8, 10}
    ensures 0 <= score <= BlurWeight + BrightnessWeight + EdgeWeight
  {
    (if Sharp(m) then BlurWeight else 0)
    + (if WellLit(m) then BrightnessWeight else 0)
    + (if PlausibleEdges(m) then EdgeWeight else 0)
  }

  /** The gate's verdict: the score is strictly above the threshold. */
  predicate Admitted(m: Measurements, threshold: int) {
    QualityScore(m) > threshold
  }

  /**
   * At the configured threshold the gate admits exactly the images whose edge
   * density is plausible, or which are both sharp and well lit.
   */
  lemma AdmittedCharacterization(m: Measurements)
    ensures Admitted(m, MinCardQualityScore) <==> PlausibleEdges(m) || (Sharp(m) && WellLit(m))
  {
  }

  /** A sharp image that fails both other checks scores exactly 0.3 and is rejected. */
  lemma BlurOnlyRejected(m: Measurements)
    requires Sharp(m) && !WellLit(m) && !PlausibleEdges(m)
    ensures QualityScore(m) == MinCardQualityScore
    ensures !Admitted(m, MinCardQualityScore)
  {
  }

  /** Passing more checks never lowers the score. */
  lemma ScoreMonotone(m: Measurements, m': Measurements)
    requires Sharp(m) ==> Sharp(m')
    requires WellLit(m) ==> WellLit(m')
    requires PlausibleEdges(m) ==> PlausibleEdges(m')
    ensures QualityScore(m) <= QualityScore(m')
    ensures Admitted(m, MinCardQualityScore) ==> Admitted(m', MinCardQualityScore)
  {
  }

  /** Every comparison is strict: a measurement on a boundary earns nothing. */
  lemma BoundariesEarnNothing(lv: real, b: real, ed: real)
    requires lv == 100.0 && (b == 100.0 || b == 200.0) && (ed == 0.05 || ed == 0.15)
    ensures QualityScore(Measurements(lv, b, ed)) == 0
  {
  }
}
