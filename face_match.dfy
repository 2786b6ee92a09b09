/**
 * The face-match policy of `KYCVerificationSystem.verify_face_match`.
 *
 * The face-recognition engine is an input. For each image it yields
 * `Some(encodings)`, the face embeddings it found in detection order, or
 * `None` when loading or encoding raised. Its comparison
 * `compare(known, candidate, tolerance)` is left uninterpreted; the distance
 * the source computes next to it is only logged and is not modelled.
 */
module FaceMatch {
  import opened Wrappers

  /** The tolerance handed to the engine's comparison. */
  const FaceTolerance: real := 0.8

  /** Both images yielded at least one face. */
  predicate FacesFound<E>(personFaces: Option<seq<E>>, cardFaces: Option<seq<E>>) {
    personFaces.Some? && cardFaces.Some? && |personFaces.value| > 0 && |cardFaces.value| > 0
  }

  /**
   * The verdict: false when either engine call raised or either image shows no
   * face; otherwise the engine's comparison of the first face of the person
   * photo (as the known face) with the first face of the card, at tolerance 0.8.
   */
  function VerifyFaceMatch<E>(personFaces: Option<seq<E>>, cardFaces: Option<seq<E>>, compare: (E, E, real) -> bool): (matched: bool)
    ensures personFaces.None? || cardFaces.None? ==> !matched
    ensures personFaces == Some([]) || cardFaces == Some([]) ==> !matched
    ensures FacesFound(personFaces, cardFaces) ==>
      (matched <==> compare(personFaces.value[0], cardFaces.value[0], FaceTolerance))
  {
    match (personFaces, cardFaces)
    case (Some(ps), Some(cs)) =>
      if |ps| == 0 || |cs| == 0 then false
      else compare(ps[0], cs[0], FaceTolerance)
    case _ => false
  }

  /** Only the first face of each image takes part: further detections change nothing. */
  lemma OnlyFirstFacesCount<E>(p: E, ps: seq<E>, c: E, cs: seq<E>, compare: (E, E, real) -> bool)
    ensures VerifyFaceMatch(Some([p] + ps), Some([c] + cs), compare) == VerifyFaceMatch(Some([p]), Some([c]), compare)
  {
  }

  /**
   * When the engine's comparison is a distance threshold (as face_recognition's
   * `compare_faces` is), the verdict is "distance at most 0.8" between the two
   * first faces.
   */
  lemma DistanceThresholdReading<E>(personFaces: Option<seq<E>>, cardFaces: Option<seq<E>>,
                                    compare: (E, E, real) -> bool, distance: (E, E) -> real)
    requires forall a, b, tol :: compare(a, b, tol) == (distance(a, b) <= tol)
    ensures VerifyFaceMatch(personFaces, cardFaces, compare) <==>
      FacesFound(personFaces, cardFaces) && distance(personFaces.value[0], cardFaces.value[0]) <= 0.8
  {
  }
}
