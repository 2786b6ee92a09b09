/**
 * The KYC pipeline, `KYCVerificationSystem.process_kyc`: load both images,
 * then the quality gate, the card-type gate and the face gate, in that order.
 * The first gate that fails decides the result; a load failure, the only
 * exception that reaches the catch-all, becomes an `error` result carrying the
 * exception's message.
 */
module KycPipeline {
  import opened Wrappers
  import opened QualityGate
  import opened CardClassifier
  import opened FaceMatch
  import opened ImageLoader

  datatype Status = Success | Failed | Error

  /**
   * The returned dictionary: `status`, and each optional key as an `Option`
   * (`None` when the key is absent).
   */
  datatype KycResult = KycResult(
    status: Status,
    reason: Option<string>,
    cardType: Option<CardType>,
    verificationComplete: Option<bool>)

  const PoorQualityReason: string := "Poor card quality or potential tampering detected"
  const UnidentifiedCardReason: string := "Unable to identify card type"
  const FaceMismatchReason: string := "Face verification failed"

  /** `{'status': 'failed', 'reason': reason}` */
  function FailedWith(reason: string): KycResult {
    KycResult(Failed, Some(reason), None, None)
  }

  /** `{'status': 'error', 'reason': message}` */
  function ErrorWith(message: string): KycResult {
    KycResult(Error, Some(message), None, None)
  }

  /** `{'status': 'success', 'card_type': cardType, 'verification_complete': True}` */
  function Passed(cardType: CardType): KycResult {
    KycResult(Success, None, Some(cardType), Some(true))
  }

  /** The keys a result carries for its status. */
  predicate WellFormed(r: KycResult) {
    if r.status == Success then
      r.reason.None? && r.cardType.Some? && r.verificationComplete == Some(true)
    else
      r.reason.Some? && r.cardType.None? && r.verificationComplete.None?
  }

  /** All three gates pass for a person photo and a card image that both load. */
  predicate AllGatesPass<E>(threshold: int, person: Picture<E>, card: Picture<E>, compare: (E, E, real) -> bool) {
    && Admitted(card.measurements, threshold)
    && card.ocrText.Some?
    && Classify(Normalize(card.ocrText.value)).Some?
    && VerifyFaceMatch(person.faceEncodings, card.faceEncodings, compare)
  }

  /**
   * The pipeline's result as a function of its inputs: the two paths, the file
   * system the engines see, their face comparison, and the quality threshold.
   */
  function KycOutcome<E>(threshold: int, personPath: string, cardPath: string,
                         fs: FileSystem<E>, compare: (E, E, real) -> bool): (r: KycResult)
    ensures WellFormed(r)
    ensures r.status == Failed ==>
      r.reason == Some(PoorQualityReason) || r.reason == Some(UnidentifiedCardReason) || r.reason == Some(FaceMismatchReason)
  {
    match CheckImageValidity(fs, personPath)
    case Err(message) => ErrorWith(message)
    case Ok(person) =>
      match CheckImageValidity(fs, cardPath)
      case Err(message) => ErrorWith(message)
      case Ok(card) =>
        if !Admitted(card.measurements, threshold) then FailedWith(PoorQualityReason)
        else match Identify(card.ocrText)
          case None => FailedWith(UnidentifiedCardReason)
          case Some(info) =>
            if info.cardType.None? then FailedWith(UnidentifiedCardReason)
            else if !VerifyFaceMatch(person.faceEncodings, card.faceEncodings, compare) then FailedWith(FaceMismatchReason)
            else Passed(info.cardType.value)
  }

  /** `KYCVerificationSystem`: the configured threshold and the output directory for the log. */
  class KycVerificationSystem {
    /** `min_card_quality_score`, in tenths. */
    const minCardQualityScore: int
    const outputDir: string

    constructor (outputDir: string)
      ensures this.outputDir == outputDir
      ensures minCardQualityScore == MinCardQualityScore
    {
      this.outputDir := outputDir;
      minCardQualityScore := MinCardQualityScore;
    }

    /** `check_card_quality`: accumulates the score check by check and compares it with the threshold. */
    method CheckCardQuality(m: Measurements) returns (admitted: bool)
      ensures admitted <==> Admitted(m, minCardQualityScore)
    {
      var qualityScore := 0;
      if m.laplacianVar > 100.0 {
        qualityScore := qualityScore + BlurWeight;
      }
      if 100.0 < m.brightness < 200.0 {
        qualityScore := qualityScore + BrightnessWeight;
      }
      if 0.05 < m.edgeDensity < 0.15 {
        qualityScore := qualityScore + EdgeWeight;
      }
      admitted := qualityScore > minCardQualityScore;
    }

    /** `process_kyc`: runs the gates in order and returns at the first that fails. */
    method ProcessKyc<E>(personPath: string, cardPath: string, fs: FileSystem<E>, compare: (E, E, real) -> bool)
      returns (r: KycResult)
      ensures r == KycOutcome(minCardQualityScore, personPath, cardPath, fs, compare)
    {
      var personLoad := CheckImageValidity(fs, personPath);
      if personLoad.Err? {
        return ErrorWith(personLoad.error);
      }
      var cardLoad := CheckImageValidity(fs, cardPath);
      if cardLoad.Err? {
        return ErrorWith(cardLoad.error);
      }
      var person, card := personLoad.value, cardLoad.value;

      var qualityOk := CheckCardQuality(card.measurements);
      if !qualityOk {
        return FailedWith(PoorQualityReason);
      }

      var cardInfo := PanCardExtractTextAndIdentify(card.ocrText);
      if cardInfo.None? || cardInfo.value.cardType.None? {
        return FailedWith(UnidentifiedCardReason);
      }

      if !VerifyFaceMatch(person.faceEncodings, card.faceEncodings, compare) {
        return FailedWith(FaceMismatchReason);
      }

      return Passed(cardInfo.value.cardType.value);
    }
  }

  // Properties of the pipeline.

  /**
   * Success exactly when both images load and all three gates pass, and the
   * card type reported is the classifier's.
   */
  lemma SuccessIffAllGatesPass<E>(threshold: int, personPath: string, cardPath: string,
                                  fs: FileSystem<E>, compare: (E, E, real) -> bool)
    ensures KycOutcome(threshold, personPath, cardPath, fs, compare).status == Success <==>
      && personPath in fs && fs[personPath].Decodable?
      && cardPath in fs && fs[cardPath].Decodable?
      && AllGatesPass(threshold, fs[personPath].picture, fs[cardPath].picture, compare)
    ensures KycOutcome(threshold, personPath, cardPath, fs, compare).status == Success ==>
      KycOutcome(threshold, personPath, cardPath, fs, compare).cardType ==
        Classify(Normalize(fs[cardPath].picture.ocrText.value))
  {
  }

  /** A missing or undecodable person photo decides the result, whatever the card path holds. */
  lemma PersonPhotoLoadedFirst<E>(threshold: int, personPath: string, cardPath: string,
                                  fs: FileSystem<E>, compare: (E, E, real) -> bool)
    requires !(personPath in fs && fs[personPath].Decodable?)
    ensures KycOutcome(threshold, personPath, cardPath, fs, compare) ==
      ErrorWith(if personPath in fs then InvalidImageMessage else NotFoundMessage(personPath))
  {
  }

  /** With the person photo loaded, a card image that does not load is reported with its own message. */
  lemma CardImageLoadError<E>(threshold: int, personPath: string, cardPath: string,
                              fs: FileSystem<E>, compare: (E, E, real) -> bool)
    requires personPath in fs && fs[personPath].Decodable?
    requires !(cardPath in fs && fs[cardPath].Decodable?)
    ensures KycOutcome(threshold, personPath, cardPath, fs, compare) ==
      ErrorWith(if cardPath in fs then InvalidImageMessage else NotFoundMessage(cardPath))
  {
  }

  /** An `error` result arises from a load failure only; every gate failure is a `failed` result. */
  lemma ErrorsComeFromLoading<E>(threshold: int, personPath: string, cardPath: string,
                                 fs: FileSystem<E>, compare: (E, E, real) -> bool)
    ensures KycOutcome(threshold, personPath, cardPath, fs, compare).status == Error <==>
      !(personPath in fs && fs[personPath].Decodable? && cardPath in fs && fs[cardPath].Decodable?)
  {
  }

  /** The quality gate runs first: a rejected card fails on quality, whatever its text and faces. */
  lemma QualityGateDecidesFirst<E>(threshold: int, personPath: string, cardPath: string,
                                   fs: FileSystem<E>, compare: (E, E, real) -> bool)
    requires personPath in fs && fs[personPath].Decodable?
    requires cardPath in fs && fs[cardPath].Decodable?
    requires !Admitted(fs[cardPath].picture.measurements, threshold)
    ensures KycOutcome(threshold, personPath, cardPath, fs, compare) == FailedWith(PoorQualityReason)
  {
  }

  /** The card-type gate runs second: an admitted card without a recognised type fails on that, whatever the faces. */
  lemma CardTypeGateDecidesSecond<E>(threshold: int, personPath: string, cardPath: string,
                                     fs: FileSystem<E>, compare: (E, E, real) -> bool)
    requires personPath in fs && fs[personPath].Decodable?
    requires cardPath in fs && fs[cardPath].Decodable?
    requires Admitted(fs[cardPath].picture.measurements, threshold)
    requires Identify(fs[cardPath].picture.ocrText).None? || Identify(fs[cardPath].picture.ocrText).value.cardType.None?
    ensures KycOutcome(threshold, personPath, cardPath, fs, compare) == FailedWith(UnidentifiedCardReason)
  {
  }

  /** The face gate runs last: with quality and type settled, a mismatch fails on the face. */
  lemma FaceGateDecidesLast<E>(threshold: int, personPath: string, cardPath: string,
                               fs: FileSystem<E>, compare: (E, E, real) -> bool)
    requires personPath in fs && fs[personPath].Decodable?
    requires cardPath in fs && fs[cardPath].Decodable?
    requires Admitted(fs[cardPath].picture.measurements, threshold)
    requires Identify(fs[cardPath].picture.ocrText).Some? && Identify(fs[cardPath].picture.ocrText).value.cardType.Some?
    requires !VerifyFaceMatch(fs[personPath].picture.faceEncodings, fs[cardPath].picture.faceEncodings, compare)
    ensures KycOutcome(threshold, personPath, cardPath, fs, compare) == FailedWith(FaceMismatchReason)
  {
  }

  /**
   * End to end: a well-measured card whose OCR text holds a PAN number, in any
   * letter case and among any other text, and whose first face the engine
   * matches with the person's, passes as a PAN card.
   */
  lemma PanCardPasses<E>(personPath: string, cardPath: string, fs: FileSystem<E>, compare: (E, E, real) -> bool,
                         pre: string, pan: string, post: string)
    requires personPath in fs && fs[personPath].Decodable?
    requires cardPath in fs && fs[cardPath].Decodable?
    requires PlausibleEdges(fs[cardPath].picture.measurements)
    requires fs[cardPath].picture.ocrText == Some(pre + pan + post) && IsPanNumber(pan)
    requires VerifyFaceMatch(fs[personPath].picture.faceEncodings, fs[cardPath].picture.faceEncodings, compare)
    ensures KycOutcome(MinCardQualityScore, personPath, cardPath, fs, compare) == Passed(Pan)
  {
    AdmittedCharacterization(fs[cardPath].picture.measurements);
    PanNumberInOcr(pre, pan, post);
  }

  /**
   * End to end, the blurred card: a card that is sharp only in name (blur check
   * passes, the other two fail) scores exactly 0.3 and fails on quality, even
   * when its text and faces would pass.
   */
  lemma BlurOnlyCardFails<E>(personPath: string, cardPath: string, fs: FileSystem<E>, compare: (E, E, real) -> bool)
    requires personPath in fs && fs[personPath].Decodable?
    requires cardPath in fs && fs[cardPath].Decodable?
    requires Sharp(fs[cardPath].picture.measurements)
    requires !WellLit(fs[cardPath].picture.measurements) && !PlausibleEdges(fs[cardPath].picture.measurements)
    ensures KycOutcome(MinCardQualityScore, personPath, cardPath, fs, compare) == FailedWith(PoorQualityReason)
  {
  }

  /** End to end: an admitted card whose OCR text has no digit at all fails on the card type. */
  lemma TextWithoutNumberFails<E>(personPath: string, cardPath: string, fs: FileSystem<E>, compare: (E, E, real) -> bool,
                                  raw: string)
    requires personPath in fs && fs[personPath].Decodable?
    requires cardPath in fs && fs[cardPath].Decodable?
    requires Admitted(fs[cardPath].picture.measurements, MinCardQualityScore)
    requires fs[cardPath].picture.ocrText == Some(raw)
    requires forall k :: 0 <= k < |raw| ==> !IsDigit(raw[k])
    ensures KycOutcome(MinCardQualityScore, personPath, cardPath, fs, compare) == FailedWith(UnidentifiedCardReason)
  {
    NoDigitsNoCardType(raw);
  }

  /** A freshly built system applies the 0.3 threshold, so its pipeline is `KycOutcome` at 3 tenths. */
  method FreshSystemUsesDefaultThreshold<E>(personPath: string, cardPath: string, fs: FileSystem<E>, compare: (E, E, real) -> bool)
    returns (r: KycResult)
    ensures r == KycOutcome(MinCardQualityScore, personPath, cardPath, fs, compare)
  {
    var system := new KycVerificationSystem("kyc_results");
    r := system.ProcessKyc(personPath, cardPath, fs, compare);
  }
}
