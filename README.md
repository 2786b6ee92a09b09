# KYC verification decision logic, in Dafny

This project models the decision logic of `KYCVerificationSystem` (`app/kyc1.py`), the identity-verification (KYC) pipeline that checks a photo of an identity card against a photo of a person:

1. **Image loader** (`check_image_validity`): a path names no file, an undecodable file, or a picture.
2. **Quality gate** (`check_card_quality`): three threshold tests on the card image's blur (Laplacian variance), brightness and edge density add 0.3, 0.2 and 0.5 to a score. The image is admitted when the score is strictly above `min_card_quality_score = 0.3`.
3. **Document classifier** (`pan_card_extract_text_and_identify`): the OCR text is upper-cased and stripped of spaces. It is then searched for a PAN number (`[A-Z]{5}[0-9]{4}[A-Z]`), and only if there is none, for an Aadhaar number (`[0-9]{12}|[0-9]{4}\s[0-9]{4}\s[0-9]{4}`).
4. **Face matcher** (`verify_face_match`): the engine compares the first face of each image at tolerance 0.8. A missing face or an engine failure gives `False`.
5. **Orchestrator** (`process_kyc`): load both images, then run the quality gate, the card-type gate and the face gate. The first gate that fails decides the result, and a load failure becomes an `error` result carrying the exception's message.

The foreign engines are inputs. A `FileSystem<E>` maps each existing path to `Undecodable` or to a `Picture`. A picture carries what the engines report about that file: the three quality measurements (as `real`s), the OCR text (`None` when OCR raised) and the face encodings (`None` when face loading or encoding raised). The face comparison `compare(known, candidate, tolerance)` is a function parameter and is otherwise left uninterpreted.

Modules:
- `Wrappers`: `Option` and `Result`.
- `QualityGate`: measurements, weights in tenths, the score and its properties.
- `CardClassifier`: text cleaning, the two patterns, the `re.search` loops and the classifier.
- `FaceMatch`: the face-match policy.
- `ImageLoader`: the file view and image loading.
- `KycPipeline`: the result record, the `KycVerificationSystem` class (threshold field, `CheckCardQuality`, `ProcessKyc`) and the pipeline's properties.

How the source's Python is represented:
- **Scores.** Scores are integer tenths. The threshold is 3. Every floating-point sum of a subset of {0.3, 0.2, 0.5} compares with 0.3 the same way its tenths compare with 3. In particular `0.0 + 0.3` is exactly `0.3`, so a blur-only score is rejected.
- **Search.** `re.search` is a left-to-right search returning the leftmost start where the pattern fits (`SearchPan`, `SearchAadhaar`). The existential predicates `HasPan` and `HasAadhaar` specify it.
- **Result dictionary.** The returned dictionary is `KycResult`, and an absent key is `None`. The dictionary holds `card_type` as the string `CardType.Label()` ("PAN" / "AADHAAR").
- **Line 84 removes only U+0020.** One reading of the cleaning step strips all whitespace, which would leave the `\s` alternative of the Aadhaar pattern unreachable. The code calls `replace(' ', '')`, which removes only U+0020, and the model follows the code. Line breaks and tabs survive, and `LineSeparatedAadhaar` shows that `"1234\n5678\n9012"` is identified through the `\s` alternative alone. A number printed with U+0020 separators is still identified, through the twelve-digit alternative (`SpacedAadhaarNumberInOcr`).
- **Determinism.** The pipeline is a function of its inputs (`KycOutcome`), so two calls with identical inputs give identical results.

## Model

| member | source | states |
|---|---|---|
| QualityGate.QualityScore | app/kyc1.py:43-68 | the score is the sum of a subset of {3, 2, 5} tenths: one of 0, 2, 3, 5, 7, 8, 10 |
| QualityGate.AdmittedCharacterization | app/kyc1.py:13-71 | at threshold 0.3, an image is admitted exactly when `0.05 < edge_density < 0.15`, or when `laplacian_var > 100` and `100 < brightness < 200` |
| QualityGate.BlurOnlyRejected | app/kyc1.py:54-71 | an image that passes only the blur check scores exactly 0.3 and is rejected |
| QualityGate.ScoreMonotone | app/kyc1.py:54-68 | passing more checks never lowers the score nor turns an admission into a rejection |
| QualityGate.BoundariesEarnNothing | app/kyc1.py:54-68 | every comparison is strict: measurements on the boundaries (100, 100/200, 0.05/0.15) score 0 |
| KycPipeline.KycVerificationSystem.constructor | app/kyc1.py:12-14 | a new system keeps its output directory and has threshold 0.3 (3 tenths) |
| KycPipeline.KycVerificationSystem.CheckCardQuality | app/kyc1.py:41-71 | accumulating the score step by step admits exactly when the score exceeds the system's threshold |
| CardClassifier.ToUpper | app/kyc1.py:84 | `upper()` keeps the length and upper-cases every character in place |
| CardClassifier.RemoveSpaces | app/kyc1.py:84 | `replace(' ', '')` leaves no U+0020, and keeps every other character (tabs and line breaks included) with its multiplicity |
| CardClassifier.Normalize | app/kyc1.py:84 | the cleaned text has no U+0020, and holds every other character of the upper-cased text with its multiplicity |
| CardClassifier.NormalizeAppend | app/kyc1.py:84 | cleaning a concatenation is concatenating the cleaned pieces, so cleaning keeps the order |
| CardClassifier.NormalizeOfSpaceFree | app/kyc1.py:84 | a piece without U+0020 is only upper-cased |
| CardClassifier.NormalizeCharacterOrigin | app/kyc1.py:84 | each character of the cleaned text is the upper-case form of some character of the OCR text |
| CardClassifier.NormalizeIdempotent | app/kyc1.py:84-100 | the returned `extracted_text` is already clean: cleaning it again changes nothing |
| CardClassifier.SearchPan | app/kyc1.py:89 | the search finds the leftmost position where `[A-Z]{5}[0-9]{4}[A-Z]` fits, and finds none exactly when no position fits |
| CardClassifier.SearchAadhaar | app/kyc1.py:93 | the search finds the leftmost position where either Aadhaar alternative fits, and finds none exactly when none fits |
| CardClassifier.PanCardExtractTextAndIdentify | app/kyc1.py:74-103 | OCR failure gives `None`. Otherwise `extracted_text` is the cleaned text, and the type is PAN iff the text holds a PAN match. It is AADHAAR iff there is no PAN match and the text holds an Aadhaar match, and `None` otherwise |
| CardClassifier.PanNumberInOcr | app/kyc1.py:84-91 | OCR text containing a PAN number in any letter case, with anything around it, is classified PAN |
| CardClassifier.NormalizeSpacedAadhaarNumber | app/kyc1.py:84-93 | a `dddd dddd dddd` number (U+0020 separators) cleans into twelve consecutive digits |
| CardClassifier.SpacedAadhaarNumberInOcr | app/kyc1.py:84-95 | a U+0020-separated Aadhaar number in text without a PAN number is classified AADHAAR |
| CardClassifier.WhitespaceSeparatedAadhaar | app/kyc1.py:84-95 | an Aadhaar number whose groups are separated by whitespace other than U+0020 survives cleaning unchanged and is classified AADHAAR, with no twelve-digit run present |
| CardClassifier.LineSeparatedAadhaar | app/kyc1.py:84-95 | `"1234\n5678\n9012"` survives cleaning and is classified AADHAAR, although no twelve-digit run is present: the `\s` alternative is reachable |
| CardClassifier.PanTakesPrecedence | app/kyc1.py:89-95 | text holding both a PAN number and an Aadhaar number (the Aadhaar pattern does match) is classified PAN |
| CardClassifier.NoDigitsNoCardType | app/kyc1.py:87-100 | OCR text without a digit leaves `card_type` as `None` |
| FaceMatch.VerifyFaceMatch | app/kyc1.py:106-139 | `False` when either engine call raised or either image has no face. Otherwise the result is the engine's comparison of the person's first face with the card's first face, at tolerance 0.8 |
| FaceMatch.OnlyFirstFacesCount | app/kyc1.py:114-135 | further faces detected in either image do not change the verdict |
| FaceMatch.DistanceThresholdReading | app/kyc1.py:122-135 | when the comparison is a distance threshold, the verdict is "first faces found and their distance is at most 0.8" |
| ImageLoader.CheckImageValidity | app/kyc1.py:26-39 | a missing path fails with "Image file not found: <path>", an undecodable file fails with "Invalid image file", and a decodable file gives its picture |
| ImageLoader.LoadFailureIdentifiesCause | app/kyc1.py:29-35 | the two failure messages never coincide, so a load failure's message tells which cause it had |
| KycPipeline.KycOutcome | app/kyc1.py:141-191 | the result has exactly the keys its status calls for, and a `failed` reason is one of the three gate reasons |
| KycPipeline.KycVerificationSystem.ProcessKyc | app/kyc1.py:141-191 | running the loader and gates in order with early returns yields `KycOutcome` at the system's threshold |
| KycPipeline.SuccessIffAllGatesPass | app/kyc1.py:150-184 | `success` iff both images load and the quality, card-type and face gates all pass. The card type returned is the classifier's |
| KycPipeline.PersonPhotoLoadedFirst | app/kyc1.py:143-191 | a person photo that does not load gives `error` with its own message, whatever the card path holds |
| KycPipeline.CardImageLoadError | app/kyc1.py:146-191 | with the person photo loaded, a card image that does not load gives `error` with the card's message |
| KycPipeline.ErrorsComeFromLoading | app/kyc1.py:143-191 | the status is `error` exactly when one of the two images does not load |
| KycPipeline.QualityGateDecidesFirst | app/kyc1.py:149-155 | a card rejected by the quality gate fails with the quality reason, whatever its text and faces |
| KycPipeline.CardTypeGateDecidesSecond | app/kyc1.py:157-166 | an admitted card with no OCR text or no recognised type fails with the card-type reason, whatever the faces |
| KycPipeline.FaceGateDecidesLast | app/kyc1.py:168-175 | with quality and type passed, a face mismatch fails with the face reason |
| KycPipeline.PanCardPasses | app/kyc1.py:141-184 | a card with plausible edge density, OCR text holding a PAN number and matching first faces gives `success`, PAN, `verification_complete` True |
| KycPipeline.BlurOnlyCardFails | app/kyc1.py:149-155 | a card that passes only the blur check fails on quality, even if its text and faces would pass |
| KycPipeline.TextWithoutNumberFails | app/kyc1.py:157-166 | an admitted card whose OCR text has no digit fails with "Unable to identify card type" |
| KycPipeline.FreshSystemUsesDefaultThreshold | app/kyc1.py:12-13 | a system built by the constructor runs the pipeline at threshold 0.3 |

## Left out

- The Streamlit front-ends (`app/main.py`, `app/test2-ip-cam.py`) and the manual driver `app/test1-input-via-path.py` are presentation and I/O only.
- The image processing that produces the measurements (`cvtColor`, `Laplacian(...).var()`, `np.mean`, `Canny`, `count_nonzero / size`) is a foreign floating-point computation. Its results are `real` inputs, and NaN and infinities are not modelled.
- QualityGate.QualityScore: the score is kept in exact tenths rather than IEEE doubles. For the seven subset sums the comparison with 0.3 agrees.
- OCR (`pytesseract`) and the BGR-to-RGB conversion before it are inputs: the text, or `None` for any exception they raise.
- The face-recognition engine (`load_image_file`, `face_encodings`, `compare_faces`) is an input.
- FaceMatch.VerifyFaceMatch: `face_distance` is only logged and is not modelled. An exception raised by that call alone, which would turn a match into `False`, is not captured.
- CardClassifier.ToUpper: `str.upper()` is modelled on ASCII letters only. Non-ASCII case mappings (for example ß to SS, or dotless ı to I) are not modelled, and they could change a string's length or create ASCII letters.
- The `\s` class is modelled on ASCII only (code points 9-13 and 28-32). Non-ASCII whitespace such as U+00A0 or U+2028 is not modelled.
- KycPipeline.KycOutcome: exceptions raised inside `check_card_quality`, which the catch-all would also report as `error`, are not modelled. `imread` yields three-channel 8-bit images, on which those calls do not raise.
- Logging, the log file configuration and `os.makedirs` in the constructor are side channels with no effect on any result.
