/**
 * Image loading, `KYCVerificationSystem.check_image_validity`, and the view of
 * the file system that the engines share.
 *
 * A path either names no file, a file that does not decode as an image, or a
 * picture. A picture stands for everything the foreign engines report about
 * that file: the quality measurements, the OCR text and the face encodings.
 */
module ImageLoader {
  import opened Wrappers
  import QualityGate

  /** What the engines report about one decodable image file. */
  datatype Picture<E> = Picture(
    measurements: QualityGate.Measurements,
    ocrText: Option<string>,
    faceEncodings: Option<seq<E>>)

  datatype FileEntry<E> = Undecodable | Decodable(picture: Picture<E>)

  /** The files present on disk; a path outside the map does not exist. */
  type FileSystem<E> = map<string, FileEntry<E>>

  /** The message of the `ValueError` raised for a file that does not decode. */
  const InvalidImageMessage: string := "Invalid image file"

  /** The message of the `FileNotFoundError` raised for a missing path. */
  function NotFoundMessage(path: string): string {
    "Image file not found: " + path
  }

  /**
   * Loads `path`: the decoded picture when the file exists and decodes; the
   * not-found message naming the path when there is no file; the invalid-image
   * message when the file exists but does not decode.
   */
  function CheckImageValidity<E>(fs: FileSystem<E>, path: string): (r: Result<Picture<E>, string>)
    ensures r.Ok? <==> path in fs && fs[path].Decodable?
    ensures r.Ok? ==> r.value == fs[path].picture
    ensures r.Err? ==> r.error == (if path in fs then InvalidImageMessage else NotFoundMessage(path))
  {
    if path !in fs then Err(NotFoundMessage(path))
    else match fs[path]
      case Undecodable => Err(InvalidImageMessage)
      case Decodable(picture) => Ok(picture)
  }

  /** The two failure messages never coincide, so the message tells which failure happened. */
  lemma LoadFailureIdentifiesCause<E>(fs: FileSystem<E>, path: string)
    requires CheckImageValidity(fs, path).Err?
    ensures CheckImageValidity(fs, path).error == NotFoundMessage(path) <==> path !in fs
    ensures CheckImageValidity(fs, path).error == InvalidImageMessage <==> path in fs
  {
  }
}
