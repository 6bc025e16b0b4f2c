/**
 * The `saveImage` server action of the `sitev` variant. It is the main site's action with
 * one more step: the decoded image is re-encoded as JPEG at quality 80 before the upload,
 * and that step can fail too. Every failure is caught: the action never throws and answers
 * `{ filePath: null }` instead.
 *
 * The clock, base64 decoding, the JPEG encoder (`sharp`) and the blob store's `put` are
 * parameters; an encoder answering `None` stands for `sharp` throwing.
 */
module SitevActions {
  import opened Common
  import opened ImageUpload
  import DataUri

  /** The JPEG quality the image is re-encoded at. */
  const JpegQuality: nat := 80

  /** The `try` block: the uploaded URL, or the reason it threw. */
  function Attempt(dataUri: string, now: nat, decode: string -> seq<Byte>,
                   jpeg: (seq<Byte>, nat) -> Option<seq<Byte>>,
                   put: (string, seq<Byte>) -> PutResult): Outcome
  {
    var payload := DataUri.Payload(dataUri);
    if payload == "" then Threw(InvalidDataUri)
    else match jpeg(decode(payload), JpegQuality)
      case None => Threw(ReencodeFailed)
      case Some(processed) =>
        match put(FileName(now), processed)
        case Stored(url) => Uploaded(url)
        case PutFailed => Threw(UploadFailed)
  }

  /**
   * `saveImage` never throws. It answers a URL exactly when the payload after the last
   * marker is non-empty, its re-encoding at quality 80 succeeded and the store accepted
   * the re-encoded bytes under `${now}.jpg`; the URL is the store's. An empty payload is
   * refused before anything is encoded or uploaded.
   */
  function SaveImage(dataUri: string, now: nat, decode: string -> seq<Byte>,
                     jpeg: (seq<Byte>, nat) -> Option<seq<Byte>>,
                     put: (string, seq<Byte>) -> PutResult): (r: SaveResult)
    ensures var payload := DataUri.Payload(dataUri);
      r.filePath.Some? <==>
        payload != "" && jpeg(decode(payload), JpegQuality).Some? &&
        put(FileName(now), jpeg(decode(payload), JpegQuality).value).Stored?
    ensures var payload := DataUri.Payload(dataUri);
      r.filePath.Some? ==>
        r.filePath == Some(put(FileName(now), jpeg(decode(payload), JpegQuality).value).url)
    ensures dataUri == "" || EndsWithMarker(dataUri) ==>
      r.filePath == None && Attempt(dataUri, now, decode, jpeg, put) == Threw(InvalidDataUri)
  {
    DataUri.PayloadEmpty(dataUri);
    Caught(Attempt(dataUri, now, decode, jpeg, put))
  }
}
