/**
 * The `saveImage` server action of the main site: it takes a data URI, keeps the text after
 * the last ";base64,", refuses an empty payload, decodes it and uploads it under a
 * timestamped ".jpg" name. Every failure is caught, so the action never throws and answers
 * `{ filePath: null }` instead.
 *
 * The clock (`Date.now()`), base64 decoding (`Buffer.from`) and the blob store's `put` are
 * parameters.
 */
module Actions {
  import opened Common
  import opened ImageUpload
  import DataUri

  /** The `try` block: the uploaded URL, or the reason it threw. */
  function Attempt(dataUri: string, now: nat, decode: string -> seq<Byte>,
                   put: (string, seq<Byte>) -> PutResult): Outcome
  {
    var payload := DataUri.Payload(dataUri);
    if payload == "" then Threw(InvalidDataUri)
    else match put(FileName(now), decode(payload))
      case Stored(url) => Uploaded(url)
      case PutFailed => Threw(UploadFailed)
  }

  /**
   * `saveImage` never throws. It answers a URL exactly when the payload after the last
   * marker is non-empty and the store accepted that payload, decoded, under the name
   * `${now}.jpg`; the URL is the store's. An empty input, or one ending in the marker,
   * is refused as an invalid data URI whatever the store would do.
   */
  function SaveImage(dataUri: string, now: nat, decode: string -> seq<Byte>,
                     put: (string, seq<Byte>) -> PutResult): (r: SaveResult)
    ensures var payload := DataUri.Payload(dataUri);
      r.filePath.Some? <==> payload != "" && put(FileName(now), decode(payload)).Stored?
    ensures var payload := DataUri.Payload(dataUri);
      r.filePath.Some? ==> r.filePath == Some(put(FileName(now), decode(payload)).url)
    ensures dataUri == "" || EndsWithMarker(dataUri) ==>
      r.filePath == None && Attempt(dataUri, now, decode, put) == Threw(InvalidDataUri)
  {
    DataUri.PayloadEmpty(dataUri);
    Caught(Attempt(dataUri, now, decode, put))
  }

  /** The only inputs refused as invalid data URIs are the empty one and those ending in the marker. */
  lemma InvalidDataUriExactly(dataUri: string, now: nat, decode: string -> seq<Byte>,
                              put: (string, seq<Byte>) -> PutResult)
    ensures Attempt(dataUri, now, decode, put) == Threw(InvalidDataUri) <==>
      dataUri == "" || EndsWithMarker(dataUri)
  {
    DataUri.PayloadEmpty(dataUri);
  }
}
