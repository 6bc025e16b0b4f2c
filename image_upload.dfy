/**
 * What the two `saveImage` server actions share: the stored file's name, built from the
 * millisecond clock as `${Date.now()}.jpg`, and the shapes of the upload's outcome and of
 * the action's result.
 */
module ImageUpload {
  import opened Common
  import DataUri

  /** What the blob store's `put` gives back: the public URL, or a rejection (it threw). */
  datatype PutResult = Stored(url: string) | PutFailed

  /** The action's result `{ filePath: string | null }`. */
  datatype SaveResult = SaveResult(filePath: Option<string>)

  /** Why the `try` block failed; every failure is caught and logged. */
  datatype Failure = InvalidDataUri | ReencodeFailed | UploadFailed

  /** How the `try` block ended: with the uploaded URL, or by throwing. */
  datatype Outcome = Uploaded(url: string) | Threw(failure: Failure)

  /** The `catch`: every failure becomes a null file path. */
  function Caught(o: Outcome): (r: SaveResult)
    ensures r.filePath.Some? <==> o.Uploaded?
    ensures o.Uploaded? ==> r.filePath.value == o.url
  {
    match o
    case Uploaded(url) => SaveResult(Some(url))
    case Threw(_) => SaveResult(None)
  }

  /** The input ends with the ";base64," marker. */
  predicate EndsWithMarker(dataUri: string) {
    |dataUri| >= |DataUri.Base64Marker| && dataUri[|dataUri| - |DataUri.Base64Marker|..] == DataUri.Base64Marker
  }

  predicate IsDigit(c: char) {
    '0' <= c <= '9'
  }

  /** The decimal notation of a natural number, as JavaScript prints an integer-valued Number. */
  function Decimal(n: nat): (s: string)
    ensures |s| > 0 && forall k :: 0 <= k < |s| ==> IsDigit(s[k])
    ensures |s| > 1 ==> s[0] != '0'
  {
    if n < 10 then [Digit(n)] else Decimal(n / 10) + [Digit(n % 10)]
  }

  function Digit(d: nat): (c: char)
    requires d < 10
    ensures IsDigit(c)
  {
    ['0', '1', '2', '3', '4', '5', '6', '7', '8', '9'][d]
  }

  /** The number a string of decimal digits denotes. */
  function DigitsValue(s: string): nat
    requires forall k :: 0 <= k < |s| ==> IsDigit(s[k])
  {
    if s == [] then 0
    else
      assert IsDigit(s[|s| - 1]);
      DigitsValue(s[..|s| - 1]) * 10 + (s[|s| - 1] as int - '0' as int)
  }

  /** Reading the decimal notation back gives the number: the name determines the timestamp. */
  lemma {:induction false} DecimalRoundTrip(n: nat)
    ensures DigitsValue(Decimal(n)) == n
  {
    if n >= 10 {
      DecimalRoundTrip(n / 10);
      var s := Decimal(n);
      assert s[..|s| - 1] == Decimal(n / 10);
    }
  }

  /** The stored file name `${Date.now()}.jpg`. */
  function FileName(now: nat): (name: string)
    ensures |name| > 4 && name[|name| - 4..] == ".jpg"
    ensures forall k :: 0 <= k < |name| - 4 ==> IsDigit(name[k])
  {
    Decimal(now) + ".jpg"
  }

  /** Distinct timestamps give distinct file names. */
  lemma FileNameInjective(now1: nat, now2: nat)
    requires FileName(now1) == FileName(now2)
    ensures now1 == now2
  {
    var a, b := FileName(now1), FileName(now2);
    assert Decimal(now1) == a[..|a| - 4];
    assert Decimal(now2) == b[..|b| - 4];
    DecimalRoundTrip(now1);
    DecimalRoundTrip(now2);
  }
}
