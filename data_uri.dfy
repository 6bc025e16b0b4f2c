/**
 * The payload extraction `dataUri.split(';base64,').pop()` that both image-saving actions
 * perform, and what it yields for the inputs that matter: no marker, one or more markers,
 * and a marker at the very end.
 */
module DataUri {
  import opened Common
  import opened JsString

  /** The separator between a data URI's header and its base64 payload. */
  const Base64Marker: string := ";base64,"

  /** The payload `dataUri.split(';base64,').pop()` extracts. */
  function Payload(dataUri: string): (p: string)
    ensures Pop(Split(dataUri, Base64Marker)) == Some(p)
    ensures p == LastPiece(dataUri, Base64Marker)
  {
    Pop(Split(dataUri, Base64Marker)).value
  }

  /**
   * The payload is the text after the LAST marker: it holds no marker and ends the input;
   * a marker ends right where it starts, or, without any marker, it is the whole input.
   */
  lemma PayloadAfterLastMarker(dataUri: string)
    ensures Free(Payload(dataUri), Base64Marker)
    ensures |Payload(dataUri)| <= |dataUri|
    ensures dataUri[|dataUri| - |Payload(dataUri)|..] == Payload(dataUri)
    ensures Free(dataUri, Base64Marker) ==> Payload(dataUri) == dataUri
    ensures !Free(dataUri, Base64Marker) ==>
      |Payload(dataUri)| + |Base64Marker| <= |dataUri| &&
      OccursAt(dataUri, Base64Marker, |dataUri| - |Payload(dataUri)| - |Base64Marker|)
  {
    LastPieceAfterLastSeparator(dataUri, Base64Marker);
    LastPieceFree(dataUri, Base64Marker);
  }

  /** The payload is empty exactly when the input is empty or ends with the separator. */
  lemma PayloadEmpty(dataUri: string)
    ensures Payload(dataUri) == "" <==>
      (dataUri == "" || (|dataUri| >= |Base64Marker| && dataUri[|dataUri| - |Base64Marker|..] == Base64Marker))
  {
    PayloadAfterLastMarker(dataUri);
    var n, m, p := |dataUri|, |Base64Marker|, Payload(dataUri);
    if p == "" {
      if !Free(dataUri, Base64Marker) {
        assert dataUri[n - m..] == dataUri[n - m..n];
      }
    } else if n >= m && dataUri[n - m..] == Base64Marker {
      assert OccursAt(dataUri, Base64Marker, n - m);
      if |p| >= m {
        assert p[|p| - m..|p|] == dataUri[n - m..];
        assert OccursAt(p, Base64Marker, |p| - m);
      } else {
        // The two markers would overlap, which the marker's shape rules out.
        var k := |p|;
        assert dataUri[n - m..n - k] == dataUri[n - m..][..m - k];
        assert dataUri[n - m..n - k] == dataUri[n - k - m..n - k][k..];
        MarkerDoesNotOverlapItself(k);
        assert false;
      }
    }
  }

  /** No proper suffix of ";base64," is also a prefix of it: two markers never overlap. */
  lemma MarkerDoesNotOverlapItself(k: nat)
    requires 0 < k < |Base64Marker|
    ensures Base64Marker[k..] != Base64Marker[..|Base64Marker| - k]
  {
    var m := |Base64Marker|;
    assert Base64Marker[k..][m - k - 1] == ',';
    assert Base64Marker[..m - k][m - k - 1] == Base64Marker[m - k - 1];
    assert forall j :: 0 <= j < m - 1 ==> Base64Marker[j] != ',';
  }
}
