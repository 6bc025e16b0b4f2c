/**
 * JavaScript's `String.prototype.split` with a non-empty string separator (matches found left
 * to right, never overlapping), `Array.prototype.join` and `Array.prototype.pop`. Strings
 * are sequences of Unicode scalar values; for text inside the Basic Multilingual Plane these
 * are exactly JavaScript's UTF-16 code units.
 */
module JsString {
  import opened Common

  /** `sep` occurs in `s` starting at index `i`. */
  predicate OccursAt(s: string, sep: string, i: nat) {
    i + |sep| <= |s| && s[i..i + |sep|] == sep
  }

  /** `sep` occurs nowhere in `s`. */
  ghost predicate Free(s: string, sep: string) {
    forall j: nat :: !OccursAt(s, sep, j)
  }

  /** The index of the first occurrence of `sep` in `s` at or after `from`, as `indexOf` finds it. */
  function IndexOfFrom(s: string, sep: string, from: nat): (r: Option<nat>)
    decreases |s| - from
    ensures r.Some? ==> from <= r.value && OccursAt(s, sep, r.value)
    ensures r.Some? ==> forall j: nat :: from <= j < r.value ==> !OccursAt(s, sep, j)
    ensures r.None? ==> forall j: nat :: from <= j ==> !OccursAt(s, sep, j)
  {
    if from + |sep| > |s| then None
    else if s[from..from + |sep|] == sep then Some(from)
    else IndexOfFrom(s, sep, from + 1)
  }

  /** `s.split(sep)` for a non-empty separator. */
  function Split(s: string, sep: string): (pieces: seq<string>)
    requires |sep| > 0
    ensures |pieces| > 0
    decreases |s|
  {
    match IndexOfFrom(s, sep, 0)
    case None => [s]
    case Some(i) => [s[..i]] + Split(s[i + |sep|..], sep)
  }

  /** `pieces.join(sep)`. */
  function Join(pieces: seq<string>, sep: string): string {
    if |pieces| == 0 then ""
    else if |pieces| == 1 then pieces[0]
    else pieces[0] + sep + Join(pieces[1..], sep)
  }

  /** `pieces.pop()` read as a value: the last element, or `None` (`undefined`) for an empty array. */
  function Pop(pieces: seq<string>): (r: Option<string>)
    ensures r.Some? <==> |pieces| > 0
    ensures r.Some? ==> r.value == pieces[|pieces| - 1]
  {
    if |pieces| == 0 then None else Some(pieces[|pieces| - 1])
  }

  /** Splitting never yields an empty array, and no piece contains the separator. */
  lemma {:induction false} SplitPieces(s: string, sep: string)
    requires |sep| > 0
    ensures forall k :: 0 <= k < |Split(s, sep)| ==> Free(Split(s, sep)[k], sep)
    decreases |s|
  {
    match IndexOfFrom(s, sep, 0)
    case None =>
    case Some(i) =>
      var rest := s[i + |sep|..];
      SplitPieces(rest, sep);
      assert Split(s, sep) == [s[..i]] + Split(rest, sep);
      forall j: nat ensures !OccursAt(s[..i], sep, j) {
        if OccursAt(s[..i], sep, j) {
          assert s[..i][j..j + |sep|] == s[j..j + |sep|];
          assert OccursAt(s, sep, j);
        }
      }
  }

  /** Joining the pieces with the separator gives back the input: split loses nothing. */
  lemma {:induction false} SplitJoin(s: string, sep: string)
    requires |sep| > 0
    ensures Join(Split(s, sep), sep) == s
    decreases |s|
  {
    match IndexOfFrom(s, sep, 0)
    case None =>
    case Some(i) =>
      var rest := s[i + |sep|..];
      SplitJoin(rest, sep);
      SplitPieces(rest, sep);
      assert s == s[..i] + sep + rest;
  }

  /** The last piece of a split. */
  function LastPiece(s: string, sep: string): string
    requires |sep| > 0
  {
    Split(s, sep)[|Split(s, sep)| - 1]
  }

  /** With no separator in `s`, its only piece is `s` itself. */
  lemma SplitFree(s: string, sep: string)
    requires |sep| > 0
    requires IndexOfFrom(s, sep, 0).None?
    ensures Split(s, sep) == [s] && Free(s, sep)
  {
  }

  /** A split at the first separator, index `i`: the pieces are `s[..i]` and the pieces of the rest. */
  lemma SplitFirst(s: string, sep: string, i: nat)
    requires |sep| > 0
    requires IndexOfFrom(s, sep, 0) == Some(i)
    ensures Split(s, sep) == [s[..i]] + Split(s[i + |sep|..], sep)
  {
  }

  /** ... so the last piece of `s` is the last piece of the rest after the first separator. */
  lemma LastPieceOfRest(s: string, sep: string, i: nat)
    requires |sep| > 0
    requires IndexOfFrom(s, sep, 0) == Some(i)
    ensures LastPiece(s, sep) == LastPiece(s[i + |sep|..], sep)
  {
    SplitFirst(s, sep, i);
    var tail := Split(s[i + |sep|..], sep);
    var all := Split(s, sep);
    assert all[|all| - 1] == tail[|tail| - 1];
  }

  /** A separator in the tail of `s` is a separator in `s`, shifted by the cut. */
  lemma OccursInSuffix(s: string, sep: string, cut: nat, k: nat)
    requires cut <= |s|
    requires OccursAt(s[cut..], sep, k)
    ensures OccursAt(s, sep, cut + k)
  {
    assert s[cut..][k..k + |sep|] == s[cut + k..cut + k + |sep|];
  }

  /**
   * The last piece is the text after the LAST separator: it is a suffix of the input that
   * holds no separator; when the input has a separator, one ends right where that suffix
   * starts, and otherwise the suffix is the whole input.
   */
  lemma {:induction false} LastPieceAfterLastSeparator(s: string, sep: string)
    requires |sep| > 0
    ensures |LastPiece(s, sep)| <= |s|
    ensures s[|s| - |LastPiece(s, sep)|..] == LastPiece(s, sep)
    ensures Free(s, sep) ==> LastPiece(s, sep) == s
    ensures !Free(s, sep) ==>
      |LastPiece(s, sep)| + |sep| <= |s| &&
      OccursAt(s, sep, |s| - |LastPiece(s, sep)| - |sep|)
    decreases |s|
  {
    match IndexOfFrom(s, sep, 0)
    case None =>
      SplitFree(s, sep);
    case Some(i) =>
      LastPieceOfRest(s, sep, i);
      var rest := s[i + |sep|..];
      LastPieceAfterLastSeparator(rest, sep);
      var p := LastPiece(rest, sep);
      assert s[|s| - |p|..] == rest[|rest| - |p|..];
      if Free(rest, sep) {
        assert p == rest;
      } else {
        OccursInSuffix(s, sep, i + |sep|, |rest| - |p| - |sep|);
      }
  }

  /** The last piece holds no separator. */
  lemma LastPieceFree(s: string, sep: string)
    requires |sep| > 0
    ensures Free(LastPiece(s, sep), sep)
  {
    SplitPieces(s, sep);
  }

  /** `indexOf` from `from` finds `k` when the separator occurs at `k` and nowhere in between. */
  lemma {:induction false} IndexOfFromFinds(s: string, sep: string, from: nat, k: nat)
    requires from <= k && OccursAt(s, sep, k)
    requires forall j: nat :: from <= j < k ==> !OccursAt(s, sep, j)
    ensures IndexOfFrom(s, sep, from) == Some(k)
    decreases k - from
  {
    if from < k {
      IndexOfFromFinds(s, sep, from + 1, k);
    }
  }

  /** A one-character separator occurs exactly where its character does. */
  lemma OccursAtSingle(s: string, sep: string, j: nat)
    requires |sep| == 1
    ensures OccursAt(s, sep, j) <==> j < |s| && s[j] == sep[0]
  {
    if j < |s| && s[j] == sep[0] {
      assert s[j..j + 1] == [s[j]];
    }
  }

  /**
   * With a one-character separator that no piece contains, splitting the joined pieces gives
   * them back: `ps.join(sep).split(sep)` is `ps`.
   */
  lemma {:induction false} JoinSplit(ps: seq<string>, sep: string)
    requires |sep| == 1 && |ps| > 0
    requires forall k :: 0 <= k < |ps| ==> sep[0] !in ps[k]
    ensures Split(Join(ps, sep), sep) == ps
  {
    var s := Join(ps, sep);
    if |ps| == 1 {
      forall j: nat ensures !OccursAt(s, sep, j) {
        OccursAtSingle(s, sep, j);
        if j < |s| {
          assert s[j] in ps[0];
        }
      }
      assert IndexOfFrom(s, sep, 0).None?;
    } else {
      var p, rest := ps[0], Join(ps[1..], sep);
      assert s == p + sep + rest;
      OccursAtSingle(s, sep, |p|);
      forall j: nat | j < |p| ensures !OccursAt(s, sep, j) {
        OccursAtSingle(s, sep, j);
        assert s[j] == p[j];
      }
      IndexOfFromFinds(s, sep, 0, |p|);
      assert s[..|p|] == p && s[|p| + |sep|..] == rest;
      JoinSplit(ps[1..], sep);
    }
  }
}
