/**
 * `cleanConvexError` of lib/utils.ts: pulls the message out of a Convex stack trace,
 * with the string primitives it relies on (`indexOf` from a position, `substring`, `trim`).
 */
module ErrorText {

  const Marker: string := "Uncaught Error: "
  const AtFrame: string := " at "

  /** `pat` occurs in `s` starting at index `k`. */
  predicate OccursAt(s: string, pat: string, k: int)
  {
    0 <= k && k + |pat| <= |s| && s[k..k + |pat|] == pat
  }

  /** `s.indexOf(pat, from)`: the first occurrence at or after `from`, or -1. */
  function IndexOf(s: string, pat: string, from: nat): (r: int)
    decreases |s| - from
    ensures r == -1 || (from <= r && OccursAt(s, pat, r))
    ensures r != -1 ==> forall k :: from <= k < r ==> !OccursAt(s, pat, k)
    ensures r == -1 ==> forall k :: from <= k ==> !OccursAt(s, pat, k)
  {
    if from + |pat| > |s| then -1
    else if s[from..from + |pat|] == pat then from
    else IndexOf(s, pat, from + 1)
  }

  /** The whitespace `trim` removes (the ASCII part of JavaScript's set). */
  predicate IsSpace(c: char)
  {
    c == ' ' || c == '\t' || c == '\n' || c == '\r' || c == '\U{B}' || c == '\U{C}'
  }

  /** Drops leading whitespace: the result is a suffix of `s` after a run of whitespace. */
  function TrimStart(s: string): (r: string)
    ensures |r| <= |s| && r == s[|s| - |r|..]
    ensures forall k :: 0 <= k < |s| - |r| ==> IsSpace(s[k])
    ensures r != [] ==> !IsSpace(r[0])
  {
    if s != [] && IsSpace(s[0]) then TrimStart(s[1..]) else s
  }

  /** Drops trailing whitespace: the result is a prefix of `s` before a run of whitespace. */
  function TrimEnd(s: string): (r: string)
    ensures |r| <= |s| && r == s[..|r|]
    ensures forall k :: |r| <= k < |s| ==> IsSpace(s[k])
    ensures r != [] ==> !IsSpace(r[|r| - 1])
  {
    if s != [] && IsSpace(s[|s| - 1]) then TrimEnd(s[..|s| - 1]) else s
  }

  /** `r` is `s[i..i + |r|]` and everything of `s` outside that slice is whitespace. */
  predicate TrimmedAt(s: string, r: string, i: int)
  {
    0 <= i && i + |r| <= |s| && s[i..i + |r|] == r
    && (forall k :: 0 <= k < i ==> IsSpace(s[k]))
    && (forall k :: i + |r| <= k < |s| ==> IsSpace(s[k]))
  }

  /** `s.trim()`: `s` with its leading and trailing whitespace removed, and nothing else. */
  function Trim(s: string): (r: string)
    ensures |r| <= |s|
    ensures r != [] ==> !IsSpace(r[0]) && !IsSpace(r[|r| - 1])
    ensures exists i :: TrimmedAt(s, r, i)
  {
    var t := TrimStart(s);
    var r := TrimEnd(t);
    var i := |s| - |t|;
    assert s[i..i + |r|] == r by {
      assert t[..|r|] == r;
    }
    assert forall k :: i + |r| <= k < |s| ==> IsSpace(s[k]) by {
      forall k | i + |r| <= k < |s| ensures IsSpace(s[k]) {
        assert s[k] == t[k - i];
      }
    }
    assert TrimmedAt(s, r, i);
    r
  }

  /** The end of the cut: the earlier of the next newline and the next " at ", or the end of the text. */
  function CutEnd(msg: string, start: nat): (e: int)
    requires start <= |msg|
    ensures start <= e <= |msg|
    ensures e == |msg| || msg[e] == '\n' || OccursAt(msg, AtFrame, e)
    ensures forall k :: start <= k < e ==> msg[k] != '\n' && !OccursAt(msg, AtFrame, k)
  {
    var newlineIndex := IndexOf(msg, "\n", start);
    var atIndex := IndexOf(msg, AtFrame, start);
    NewlineOccurrence(msg, start, newlineIndex);
    if newlineIndex != -1 && atIndex != -1 then
      if newlineIndex <= atIndex then newlineIndex else atIndex
    else if newlineIndex != -1 then
      newlineIndex
    else if atIndex != -1 then
      atIndex
    else
      |msg|
  }

  /** A one-character pattern occurs exactly where that character is. */
  lemma NewlineOccurrence(msg: string, start: nat, r: int)
    requires r == IndexOf(msg, "\n", start)
    ensures r != -1 ==> r < |msg| && msg[r] == '\n'
    ensures forall k :: start <= k < |msg| && (r == -1 || k < r) ==> msg[k] != '\n'
  {
    forall k | start <= k < |msg| && (r == -1 || k < r) ensures msg[k] != '\n' {
      assert !OccursAt(msg, "\n", k);
      assert msg[k..k + 1] == [msg[k]];
    }
    if r != -1 {
      assert msg[r..r + 1] == "\n";
    }
  }

  /** `s.indexOf(pat, from)` is the first occurrence at or after `from`. */
  lemma IndexOfFirst(s: string, pat: string, from: nat, i: int)
    requires from <= i && OccursAt(s, pat, i)
    requires forall k :: from <= k < i ==> !OccursAt(s, pat, k)
    ensures IndexOf(s, pat, from) == i
  {
  }

  /** The cut end is determined by its characterization. */
  lemma CutEndUnique(msg: string, start: nat, e: int)
    requires start <= e <= |msg|
    requires e == |msg| || msg[e] == '\n' || OccursAt(msg, AtFrame, e)
    requires forall k :: start <= k < e ==> msg[k] != '\n' && !OccursAt(msg, AtFrame, k)
    ensures CutEnd(msg, start) == e
  {
  }

  /** `cleanConvexError` */
  function CleanConvexError(errorMessage: string): (r: string)
    ensures |r| <= |errorMessage|
    ensures (forall k :: !OccursAt(errorMessage, Marker, k)) ==> r == errorMessage
  {
    var uncaughtIndex := IndexOf(errorMessage, Marker, 0);
    if uncaughtIndex == -1 then
      errorMessage
    else
      var startOfError := uncaughtIndex + |Marker|;
      Trim(errorMessage[startOfError..CutEnd(errorMessage, startOfError)])
  }

  /**
   * With the marker, the result is the trimmed text that runs from just after the
   * FIRST marker occurrence `i` to `e`, the first newline or " at " from there on (or
   * the end of the text when there is neither).
   */
  lemma CleanWithMarker(msg: string, i: nat, e: nat)
    requires OccursAt(msg, Marker, i) && forall k :: 0 <= k < i ==> !OccursAt(msg, Marker, k)
    requires i + |Marker| <= e <= |msg|
    requires e == |msg| || msg[e] == '\n' || OccursAt(msg, AtFrame, e)
    requires forall k :: i + |Marker| <= k < e ==> msg[k] != '\n' && !OccursAt(msg, AtFrame, k)
    ensures CleanConvexError(msg) == Trim(msg[i + |Marker|..e])
  {
    IndexOfFirst(msg, Marker, 0, i);
    CutEndUnique(msg, i + |Marker|, e);
  }

  /** An occurrence inside a slice is an occurrence in the whole text. */
  lemma OccursInSlice(s: string, lo: nat, hi: nat, pat: string, k: int)
    requires lo <= hi <= |s| && OccursAt(s[lo..hi], pat, k)
    ensures OccursAt(s, pat, lo + k) && lo + k + |pat| <= hi
  {
    forall j | 0 <= j < |pat| ensures s[lo + k + j] == pat[j] {
      assert s[lo..hi][k..k + |pat|][j] == pat[j];
    }
    assert s[lo + k..lo + k + |pat|] == pat;
  }

  /** The cut holds no newline and no " at ". */
  lemma CutIsClean(msg: string, start: nat)
    requires start <= |msg|
    ensures var cut := msg[start..CutEnd(msg, start)];
            '\n' !in cut && forall k :: !OccursAt(cut, AtFrame, k)
  {
    var e := CutEnd(msg, start);
    var cut := msg[start..e];
    forall j | 0 <= j < |cut| ensures cut[j] != '\n' {
      assert cut[j] == msg[start + j];
    }
    forall k ensures !OccursAt(cut, AtFrame, k) {
      if OccursAt(cut, AtFrame, k) {
        OccursInSlice(msg, start, e, AtFrame, k);
      }
    }
  }

  /** A slice of a text without newline and " at " has none either. */
  lemma SliceKeepsClean(s: string, lo: nat, hi: nat)
    requires lo <= hi <= |s|
    requires '\n' !in s && forall k :: !OccursAt(s, AtFrame, k)
    ensures '\n' !in s[lo..hi] && forall k :: !OccursAt(s[lo..hi], AtFrame, k)
  {
    forall k ensures !OccursAt(s[lo..hi], AtFrame, k) {
      if OccursAt(s[lo..hi], AtFrame, k) {
        OccursInSlice(s, lo, hi, AtFrame, k);
      }
    }
  }

  /** Trimming cannot create a newline or a " at ". */
  lemma TrimKeepsClean(s: string)
    requires '\n' !in s && forall k :: !OccursAt(s, AtFrame, k)
    ensures var r := Trim(s);
            '\n' !in r && forall k :: !OccursAt(r, AtFrame, k)
  {
    var r := Trim(s);
    var i :| TrimmedAt(s, r, i);
    SliceKeepsClean(s, i, i + |r|);
  }

  /**
   * With the marker, the result holds no newline and no " at ", has no leading or
   * trailing whitespace, and is shorter than the input by at least the marker's length.
   */
  lemma CleanWithMarkerShape(msg: string)
    requires exists k :: OccursAt(msg, Marker, k)
    ensures var r := CleanConvexError(msg);
            '\n' !in r
            && (forall k :: !OccursAt(r, AtFrame, k))
            && (r != [] ==> !IsSpace(r[0]) && !IsSpace(r[|r| - 1]))
            && |r| <= |msg| - |Marker|
  {
    var u := IndexOf(msg, Marker, 0);
    assert u != -1;
    var start := u + |Marker|;
    CutIsClean(msg, start);
    TrimKeepsClean(msg[start..CutEnd(msg, start)]);
  }
}
