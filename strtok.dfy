/** C's `strtok`, modelled as a cursor over an immutable buffer.

    `strtok(buf, delims)` and `strtok(NULL, delims)` keep a hidden pointer into
    the buffer they cut up.  Here that pointer is an explicit index: one call
    `Next(s, i, delims)` skips the delimiters at and after `i`, takes the
    maximal run of non-delimiters as the token, and consumes the single
    delimiter that ends it (strtok overwrites it with a NUL and resumes after
    it).  The buffer itself is never changed, so callers may switch delimiter
    sets between calls exactly as the C code does. */
module Strtok {

  /** What one strtok call returns: NULL, or a token starting at `start`.
      `next` is the saved position the following `strtok(NULL, ...)` resumes at. */
  datatype Step =
    | Null(next: nat)
    | Token(start: nat, text: string, next: nat)

  /** First position at or after `i` that is a delimiter (or the end). */
  function RunEnd(s: string, i: nat, delims: string): (j: nat)
    requires i <= |s|
    ensures i <= j <= |s|
    ensures forall k :: i <= k < j ==> s[k] !in delims
    ensures j < |s| ==> s[j] in delims
    decreases |s| - i
  {
    if i < |s| && s[i] !in delims then RunEnd(s, i + 1, delims) else i
  }

  /** One strtok call resuming at position `i` of buffer `s`: skip
      delimiters, then cut out the run that follows.  `NextMeaning` states
      what the call finds. */
  function Next(s: string, i: nat, delims: string): (r: Step)
    requires i <= |s|
    ensures i <= r.next <= |s|
    ensures r.Token? ==> i <= r.start && r.start + |r.text| <= |s|
    decreases |s| - i
  {
    if i == |s| then Null(|s|)
    else if s[i] in delims then Next(s, i + 1, delims)
    else
      var b := RunEnd(s, i, delims);
      Token(i, s[i..b], if b < |s| then b + 1 else b)
  }

  /** The whole meaning of a strtok call: NULL exactly when nothing but
      delimiters is left; otherwise a non-empty delimiter-free token that is
      preceded only by delimiters and ended by the end of the buffer or by one
      delimiter, which is consumed. */
  lemma {:induction false} NextMeaning(s: string, i: nat, delims: string)
    requires i <= |s|
    ensures var r := Next(s, i, delims);
      && (r.Null? <==> (forall k :: i <= k < |s| ==> s[k] in delims))
      && (r.Null? ==> r.next == |s|)
      && (r.Token? ==>
        && s[r.start..r.start + |r.text|] == r.text
        && |r.text| > 0
        && (forall k :: i <= k < r.start ==> s[k] in delims)
        && (forall k :: 0 <= k < |r.text| ==> r.text[k] !in delims)
        && (r.start + |r.text| == |s| ==> r.next == |s|)
        && (r.start + |r.text| < |s| ==> s[r.start + |r.text|] in delims && r.next == r.start + |r.text| + 1))
    decreases |s| - i
  {
    if i < |s| && s[i] in delims {
      NextMeaning(s, i + 1, delims);
    } else if i < |s| {
      var b := RunEnd(s, i, delims);
      assert forall k :: 0 <= k < b - i ==> s[i..b][k] == s[i + k];
    }
  }

  /** A run of non-delimiters from `i` to `j`, ended by the end of the
      buffer or by a delimiter, ends at `j`. */
  lemma {:induction false} RunEndIs(s: string, i: nat, j: nat, delims: string)
    requires i <= j <= |s|
    requires forall k :: i <= k < j ==> s[k] !in delims
    requires j < |s| ==> s[j] in delims
    ensures RunEnd(s, i, delims) == j
    decreases j - i
  {
    if i < j {
      RunEndIs(s, i + 1, j, delims);
    }
  }

  /** The converse of `NextMeaning`: delimiters from `i` to `a`, then a
      non-empty run from `a` to `j` ended by the end of the buffer or by a
      delimiter, is exactly the token strtok returns. */
  lemma {:induction false} NextIs(s: string, i: nat, a: nat, j: nat, delims: string)
    requires i <= a < j <= |s|
    requires forall k :: i <= k < a ==> s[k] in delims
    requires forall k :: a <= k < j ==> s[k] !in delims
    requires j < |s| ==> s[j] in delims
    ensures Next(s, i, delims) == Token(a, s[a..j], if j < |s| then j + 1 else j)
    decreases a - i
  {
    if i < a {
      NextIs(s, i + 1, a, j, delims);
    } else {
      RunEndIs(s, a, j, delims);
    }
  }

  /** The token text, or the empty string for NULL (used only where a lemma
      needs to name "the token"). */
  function TextOf(r: Step): string
  {
    if r.Token? then r.text else ""
  }

  /** Finding the end of a run commutes with dropping a prefix of the buffer. */
  lemma {:induction false} RunEndShift(s: string, d: nat, i: nat, delims: string)
    requires d <= i <= |s|
    ensures RunEnd(s[d..], i - d, delims) == RunEnd(s, i, delims) - d
    decreases |s| - i
  {
    if i < |s| && s[i] !in delims {
      assert s[d..][i - d] == s[i];
      RunEndShift(s, d, i + 1, delims);
    } else if i < |s| {
      assert s[d..][i - d] == s[i];
    }
  }

  /** strtok on the suffix `s[d..]` finds the same token as strtok on `s`
      resumed at `d`, with every position shifted by `d`.  This is why the C
      parser may re-copy its line without the leading ':' and cut the same
      words out of it. */
  lemma {:induction false} NextShift(s: string, d: nat, i: nat, delims: string)
    requires d <= i <= |s|
    ensures Next(s[d..], i - d, delims).Null? == Next(s, i, delims).Null?
    ensures TextOf(Next(s[d..], i - d, delims)) == TextOf(Next(s, i, delims))
    ensures Next(s[d..], i - d, delims).next == Next(s, i, delims).next - d
    decreases |s| - i
  {
    var t := s[d..];
    if i < |s| {
      assert t[i - d] == s[i];
      if s[i] in delims {
        NextShift(s, d, i + 1, delims);
      } else {
        RunEndShift(s, d, i, delims);
        var b := RunEnd(s, i, delims);
        assert t[i - d..b - d] == s[i..b];
      }
    }
  }
}
