/**
 String helpers the two panels rely on: JavaScript's `String.prototype.trim`
 and the case-insensitive file-name suffix test of the drop zone.
 */
module Text {

  /** The code points `trim` strips: ECMAScript's WhiteSpace (TAB, VT, FF,
      ZWNBSP and every Unicode space separator) and LineTerminator (LF, CR,
      LINE SEPARATOR, PARAGRAPH SEPARATOR). */
  predicate IsTrimmable(c: char) {
    var n := c as int;
    || n == 0x09 || n == 0x0A || n == 0x0B || n == 0x0C || n == 0x0D
    || n == 0x20 || n == 0xA0 || n == 0x1680
    || (0x2000 <= n <= 0x200A)
    || n == 0x2028 || n == 0x2029 || n == 0x202F || n == 0x205F
    || n == 0x3000 || n == 0xFEFF
  }

  predicate AllTrimmable(s: string) {
    forall i :: 0 <= i < |s| ==> IsTrimmable(s[i])
  }

  /** The index of the first non-trimmable character at or after `i`, or
      `|s|` when there is none. */
  function SkipLeading(s: string, i: nat): (k: nat)
    requires i <= |s|
    ensures i <= k <= |s|
    ensures k < |s| ==> !IsTrimmable(s[k])
    decreases |s| - i
  {
    if i < |s| && IsTrimmable(s[i]) then SkipLeading(s, i + 1) else i
  }

  /** One past the last non-trimmable character of `s[lo..hi]`, or `lo` when
      there is none. */
  function SkipTrailing(s: string, lo: nat, hi: nat): (k: nat)
    requires lo <= hi <= |s|
    ensures lo <= k <= hi
    ensures lo < k ==> !IsTrimmable(s[k - 1])
    decreases hi
  {
    if lo < hi && IsTrimmable(s[hi - 1]) then SkipTrailing(s, lo, hi - 1) else hi
  }

  /** JavaScript's `s.trim()`. */
  function Trim(s: string): string {
    var lo := SkipLeading(s, 0);
    s[lo..SkipTrailing(s, lo, |s|)]
  }

  /** `s[lo..hi]` is what is left once the trimmable characters are cut from both
      ends: everything outside the window is trimmable, and a non-empty window
      starts and ends with a character that is not. */
  predicate TrimWindow(s: string, lo: int, hi: int) {
    && 0 <= lo <= hi <= |s|
    && (forall j :: 0 <= j < lo ==> IsTrimmable(s[j]))
    && (forall j :: hi <= j < |s| ==> IsTrimmable(s[j]))
    && (lo < hi ==> !IsTrimmable(s[lo]) && !IsTrimmable(s[hi - 1]))
  }

  /** Every character `SkipLeading` passes over is trimmable. */
  lemma {:induction false} SkippedLeadingAreTrimmable(s: string, i: nat, j: nat)
    requires i <= j < |s| && j < SkipLeading(s, i)
    ensures IsTrimmable(s[j])
    decreases |s| - i
  {
    if j > i {
      SkippedLeadingAreTrimmable(s, i + 1, j);
    }
  }

  /** Every character `SkipTrailing` passes over is trimmable. */
  lemma {:induction false} SkippedTrailingAreTrimmable(s: string, lo: nat, hi: nat, j: nat)
    requires lo <= hi <= |s| && SkipTrailing(s, lo, hi) <= j < hi
    ensures IsTrimmable(s[j])
    decreases hi
  {
    if j < hi - 1 {
      SkippedTrailingAreTrimmable(s, lo, hi - 1, j);
    }
  }

  /** `SkipLeading` stops at the first non-trimmable character and nowhere else. */
  lemma {:induction false} SkipLeadingStopsAt(s: string, i: nat, k: nat)
    requires i <= k <= |s|
    requires forall j :: i <= j < k ==> IsTrimmable(s[j])
    requires k < |s| ==> !IsTrimmable(s[k])
    ensures SkipLeading(s, i) == k
    decreases k - i
  {
    if i < k {
      SkipLeadingStopsAt(s, i + 1, k);
    }
  }

  /** `SkipTrailing` stops after the last non-trimmable character and nowhere else. */
  lemma {:induction false} SkipTrailingStopsAt(s: string, lo: nat, hi: nat, k: nat)
    requires lo <= k <= hi <= |s|
    requires forall j :: k <= j < hi ==> IsTrimmable(s[j])
    requires lo < k ==> !IsTrimmable(s[k - 1])
    ensures SkipTrailing(s, lo, hi) == k
    decreases hi - k
  {
    if k < hi {
      SkipTrailingStopsAt(s, lo, hi - 1, k);
    }
  }

  /** `Trim` cuts a trim window out of its argument. */
  lemma TrimIsWindow(s: string)
    ensures var lo := SkipLeading(s, 0);
      TrimWindow(s, lo, SkipTrailing(s, lo, |s|))
    ensures exists lo, hi :: TrimWindow(s, lo, hi) && Trim(s) == s[lo..hi]
  {
    var lo := SkipLeading(s, 0);
    var hi := SkipTrailing(s, lo, |s|);
    forall j | 0 <= j < lo
      ensures IsTrimmable(s[j])
    {
      SkippedLeadingAreTrimmable(s, 0, j);
    }
    forall j | hi <= j < |s|
      ensures IsTrimmable(s[j])
    {
      SkippedTrailingAreTrimmable(s, lo, |s|, j);
    }
    assert TrimWindow(s, lo, hi) && Trim(s) == s[lo..hi];
  }

  /** The window is unique up to its contents: every trim window of `s` holds
      exactly `Trim(s)`, so the window description is an independent definition
      of `trim`. */
  lemma TrimWindowUnique(s: string, lo: int, hi: int)
    requires TrimWindow(s, lo, hi)
    ensures s[lo..hi] == Trim(s)
  {
    if lo < hi {
      SkipLeadingStopsAt(s, 0, lo);
      SkipTrailingStopsAt(s, lo, |s|, hi);
    } else {
      assert forall j :: 0 <= j < |s| ==> IsTrimmable(s[j]) by {
        forall j | 0 <= j < |s|
          ensures IsTrimmable(s[j])
        {
          if j >= lo { assert hi <= j; }
        }
      }
      SkipLeadingStopsAt(s, 0, |s|);
    }
  }

  /** `trim` yields the empty string exactly for all-whitespace input. */
  lemma TrimEmptyIff(s: string)
    ensures Trim(s) == "" <==> AllTrimmable(s)
  {
    if AllTrimmable(s) {
      TrimWindowUnique(s, 0, 0);
    } else {
      TrimIsWindow(s);
    }
  }

  /** Trimming twice changes nothing more than trimming once. */
  lemma TrimIdempotent(s: string)
    ensures Trim(Trim(s)) == Trim(s)
  {
  }

  /** ASCII upper case letters mapped to lower case, everything else kept. */
  function LowerAscii(c: char): char {
    if 'A' <= c <= 'Z' then (c as int + 32) as char else c
  }

  /** True when `s` ends with `suffix`, comparing ASCII letters without regard to case. */
  predicate EndsWithIgnoreCase(s: string, suffix: string) {
    && |suffix| <= |s|
    && forall i :: 0 <= i < |suffix| ==>
         LowerAscii(s[|s| - |suffix| + i]) == LowerAscii(suffix[i])
  }
}
