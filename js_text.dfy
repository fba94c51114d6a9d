/**
 * The JavaScript string operations the scripts rely on: white space as `\s` and
 * `String.prototype.trim` see it, `includes`, `split("\n")`, and the global replace and
 * match of a literal pattern (`replace(/placeholder/g, …)`, `match(/…/g).length`).
 * Strings are sequences of code points; every pattern used here is ASCII.
 */
module JsText {

  /** The code points JavaScript counts as white space: the WhiteSpace and LineTerminator
      productions of ECMAScript, which are both what `\s` matches and what `trim` removes. */
  predicate IsWhiteSpace(c: char)
  {
    var n := c as int;
    (0x09 <= n <= 0x0D) || n == 0x20 || n == 0xA0 || n == 0x1680 || (0x2000 <= n <= 0x200A)
    || n == 0x2028 || n == 0x2029 || n == 0x202F || n == 0x205F || n == 0x3000 || n == 0xFEFF
  }

  /** `[0-9a-f]` under the `i` flag. */
  predicate IsHexDigit(c: char)
  {
    ('0' <= c <= '9') || ('a' <= c <= 'f') || ('A' <= c <= 'F')
  }

  function ToUpperAscii(c: char): char
  {
    if 'a' <= c <= 'z' then (c as int - 32) as char else c
  }

  /** Whether input character `c` matches the ASCII pattern character `p` under the `i` flag
      without the `u` flag. Case folding there never maps a non-ASCII character onto an ASCII
      one, so for an ASCII pattern only the ASCII letters fold. */
  predicate SameIgnoringCase(c: char, p: char)
  {
    ToUpperAscii(c) == ToUpperAscii(p)
  }

  /** `p` occurs in `s` starting at index `i`. */
  predicate OccursAt(s: string, i: nat, p: string)
  {
    i + |p| <= |s| && s[i..i + |p|] == p
  }

  /** `p` occurs at `i` when letters are compared as the `i` flag compares them. */
  predicate OccursIgnoringCaseAt(s: string, i: nat, p: string)
  {
    i + |p| <= |s| && SameIgnoringCaseSeq(s[i..i + |p|], p)
  }

  /** `a` and `b` are equal up to ASCII case, character by character. */
  predicate SameIgnoringCaseSeq(a: string, b: string)
  {
    |a| == |b| && forall k :: 0 <= k < |a| ==> SameIgnoringCase(a[k], b[k])
  }

  /** An occurrence starts with the pattern's first character. */
  lemma OccursAtHead(s: string, i: nat, p: string)
    requires |p| > 0
    ensures OccursAt(s, i, p) ==> s[i] == p[0]
  {
    if i + |p| <= |s| {
      assert s[i..i + |p|][0] == s[i];
    }
  }

  /** An occurrence holds the pattern's characters, one by one. */
  lemma OccursAtChars(s: string, i: nat, p: string)
    ensures OccursAt(s, i, p) ==> forall k :: 0 <= k < |p| ==> s[i + k] == p[k]
  {
    if OccursAt(s, i, p) {
      forall k | 0 <= k < |p| ensures s[i + k] == p[k] {
        assert s[i..i + |p|][k] == s[i + k];
      }
    }
  }

  /** `s.includes(p)`. */
  predicate Includes(s: string, p: string)
  {
    exists i: nat :: i <= |s| - |p| && OccursAt(s, i, p)
  }

  /** The end of the maximal run of white space that starts at `i` (what a greedy `\s*` consumes). */
  function SkipWhiteSpace(s: string, i: nat): (j: nat)
    requires i <= |s|
    ensures i <= j <= |s|
    ensures forall k :: i <= k < j ==> IsWhiteSpace(s[k])
    ensures j < |s| ==> !IsWhiteSpace(s[j])
    decreases |s| - i
  {
    if i < |s| && IsWhiteSpace(s[i]) then SkipWhiteSpace(s, i + 1) else i
  }

  /** `w` is a run of white space only. */
  predicate AllWhiteSpace(w: string)
  {
    forall k :: 0 <= k < |w| ==> IsWhiteSpace(w[k])
  }

  /** Skipping white space from `i` ends at `j` when `s[i..j]` is white space and `s[j]` is not. */
  lemma {:induction false} SkipWhiteSpaceTo(s: string, i: nat, j: nat)
    requires i <= j < |s| && AllWhiteSpace(s[i..j]) && !IsWhiteSpace(s[j])
    ensures SkipWhiteSpace(s, i) == j
    decreases j - i
  {
    if i < j {
      assert s[i..j][0] == s[i];
      assert s[i + 1..j] == s[i..j][1..];
      SkipWhiteSpaceTo(s, i + 1, j);
    }
  }

  /** The first index at or after `from` that holds `c`, or `|s|` when there is none. */
  function FindChar(s: string, c: char, from: nat): (r: nat)
    requires from <= |s|
    ensures from <= r <= |s|
    ensures r < |s| ==> s[r] == c
    ensures forall k :: from <= k < r ==> s[k] != c
    decreases |s| - from
  {
    if from == |s| || s[from] == c then from else FindChar(s, c, from + 1)
  }

  /** The start of the white space that ends `s[..j]`. */
  function TrailingSpaceStart(s: string, j: nat): (e: nat)
    requires j <= |s|
    ensures e <= j
    ensures forall k :: e <= k < j ==> IsWhiteSpace(s[k])
    ensures e > 0 ==> !IsWhiteSpace(s[e - 1])
    decreases j
  {
    if j > 0 && IsWhiteSpace(s[j - 1]) then TrailingSpaceStart(s, j - 1) else j
  }

  /** `s.trim()`: `s` without its leading and trailing white space. */
  function Trim(s: string): (r: string)
    ensures |r| <= |s|
    ensures r != [] ==> !IsWhiteSpace(r[0]) && !IsWhiteSpace(r[|r| - 1])
  {
    var b := SkipWhiteSpace(s, 0);
    var e := TrailingSpaceStart(s, |s|);
    if b < e then
      assert s[b..e][0] == s[b] && s[b..e][e - b - 1] == s[e - 1];
      s[b..e]
    else []
  }

  /** `r` sits at index `b` of `s` with only white space before and after it. */
  predicate SurroundedBySpace(s: string, b: nat, r: string)
  {
    b + |r| <= |s| && s[b..b + |r|] == r
    && (forall k :: 0 <= k < b ==> IsWhiteSpace(s[k]))
    && (forall k :: b + |r| <= k < |s| ==> IsWhiteSpace(s[k]))
  }

  /** Trimming removes only white space, from both ends: what is left is the text between
      the leading and the trailing run. */
  lemma TrimWindow(s: string)
    ensures SurroundedBySpace(s, SkipWhiteSpace(s, 0), Trim(s))
  {
    var b := SkipWhiteSpace(s, 0);
    var e := TrailingSpaceStart(s, |s|);
    if b >= e {
      assert forall k :: 0 <= k < |s| ==> IsWhiteSpace(s[k]);
      assert b == |s|;
    }
  }

  /** The trim of `s` is a window of `s`, at index `b`. */
  lemma TrimAt(s: string) returns (b: nat)
    ensures b + |Trim(s)| <= |s| && s[b..b + |Trim(s)|] == Trim(s)
  {
    b := SkipWhiteSpace(s, 0);
  }

  /** The trim of a window of `line` is itself a window of `line`. */
  lemma TrimmedWindow(line: string, lo: nat, hi: nat, v: string) returns (q: nat)
    requires lo <= hi <= |line| && v == Trim(line[lo..hi])
    ensures lo <= q && q + |v| <= hi && line[q..q + |v|] == v
  {
    var b := TrimWindowAt(line[lo..hi], v);
    q := lo + b;
    WindowInWindow(line, lo, hi, b, v);
  }

  /** The trim `v` of `s` sits in `s` at index `b`. */
  lemma TrimWindowAt(s: string, v: string) returns (b: nat)
    requires v == Trim(s)
    ensures b + |v| <= |s| && s[b..b + |v|] == v
  {
    b := TrimAt(s);
  }

  /** A string whose ends are not white space is its own trim. */
  lemma TrimNoOp(s: string)
    requires s != [] ==> !IsWhiteSpace(s[0]) && !IsWhiteSpace(s[|s| - 1])
    ensures Trim(s) == s
  {
    TrimWindow(s);
    if s != [] {
      assert SkipWhiteSpace(s, 0) == 0;
      assert |Trim(s)| == |s|;
    }
  }

  lemma SeqAppendAssoc<T>(a: seq<T>, b: seq<T>, c: seq<T>)
    ensures a + (b + c) == a + b + c
  {
  }

  /** A window of a window is a window of the whole. */
  lemma SliceOfSlice<T>(s: seq<T>, lo: nat, hi: nat, a: nat, b: nat)
    requires lo <= hi <= |s| && a <= b <= hi - lo
    ensures s[lo..hi][a..b] == s[lo + a..lo + b]
  {
    forall k | 0 <= k < b - a ensures s[lo..hi][a..b][k] == s[lo + a + k] { }
  }

  /** A window of a suffix is a window of the whole. */
  lemma SliceOfSuffix<T>(s: seq<T>, a: nat, lo: nat, hi: nat)
    requires a <= |s| && lo <= hi <= |s| - a
    ensures s[a..][lo..hi] == s[a + lo..a + hi]
  {
    forall k | 0 <= k < hi - lo ensures s[a..][lo..hi][k] == s[a + lo + k] { }
  }

  /** A text found in a window of `s` is found in `s`, shifted by the window's start. */
  lemma WindowInWindow<T>(s: seq<T>, lo: nat, hi: nat, b: nat, v: seq<T>)
    requires lo <= hi <= |s| && b + |v| <= hi - lo && s[lo..hi][b..b + |v|] == v
    ensures s[lo + b..lo + b + |v|] == v
  {
    SliceOfSlice(s, lo, hi, b, b + |v|);
  }

  /** Dropping from a suffix drops from the whole. */
  /** Splitting off the first element of a non-empty prefix. */
  lemma ConsPrefix<T>(s: seq<T>, q: nat, t: seq<T>)
    requires 0 < q <= |s|
    ensures [s[0]] + (s[1..][..q - 1] + t) == s[..q] + t
  {
    assert s[..q] == [s[0]] + s[1..][..q - 1];
  }

  lemma SuffixOfSuffix<T>(s: seq<T>, a: nat, b: nat)
    requires a + b <= |s|
    ensures s[a..][b..] == s[a + b..]
  {
  }

  /** Taking from a suffix is a window of the whole. */
  lemma PrefixOfSuffix<T>(s: seq<T>, a: nat, b: nat)
    requires a + b <= |s|
    ensures s[a..][..b] == s[a..a + b]
  {
  }

  /** `lines.join("\n")`. */
  function Join(lines: seq<string>): string
  {
    if |lines| == 0 then "" else if |lines| == 1 then lines[0] else lines[0] + "\n" + Join(lines[1..])
  }

  /** `s.split("\n")`: its pieces hold no line feed and join back to `s`. */
  function Split(s: string): (lines: seq<string>)
    ensures |lines| >= 1
    ensures forall k :: 0 <= k < |lines| ==> '\n' !in lines[k]
    ensures Join(lines) == s
    decreases |s|
  {
    var i := FindChar(s, '\n', 0);
    if i == |s| then
      assert '\n' !in s by {
        forall k | 0 <= k < |s| ensures s[k] != '\n' { }
      }
      [s]
    else
      var rest := Split(s[i + 1..]);
      assert '\n' !in s[..i] by {
        forall k | 0 <= k < i ensures s[..i][k] != '\n' { }
      }
      assert s == s[..i] + "\n" + s[i + 1..];
      [s[..i]] + rest
  }

  /** Splitting undoes joining, for lines without a line feed. */
  lemma {:induction false} SplitJoin(lines: seq<string>)
    requires |lines| >= 1
    requires forall k :: 0 <= k < |lines| ==> '\n' !in lines[k]
    ensures Split(Join(lines)) == lines
    decreases |lines|
  {
    var s := Join(lines);
    var l0 := lines[0];
    if |lines| == 1 {
      assert s == l0;
    } else {
      var rest := Join(lines[1..]);
      assert s == l0 + "\n" + rest;
      assert s[|l0|] == '\n';
      assert forall k :: 0 <= k < |l0| ==> s[k] == l0[k];
      assert s[..|l0|] == l0;
      assert s[|l0| + 1..] == rest;
      SplitJoin(lines[1..]);
    }
  }

  /** Where line `k` begins inside `Join(lines)`. */
  function LineStart(lines: seq<string>, k: nat): nat
    requires k <= |lines|
  {
    if k == 0 then 0 else LineStart(lines, k - 1) + |lines[k - 1]| + 1
  }

  /** Every line of a join sits, unchanged, at its `LineStart`. */
  lemma {:induction false} LineInJoin(lines: seq<string>, k: nat)
    requires k < |lines|
    ensures LineStart(lines, k) + |lines[k]| <= |Join(lines)|
    ensures Join(lines)[LineStart(lines, k)..LineStart(lines, k) + |lines[k]|] == lines[k]
    decreases k
  {
    if k == 0 {
      if |lines| > 1 {
        assert Join(lines) == lines[0] + "\n" + Join(lines[1..]);
      }
    } else {
      var tail := lines[1..];
      LineInJoin(tail, k - 1);
      LineStartShift(lines, k);
      assert Join(lines) == lines[0] + "\n" + Join(tail);
      var a := LineStart(tail, k - 1);
      assert Join(lines)[|lines[0]| + 1..] == Join(tail);
      assert Join(lines)[|lines[0]| + 1 + a..|lines[0]| + 1 + a + |lines[k]|]
          == Join(tail)[a..a + |tail[k - 1]|];
    }
  }

  lemma {:induction false} LineStartShift(lines: seq<string>, k: nat)
    requires 0 < k <= |lines|
    ensures LineStart(lines, k) == |lines[0]| + 1 + LineStart(lines[1..], k - 1)
    decreases k
  {
    if k > 1 {
      LineStartShift(lines, k - 1);
    }
  }

  /** `s.replace(/pat/g, rep)` for a pattern without regular-expression operators and a
      replacement without `$`: every leftmost, non-overlapping occurrence is replaced. */
  function ReplaceAll(s: string, pat: string, rep: string): string
    requires |pat| > 0
    decreases |s|
  {
    if |s| < |pat| then s
    else if s[..|pat|] == pat then rep + ReplaceAll(s[|pat|..], pat, rep)
    else [s[0]] + ReplaceAll(s[1..], pat, rep)
  }

  /** `(s.match(/pat/g) || []).length`: the number of leftmost, non-overlapping occurrences. */
  function CountMatches(s: string, pat: string): nat
    requires |pat| > 0
    decreases |s|
  {
    if |s| < |pat| then 0
    else if s[..|pat|] == pat then 1 + CountMatches(s[|pat|..], pat)
    else CountMatches(s[1..], pat)
  }

  /** An occurrence cannot straddle a character the pattern does not contain, so the replace
      works on both sides of it separately. */
  lemma {:induction false} ReplaceAllSplit(a: string, c: char, b: string, pat: string, rep: string)
    requires |pat| > 0 && c !in pat
    ensures ReplaceAll(a + [c] + b, pat, rep) == ReplaceAll(a, pat, rep) + [c] + ReplaceAll(b, pat, rep)
    decreases |a|
  {
    var s := a + [c] + b;
    var rb := ReplaceAll(b, pat, rep);
    if |s| < |pat| {
      assert ReplaceAll(a, pat, rep) == a;
      assert rb == b;
    } else if s[..|pat|] == pat {
      assert s[|a|] == c;
      assert forall k :: 0 <= k < |pat| ==> s[k] != c;
      assert |a| >= |pat|;
      var a' := a[|pat|..];
      assert a[..|pat|] == s[..|pat|];
      assert s[|pat|..] == a' + [c] + b;
      ReplaceAllSplit(a', c, b, pat, rep);
      var ra' := ReplaceAll(a', pat, rep);
      assert ReplaceAll(s, pat, rep) == rep + (ra' + [c] + rb);
      assert ReplaceAll(a, pat, rep) == rep + ra';
      SeqAppendAssoc(rep, ra' + [c], rb);
      SeqAppendAssoc(rep, ra', [c]);
    } else if |a| > 0 {
      var a' := a[1..];
      assert s[1..] == a' + [c] + b;
      ReplaceAllSplit(a', c, b, pat, rep);
      var ra' := ReplaceAll(a', pat, rep);
      assert ReplaceAll(s, pat, rep) == [a[0]] + (ra' + [c] + rb);
      if |a| >= |pat| {
        assert a[..|pat|] == s[..|pat|];
        assert ReplaceAll(a, pat, rep) == [a[0]] + ra';
      } else {
        assert ra' == a';
        assert a == [a[0]] + a';
      }
      SeqAppendAssoc([a[0]], ra' + [c], rb);
      SeqAppendAssoc([a[0]], ra', [c]);
    } else {
      assert s == [c] + b;
      assert s[1..] == b;
      assert ReplaceAll(s, pat, rep) == [c] + rb;
    }
  }

  /** Without one of the pattern's characters there is nothing to replace. */
  lemma {:induction false} ReplaceAllNoChar(s: string, pat: string, rep: string, c: char)
    requires |pat| > 0 && c in pat && c !in s
    ensures ReplaceAll(s, pat, rep) == s
    decreases |s|
  {
    if |s| >= |pat| {
      assert s[..|pat|] != pat by {
        var k :| 0 <= k < |pat| && pat[k] == c;
        assert s[..|pat|][k] == s[k];
      }
      ReplaceAllNoChar(s[1..], pat, rep, c);
      assert s == [s[0]] + s[1..];
    }
  }

  /** The pattern alone is replaced by the replacement. */
  lemma ReplaceAllOfPattern(pat: string, rep: string)
    requires |pat| > 0
    ensures ReplaceAll(pat, pat, rep) == rep
  {
    assert pat[..|pat|] == pat;
    assert pat[|pat|..] == [];
  }

  /** Where nothing is counted nothing is replaced. */
  lemma {:induction false} ReplaceAllUncounted(s: string, pat: string, rep: string)
    requires |pat| > 0 && CountMatches(s, pat) == 0
    ensures ReplaceAll(s, pat, rep) == s
    decreases |s|
  {
    if |s| >= |pat| {
      assert s[..|pat|] != pat;
      ReplaceAllUncounted(s[1..], pat, rep);
      assert s == [s[0]] + s[1..];
    }
  }

  /** Counting, like replacing, works on both sides of a character the pattern lacks. */
  lemma {:induction false} CountMatchesSplit(a: string, c: char, b: string, pat: string)
    requires |pat| > 0 && c !in pat
    ensures CountMatches(a + [c] + b, pat) == CountMatches(a, pat) + CountMatches(b, pat)
    decreases |a|
  {
    var s := a + [c] + b;
    if |s| >= |pat| {
      if s[..|pat|] == pat {
        assert s[|a|] == c;
        assert forall k :: 0 <= k < |pat| ==> s[k] != c;
        assert |a| >= |pat|;
        assert a[..|pat|] == s[..|pat|];
        assert s[|pat|..] == a[|pat|..] + [c] + b;
        CountMatchesSplit(a[|pat|..], c, b, pat);
      } else if |a| > 0 {
        assert s[1..] == a[1..] + [c] + b;
        CountMatchesSplit(a[1..], c, b, pat);
        if |a| >= |pat| {
          assert a[..|pat|] == s[..|pat|];
        }
      } else {
        assert s == [c] + b;
        assert s[1..] == b;
      }
    }
  }

  /** Without one of the pattern's characters there is nothing to count. */
  lemma {:induction false} CountMatchesNoChar(s: string, pat: string, c: char)
    requires |pat| > 0 && c in pat && c !in s
    ensures CountMatches(s, pat) == 0
    decreases |s|
  {
    if |s| >= |pat| {
      assert s[..|pat|] != pat by {
        var k :| 0 <= k < |pat| && pat[k] == c;
        assert s[..|pat|][k] == s[k];
      }
      CountMatchesNoChar(s[1..], pat, c);
    }
  }

  /** A text that starts with the pattern counts it once more than the rest. */
  lemma CountMatchesOfPrefix(pat: string, rest: string)
    requires |pat| > 0
    ensures CountMatches(pat + rest, pat) == 1 + CountMatches(rest, pat)
  {
    assert (pat + rest)[..|pat|] == pat;
    assert (pat + rest)[|pat|..] == rest;
  }

  /** What is counted occurs. */
  lemma {:induction false} CountedOccurs(s: string, pat: string) returns (i: nat)
    requires |pat| > 0 && CountMatches(s, pat) > 0
    ensures OccursAt(s, i, pat)
    decreases |s|
  {
    if s[..|pat|] == pat {
      i := 0;
    } else {
      var j := CountedOccurs(s[1..], pat);
      SliceOfSlice(s, 1, |s|, j, j + |pat|);
      i := j + 1;
    }
  }
}
