/**
 * The UUID pattern `[0-9a-f]{8}-[0-9a-f]{4}-[0-9a-f]{4}-[0-9a-f]{4}-[0-9a-f]{12}` with the
 * `i` flag, which every extractor and fixture updater of the scripts uses: where it matches,
 * the strict whole-string check `^…$`, the leftmost match, the global replace
 * `replace(/(…)/gi, id)` and the clean-up of `, Workflow ID: <uuid>` annotations.
 */
module Uuid {
  import opened Wrappers
  import opened JsText

  predicate Hex4At(s: string, i: nat)
    requires i + 4 <= |s|
  {
    IsHexDigit(s[i]) && IsHexDigit(s[i + 1]) && IsHexDigit(s[i + 2]) && IsHexDigit(s[i + 3])
  }

  /** The UUID pattern matches `s` at index `i` (it always spans 36 characters). */
  predicate UuidAt(s: string, i: nat)
  {
    && i + 36 <= |s|
    && Hex4At(s, i) && Hex4At(s, i + 4) && s[i + 8] == '-'
    && Hex4At(s, i + 9) && s[i + 13] == '-'
    && Hex4At(s, i + 14) && s[i + 18] == '-'
    && Hex4At(s, i + 19) && s[i + 23] == '-'
    && Hex4At(s, i + 24) && Hex4At(s, i + 28) && Hex4At(s, i + 32)
  }

  /** `u.match(/^…$/i)`: `u` is exactly one UUID (no `m` flag, so `$` is the end of `u`). */
  predicate IsUuid(u: string)
  {
    |u| == 36 && UuidAt(u, 0)
  }

  /** A character the UUID pattern can consume. */
  predicate UuidChar(c: char)
  {
    IsHexDigit(c) || c == '-'
  }

  /** The text of a UUID written as its five groups. */
  function UuidText(a: string, b: string, c: string, d: string, e: string): string
  {
    a + "-" + b + "-" + c + "-" + d + "-" + e
  }

  /** Groups of 8, 4, 4, 4 and 12 hex digits make a UUID. */
  lemma UuidTextIsUuid(a: string, b: string, c: string, d: string, e: string)
    requires |a| == 8 && Hex4At(a, 0) && Hex4At(a, 4)
    requires |b| == 4 && Hex4At(b, 0) && |c| == 4 && Hex4At(c, 0) && |d| == 4 && Hex4At(d, 0)
    requires |e| == 12 && Hex4At(e, 0) && Hex4At(e, 4) && Hex4At(e, 8)
    ensures IsUuid(UuidText(a, b, c, d, e))
  {
    var u := UuidText(a, b, c, d, e);
    assert u[..8] == a && u[9..13] == b && u[14..18] == c && u[19..23] == d && u[24..] == e;
  }

  /** Every character of a UUID match is a hex digit or a dash. */
  lemma UuidAtChars(s: string, i: nat)
    requires UuidAt(s, i)
    ensures forall k :: i <= k < i + 36 ==> UuidChar(s[k])
  {
    forall k | i <= k < i + 36 ensures UuidChar(s[k]) {
      var d := k - i;
      assert d < 4 || d < 8 || d == 8 || d < 13 || d == 13 || d < 18 || d == 18 || d < 23
          || d == 23 || d < 28 || d < 32 || d < 36;
    }
  }

  /** A strict UUID holds no white space, no comma and no letter beyond `f`. */
  lemma IsUuidChars(u: string)
    requires IsUuid(u)
    ensures forall k :: 0 <= k < |u| ==> UuidChar(u[k]) && !IsWhiteSpace(u[k]) && u[k] != ','
  {
    UuidAtChars(u, 0);
  }

  /** A match seen inside a window of a string is a match of the whole string, and back. */
  lemma UuidAtSlice(s: string, lo: nat, hi: nat, i: nat)
    requires lo <= hi <= |s|
    requires i + 36 <= hi - lo
    ensures UuidAt(s[lo..hi], i) <==> UuidAt(s, lo + i)
  {
  }

  /** The same for a suffix of a string. */
  lemma UuidAtSuffix(s: string, lo: nat, i: nat)
    requires lo <= |s|
    ensures UuidAt(s[lo..], i) <==> UuidAt(s, lo + i)
  {
  }

  /** The matched text is itself a strict UUID. */
  lemma MatchIsUuid(s: string, i: nat)
    requires UuidAt(s, i)
    ensures IsUuid(s[i..i + 36])
  {
    UuidAtSlice(s, i, i + 36, 0);
  }

  /** A window of `s` that is a strict UUID is a match of `s` at the window's start. */
  lemma WindowIsMatch(s: string, q: nat)
    requires q + 36 <= |s| && IsUuid(s[q..q + 36])
    ensures UuidAt(s, q)
  {
    UuidAtSlice(s, q, q + 36, 0);
  }

  /** A window of `line` whose trim is a strict UUID holds that UUID as a match. */
  lemma TrimmedUuidInWindow(line: string, lo: nat, hi: nat) returns (q: nat)
    requires lo <= hi <= |line| && IsUuid(Trim(line[lo..hi]))
    ensures q + 36 <= |line| && UuidAt(line, q) && line[q..q + 36] == Trim(line[lo..hi])
  {
    var v := Trim(line[lo..hi]);
    q := TrimmedWindow(line, lo, hi, v);
    assert |v| == 36 && line[q..q + 36] == v;
    WindowIsMatch(line, q);
  }

  /** A match inside a piece of `s` is a match of `s`. */
  lemma MatchInWindow(s: string, a: nat, t: string, q: nat)
    requires a + |t| <= |s| && s[a..a + |t|] == t
    requires UuidAt(t, q)
    ensures UuidAt(s, a + q)
  {
    UuidAtSlice(s, a, a + |t|, q);
  }

  /** The leftmost match at or after `from` (what `match`, `exec` and a global `replace` find). */
  function FirstUuidFrom(s: string, from: nat): (r: Option<nat>)
    ensures r.Some? ==> from <= r.value && UuidAt(s, r.value)
    ensures r.Some? ==> forall k: nat :: from <= k < r.value ==> !UuidAt(s, k)
    ensures r.None? ==> forall k: nat :: from <= k ==> !UuidAt(s, k)
    decreases |s| - from
  {
    if from + 36 > |s| then None
    else if UuidAt(s, from) then Some(from)
    else FirstUuidFrom(s, from + 1)
  }

  /** `s.replace(/([0-9a-f]{8}-…-[0-9a-f]{12})/gi, rep)` for a replacement without `$`,
      scanning left to right and skipping over each match it replaces. */
  function ReplaceUuids(s: string, rep: string): string
    decreases |s|
  {
    if |s| < 36 then s
    else if UuidAt(s, 0) then rep + ReplaceUuids(s[36..], rep)
    else [s[0]] + ReplaceUuids(s[1..], rep)
  }

  /** The replace algorithm of the ECMAScript standard, as a reference: repeatedly find the
      leftmost match at or after `lastIndex`, copy the text before it, emit the replacement and
      resume after the match. */
  function ReplaceUuidsFrom(s: string, rep: string, lastIndex: nat): string
    requires lastIndex <= |s|
    decreases |s| - lastIndex
  {
    match FirstUuidFrom(s, lastIndex)
    case None => s[lastIndex..]
    case Some(p) => s[lastIndex..p] + rep + ReplaceUuidsFrom(s, rep, p + 36)
  }

  /** Copying characters before the first match: no match starts in `s[..q]`. */
  lemma {:induction false} ReplaceUuidsSkip(s: string, rep: string, q: nat)
    requires q <= |s|
    requires forall k: nat :: k < q ==> !UuidAt(s, k)
    ensures ReplaceUuids(s, rep) == s[..q] + ReplaceUuids(s[q..], rep)
    decreases q
  {
    if q > 0 {
      ReplaceUuidsCopies(s, rep);
      forall k: nat | k < q - 1 ensures !UuidAt(s[1..], k) {
        UuidAtSuffix(s, 1, k);
      }
      ReplaceUuidsSkip(s[1..], rep, q - 1);
      SuffixOfSuffix(s, 1, q - 1);
      ConsPrefix(s, q, ReplaceUuids(s[q..], rep));
    }
  }

  /** With no match at the front, the first character is copied. */
  lemma ReplaceUuidsCopies(s: string, rep: string)
    requires |s| > 0 && !UuidAt(s, 0)
    ensures ReplaceUuids(s, rep) == [s[0]] + ReplaceUuids(s[1..], rep)
  {
    if |s| < 36 {
      assert s == [s[0]] + s[1..];
    }
  }

  /** Matches of a suffix are matches of the whole, shifted. */
  lemma SuffixMatches(s: string, lo: nat, from: nat, to: nat)
    requires lo <= |s| && from <= to
    requires forall k: nat :: from <= k < to ==> !UuidAt(s, k)
    ensures forall k: nat :: from <= lo + k < to ==> !UuidAt(s[lo..], k)
  {
    forall k: nat | from <= lo + k < to ensures !UuidAt(s[lo..], k) {
      UuidAtSuffix(s, lo, k);
    }
  }

  /** A match at the front is replaced and the scan resumes after it. */
  lemma ReplaceUuidsAtMatch(s: string, rep: string)
    requires UuidAt(s, 0)
    ensures ReplaceUuids(s, rep) == rep + ReplaceUuids(s[36..], rep)
  {
  }

  /** Copying up to the leftmost match at or after `lastIndex`. */
  lemma ReplaceUuidsUpTo(s: string, rep: string, lastIndex: nat, p: nat)
    requires lastIndex <= |s| && FirstUuidFrom(s, lastIndex) == Some(p)
    ensures ReplaceUuids(s[lastIndex..], rep) == s[lastIndex..p] + ReplaceUuids(s[p..], rep)
  {
    var t := s[lastIndex..];
    var q := p - lastIndex;
    SuffixMatches(s, lastIndex, lastIndex, p);
    ReplaceUuidsSkip(t, rep, q);
    SuffixOfSuffix(s, lastIndex, q);
    PrefixOfSuffix(s, lastIndex, q);
  }

  /** Replacing the match at `p` and resuming after it. */
  lemma ReplaceUuidsAt(s: string, rep: string, p: nat)
    requires p <= |s| && UuidAt(s, p)
    ensures ReplaceUuids(s[p..], rep) == rep + ReplaceUuids(s[p + 36..], rep)
  {
    UuidAtSuffix(s, p, 0);
    ReplaceUuidsAtMatch(s[p..], rep);
    SuffixOfSuffix(s, p, 36);
  }

  /** One step of the standard's loop: copy up to the leftmost match, then replace it. */
  lemma ReplaceUuidsStep(s: string, rep: string, lastIndex: nat, p: nat, tail: string)
    requires lastIndex <= |s| && FirstUuidFrom(s, lastIndex) == Some(p)
    requires ReplaceUuids(s[p + 36..], rep) == tail
    ensures ReplaceUuids(s[lastIndex..], rep) == s[lastIndex..p] + rep + tail
  {
    ReplaceUuidsUpTo(s, rep, lastIndex, p);
    ReplaceUuidsAt(s, rep, p);
    SeqAppendAssoc(s[lastIndex..p], rep, tail);
  }

  /** When no match is left, the rest is copied. */
  lemma ReplaceUuidsNoMatch(s: string, rep: string, lastIndex: nat)
    requires lastIndex <= |s| && FirstUuidFrom(s, lastIndex).None?
    ensures ReplaceUuids(s[lastIndex..], rep) == s[lastIndex..]
  {
    var t := s[lastIndex..];
    SuffixMatches(s, lastIndex, lastIndex, |s| + 1);
    ReplaceUuidsSkip(t, rep, |t|);
    assert t[|t|..] == [];
  }

  /** The scanning definition is the standard's algorithm. */
  lemma {:induction false} ReplaceUuidsIsStandard(s: string, rep: string, lastIndex: nat)
    requires lastIndex <= |s|
    ensures ReplaceUuids(s[lastIndex..], rep) == ReplaceUuidsFrom(s, rep, lastIndex)
    decreases |s| - lastIndex
  {
    match FirstUuidFrom(s, lastIndex)
    case None =>
      ReplaceUuidsNoMatch(s, rep, lastIndex);
    case Some(p) =>
      ReplaceUuidsIsStandard(s, rep, p + 36);
      ReplaceUuidsStep(s, rep, lastIndex, p, ReplaceUuidsFrom(s, rep, p + 36));
  }

  /** A 36-character replacement keeps the length: each match is swapped for text of its size. */
  lemma {:induction false} ReplaceUuidsLength(s: string, rep: string)
    requires |rep| == 36
    ensures |ReplaceUuids(s, rep)| == |s|
    decreases |s|
  {
    if |s| >= 36 {
      if UuidAt(s, 0) { ReplaceUuidsLength(s[36..], rep); } else { ReplaceUuidsLength(s[1..], rep); }
    }
  }

  /** Where `,\s*Workflow\s*ID:\s*<uuid>` (with the `i` flag) matches at `i`: the index just
      after it. Each `\s*` is followed by a character that is not white space, so the greedy
      runs never give anything back; the match is taken one piece at a time below. */
  function WorkflowAnnotationEnd(s: string, i: nat): (r: Option<nat>)
    ensures r.Some? ==> i + 47 <= r.value <= |s| && s[i] == ','
  {
    if i < |s| && s[i] == ',' then WorkflowThenId(s, SkipWhiteSpace(s, i + 1)) else None
  }

  /** The rest of the pattern from `Workflow` on, matched at `a`. */
  function WorkflowThenId(s: string, a: nat): (r: Option<nat>)
    ensures r.Some? ==> a + 47 <= r.value <= |s|
  {
    if OccursIgnoringCaseAt(s, a, "Workflow") then IdThenUuid(s, SkipWhiteSpace(s, a + 8)) else None
  }

  /** The rest of the pattern from `ID:` on, matched at `b`. */
  function IdThenUuid(s: string, b: nat): (r: Option<nat>)
    ensures r.Some? ==> b + 39 <= r.value <= |s|
  {
    if OccursIgnoringCaseAt(s, b, "ID:") then UuidEnd(s, SkipWhiteSpace(s, b + 3)) else None
  }

  /** The closing UUID of the pattern, matched at `c`. */
  function UuidEnd(s: string, c: nat): (r: Option<nat>)
    ensures r.Some? ==> r.value == c + 36 <= |s|
  {
    if UuidAt(s, c) then Some(c + 36) else None
  }

  /** The rest of the pattern from `ID:` on ends with a UUID: one stands at `c`, and the match
      ends right after it. */
  lemma IdThenUuidEndsWithUuid(s: string, b: nat) returns (c: nat)
    requires IdThenUuid(s, b).Some?
    ensures IdThenUuid(s, b) == Some(c + 36) && UuidAt(s, c)
  {
    c := SkipWhiteSpace(s, b + 3);
    assert IdThenUuid(s, b) == UuidEnd(s, c);
  }

  /** The same from `Workflow` on. */
  lemma WorkflowThenIdEndsWithUuid(s: string, a: nat) returns (c: nat)
    requires WorkflowThenId(s, a).Some?
    ensures WorkflowThenId(s, a) == Some(c + 36) && UuidAt(s, c)
  {
    var b := SkipWhiteSpace(s, a + 8);
    assert WorkflowThenId(s, a) == IdThenUuid(s, b);
    c := IdThenUuidEndsWithUuid(s, b);
  }

  /** An annotation ends with the UUID it names: a UUID stands at `c`, and the match ends
      right after it. */
  lemma AnnotationEndsWithUuid(s: string, i: nat) returns (c: nat)
    requires WorkflowAnnotationEnd(s, i).Some?
    ensures WorkflowAnnotationEnd(s, i) == Some(c + 36) && UuidAt(s, c)
  {
    var a := SkipWhiteSpace(s, i + 1);
    assert WorkflowAnnotationEnd(s, i) == WorkflowThenId(s, a);
    c := WorkflowThenIdEndsWithUuid(s, a);
  }

  /** `s.replace(/,\s*Workflow\s*ID:\s*<uuid>/gi, '')`: every leftmost, non-overlapping
      annotation is deleted. */
  function StripWorkflowAnnotations(s: string): (r: string)
    ensures |r| <= |s|
    decreases |s|
  {
    if |s| == 0 then s
    else match WorkflowAnnotationEnd(s, 0)
      case Some(e) => StripWorkflowAnnotations(s[e..])
      case None => [s[0]] + StripWorkflowAnnotations(s[1..])
  }

  /** `, <w1> <Workflow> <w2> <ID:> <w3> <uuid>` is an annotation: the pieces between the
      comma, the two words (in any case) and the UUID are white space. */
  predicate IsAnnotation(w1: string, x: string, w2: string, y: string, w3: string, u: string)
  {
    AllWhiteSpace(w1) && AllWhiteSpace(w2) && AllWhiteSpace(w3)
    && SameIgnoringCaseSeq(x, "Workflow") && SameIgnoringCaseSeq(y, "ID:") && IsUuid(u)
  }

  /** The ways to split an annotation followed by `post` into what precedes a piece and what
      follows it. */
  lemma AnnotationShapes(s: string, w1: string, x: string, w2: string, y: string, w3: string, u: string, post: string)
    requires s == ("," + w1 + x + w2 + y + w3 + u) + post
    ensures s == "," + (w1 + (x + (w2 + y + w3 + u + post)))
    ensures s == ("," + w1) + (x + (w2 + y + w3 + u + post))
    ensures s == ("," + w1 + x) + (w2 + (y + (w3 + u + post)))
    ensures s == ("," + w1 + x + w2) + (y + (w3 + u + post))
    ensures s == ("," + w1 + x + w2 + y) + (w3 + (u + post))
    ensures s == ("," + w1 + x + w2 + y + w3) + (u + post)
  {
  }

  /** The lengths of the prefixes of an annotation. */
  lemma AnnotationLengths(w1: string, x: string, w2: string, y: string, w3: string, u: string)
    requires |x| == 8 && |y| == 3 && |u| == 36
    ensures |"," + w1| == 1 + |w1| && |"," + w1 + x| == 1 + |w1| + 8
    ensures |"," + w1 + x + w2| == 1 + |w1| + 8 + |w2|
    ensures |"," + w1 + x + w2 + y| == 1 + |w1| + 8 + |w2| + 3
    ensures |"," + w1 + x + w2 + y + w3| == 1 + |w1| + 8 + |w2| + 3 + |w3|
  {
  }

  /** In `p + (h + t)`, `h` stands from `k` to `e` and `t` follows it. */
  lemma PieceAt(s: string, p: string, h: string, t: string, k: nat, e: nat)
    requires s == p + (h + t) && k == |p| && e == k + |h|
    ensures e <= |s| && s[k..e] == h && s[e..] == t
  {
  }

  /** A text that starts with a comma. */
  lemma CommaFirst(s: string, t: string)
    requires s == "," + t
    ensures 0 < |s| && s[0] == ','
  {
  }

  /** Where each piece of an annotation followed by `post` stands: the words start at `a` and
      `b`, the UUID at `c`. */
  lemma AnnotationPieces(s: string, w1: string, x: string, w2: string, y: string, w3: string, u: string, post: string)
    returns (a: nat, b: nat, c: nat)
    requires s == ("," + w1 + x + w2 + y + w3 + u) + post
    requires |x| == 8 && |y| == 3 && |u| == 36
    ensures a == 1 + |w1| && b == a + 8 + |w2| && c == b + 3 + |w3|
    ensures 0 < |s| && s[0] == ','
    ensures 1 <= a && a + 8 <= b && b + 3 <= c && c + 36 <= |s|
    ensures s[1..a] == w1 && s[a..a + 8] == x && s[a + 8..b] == w2
    ensures s[b..b + 3] == y && s[b + 3..c] == w3 && s[c..c + 36] == u && s[c + 36..] == post
  {
    AnnotationShapes(s, w1, x, w2, y, w3, u, post);
    AnnotationLengths(w1, x, w2, y, w3, u);
    a := 1 + |w1|;
    b := a + 8 + |w2|;
    c := b + 3 + |w3|;
    CommaFirst(s, w1 + (x + (w2 + y + w3 + u + post)));
    PieceAt(s, ",", w1, x + (w2 + y + w3 + u + post), 1, a);
    PieceAt(s, "," + w1, x, w2 + y + w3 + u + post, a, a + 8);
    PieceAt(s, "," + w1 + x, w2, y + (w3 + u + post), a + 8, b);
    PieceAt(s, "," + w1 + x + w2, y, w3 + u + post, b, b + 3);
    PieceAt(s, "," + w1 + x + w2 + y, w3, u + post, b + 3, c);
    PieceAt(s, "," + w1 + x + w2 + y + w3, u, post, c, c + 36);
  }

  /** A character equal to an upper-case letter up to case is no white space. */
  lemma LetterIsNoWhiteSpace(c: char, p: char)
    requires 'A' <= p <= 'Z' && SameIgnoringCase(c, p)
    ensures !IsWhiteSpace(c)
  {
  }

  /** A word that spells an upper-case-initial pattern word in any case starts with no white space. */
  lemma WordStartIsNoWhiteSpace(h: string, p: string)
    requires SameIgnoringCaseSeq(h, p) && 0 < |p| && 'A' <= p[0] <= 'Z'
    ensures !IsWhiteSpace(h[0])
  {
    LetterIsNoWhiteSpace(h[0], p[0]);
  }

  /** A UUID starts with no white space. */
  lemma UuidStartIsNoWhiteSpace(u: string)
    requires IsUuid(u)
    ensures !IsWhiteSpace(u[0])
  {
    UuidAtStartsWithUuidChar(u, 0);
  }

  /** The pattern matches at 0 when its pieces stand where the skips leave off. */
  lemma AnnotationEndAt(s: string, a: nat, b: nat, c: nat)
    requires 0 < |s| && s[0] == ',' && SkipWhiteSpace(s, 1) == a
    requires a + 8 <= |s| && SameIgnoringCaseSeq(s[a..a + 8], "Workflow") && SkipWhiteSpace(s, a + 8) == b
    requires b + 3 <= |s| && SameIgnoringCaseSeq(s[b..b + 3], "ID:") && SkipWhiteSpace(s, b + 3) == c
    requires UuidAt(s, c)
    ensures WorkflowAnnotationEnd(s, 0) == Some(c + 36)
  {
    assert UuidEnd(s, c) == Some(c + 36);
    assert OccursIgnoringCaseAt(s, b, "ID:");
    assert IdThenUuid(s, b) == Some(c + 36);
    assert OccursIgnoringCaseAt(s, a, "Workflow");
    assert WorkflowThenId(s, a) == Some(c + 36);
  }

  /** The pattern matches at 0 where a comma, white space, `Workflow` in any case, white space,
      `ID:` in any case, white space and a UUID follow each other, and the match ends right
      after the UUID. */
  lemma AnnotationAt(s: string, a: nat, b: nat, c: nat)
    requires 0 < |s| && s[0] == ','
    requires 1 <= a && a + 8 <= b && b + 3 <= c && c + 36 <= |s|
    requires AllWhiteSpace(s[1..a]) && SameIgnoringCaseSeq(s[a..a + 8], "Workflow")
    requires AllWhiteSpace(s[a + 8..b]) && SameIgnoringCaseSeq(s[b..b + 3], "ID:")
    requires AllWhiteSpace(s[b + 3..c]) && IsUuid(s[c..c + 36])
    ensures WorkflowAnnotationEnd(s, 0) == Some(c + 36)
  {
    WordStartIsNoWhiteSpace(s[a..a + 8], "Workflow");
    assert s[a..a + 8][0] == s[a];
    SkipWhiteSpaceTo(s, 1, a);
    WordStartIsNoWhiteSpace(s[b..b + 3], "ID:");
    assert s[b..b + 3][0] == s[b];
    SkipWhiteSpaceTo(s, a + 8, b);
    UuidStartIsNoWhiteSpace(s[c..c + 36]);
    assert s[c..c + 36][0] == s[c];
    SkipWhiteSpaceTo(s, b + 3, c);
    WindowIsMatch(s, c);
    AnnotationEndAt(s, a, b, c);
  }

  /** Where the pattern matches at 0 and ends at `e`, the pass goes on with what follows. */
  lemma StripAtMatch(s: string, e: nat, post: string)
    requires WorkflowAnnotationEnd(s, 0) == Some(e) && s[e..] == post
    ensures StripWorkflowAnnotations(s) == StripWorkflowAnnotations(post)
  {
  }

  /** An annotation whose pieces stand at `a`, `b` and `c` is deleted, and the pass goes on
      with `post`. */
  lemma StripAnnotationAt(s: string, a: nat, b: nat, c: nat, w1: string, x: string, w2: string, y: string, w3: string, u: string, post: string)
    requires 0 < |s| && s[0] == ','
    requires 1 <= a && a + 8 <= b && b + 3 <= c && c + 36 <= |s|
    requires s[1..a] == w1 && s[a..a + 8] == x && s[a + 8..b] == w2
    requires s[b..b + 3] == y && s[b + 3..c] == w3 && s[c..c + 36] == u && s[c + 36..] == post
    requires IsAnnotation(w1, x, w2, y, w3, u)
    ensures StripWorkflowAnnotations(s) == StripWorkflowAnnotations(post)
  {
    AnnotationAt(s, a, b, c);
    StripAtMatch(s, c + 36, post);
  }

  /** A text that starts with an annotation loses it: the pass goes on with what follows. */
  lemma StripLeadingAnnotation(s: string, w1: string, x: string, w2: string, y: string, w3: string, u: string, post: string)
    requires s == ("," + w1 + x + w2 + y + w3 + u) + post
    requires IsAnnotation(w1, x, w2, y, w3, u)
    ensures StripWorkflowAnnotations(s) == StripWorkflowAnnotations(post)
  {
    var a, b, c := AnnotationPieces(s, w1, x, w2, y, w3, u, post);
    StripAnnotationAt(s, a, b, c, w1, x, w2, y, w3, u, post);
  }

  /** Where no annotation can start, the first character is copied. */
  lemma StripCopiesFirst(s: string)
    requires 0 < |s| && s[0] != ','
    ensures StripWorkflowAnnotations(s) == [s[0]] + StripWorkflowAnnotations(s[1..])
  {
    assert WorkflowAnnotationEnd(s, 0).None?;
  }

  /** The annotation pass copies a comma-free prefix as it is. */
  lemma {:induction false} StripKeepsCommaFreeStart(s: string, n: nat)
    requires n <= |s| && ',' !in s[..n]
    ensures StripWorkflowAnnotations(s) == s[..n] + StripWorkflowAnnotations(s[n..])
    decreases n
  {
    if n > 0 {
      assert s[0] == s[..n][0];
      StripCopiesFirst(s);
      assert s[1..][..n - 1] == s[1..n];
      StripKeepsCommaFreeStart(s[1..], n - 1);
      SuffixOfSuffix(s, 1, n - 1);
      ConsPrefix(s, n, StripWorkflowAnnotations(s[n..]));
    }
  }

  /** The same for a prefix given as a text of its own. */
  lemma StripKeepsCommaFreePrefix(pre: string, t: string)
    requires ',' !in pre
    ensures StripWorkflowAnnotations(pre + t) == pre + StripWorkflowAnnotations(t)
  {
    var s := pre + t;
    assert s[..|pre|] == pre && s[|pre|..] == t;
    StripKeepsCommaFreeStart(s, |pre|);
  }

  /** The annotation pass deletes the first annotation of a text, wherever it stands after a
      comma-free prefix, and keeps the text around it. */
  lemma StripDeletesAnnotation(pre: string, w1: string, x: string, w2: string, y: string, w3: string, u: string, post: string)
    requires ',' !in pre && IsAnnotation(w1, x, w2, y, w3, u)
    ensures StripWorkflowAnnotations(pre + ("," + w1 + x + w2 + y + w3 + u) + post)
      == pre + StripWorkflowAnnotations(post)
  {
    var ann := "," + w1 + x + w2 + y + w3 + u;
    assert pre + ann + post == pre + (ann + post);
    StripKeepsCommaFreePrefix(pre, ann + post);
    StripLeadingAnnotation(ann + post, w1, x, w2, y, w3, u, post);
  }

  /** `Order ID: <uuid>, Workflow ID: <uuid>` loses its annotation, and nothing else. */
  lemma StripsWorkflowId(v: string, u: string, post: string)
    requires IsUuid(v) && IsUuid(u) && ',' !in post
    ensures StripWorkflowAnnotations("Order ID: " + v + ", Workflow ID: " + u + post) == "Order ID: " + v + post
  {
    IsUuidChars(v);
    assert ',' !in "Order ID: " + v;
    assert "Order ID: " + v + ", Workflow ID: " + u + post
      == ("Order ID: " + v) + ("," + " " + "Workflow" + " " + "ID:" + " " + u) + post;
    StripDeletesAnnotation("Order ID: " + v, " ", "Workflow", " ", "ID:", " ", u, post);
    StripNoComma(post);
  }

  /** A match cannot cross a character outside the pattern, so the replace works on both sides
      of one separately. */
  lemma {:induction false} ReplaceUuidsSplit(a: string, c: char, b: string, rep: string)
    requires !UuidChar(c)
    ensures ReplaceUuids(a + [c] + b, rep) == ReplaceUuids(a, rep) + [c] + ReplaceUuids(b, rep)
    decreases |a|
  {
    var s := a + [c] + b;
    var rb := ReplaceUuids(b, rep);
    if |a| == 0 {
      SplitAtSeparator(a, c, b);
      ReplaceUuidsCopies(s, rep);
    } else if UuidAt(s, 0) {
      var a' := a[36..];
      SplitAtMatch(a, c, b);
      ReplaceUuidsAtMatch(s, rep);
      ReplaceUuidsAtMatch(a, rep);
      ReplaceUuidsSplit(a', c, b, rep);
      var ra' := ReplaceUuids(a', rep);
      SeqAppendAssoc(rep, ra' + [c], rb);
      SeqAppendAssoc(rep, ra', [c]);
    } else {
      var a' := a[1..];
      SplitCopies(a, c, b);
      ReplaceUuidsCopies(s, rep);
      ReplaceUuidsCopies(a, rep);
      ReplaceUuidsSplit(a', c, b, rep);
      var ra' := ReplaceUuids(a', rep);
      SeqAppendAssoc([a[0]], ra' + [c], rb);
      SeqAppendAssoc([a[0]], ra', [c]);
    }
  }

  /** A separator at the front is no match, and what follows it is `b`. */
  lemma SplitAtSeparator(a: string, c: char, b: string)
    requires !UuidChar(c) && |a| == 0
    ensures !UuidAt(a + [c] + b, 0) && (a + [c] + b)[1..] == b && (a + [c] + b)[0] == c
  {
    var s := a + [c] + b;
    assert s == [c] + b;
    UuidAtStartsWithUuidChar(s, 0);
  }

  /** A match starts with a character of the pattern. */
  lemma UuidAtStartsWithUuidChar(s: string, i: nat)
    requires i < |s|
    ensures UuidAt(s, i) ==> UuidChar(s[i])
  {
    if UuidAt(s, i) {
      UuidAtChars(s, i);
    }
  }

  /** A match at the front of `a + [c] + b` lies inside `a`. */
  lemma SplitAtMatch(a: string, c: char, b: string)
    requires !UuidChar(c) && UuidAt(a + [c] + b, 0)
    ensures |a| >= 36 && UuidAt(a, 0) && (a + [c] + b)[36..] == a[36..] + [c] + b
  {
    var s := a + [c] + b;
    UuidAtChars(s, 0);
    assert s[|a|] == c;
    assert |a| >= 36;
    UuidAtSlice(s, 0, |a|, 0);
    assert s[0..|a|] == a;
  }

  /** No match at the front of `a + [c] + b` is none at the front of `a` either. */
  lemma SplitCopies(a: string, c: char, b: string)
    requires |a| > 0 && !UuidAt(a + [c] + b, 0)
    ensures !UuidAt(a, 0) && (a + [c] + b)[0] == a[0] && (a + [c] + b)[1..] == a[1..] + [c] + b
  {
    var s := a + [c] + b;
    if |a| >= 36 {
      UuidAtSlice(s, 0, |a|, 0);
      assert s[0..|a|] == a;
    }
  }

  /** Every match holds a dash, so a text without one is left as it is. */
  lemma ReplaceUuidsNoDash(s: string, rep: string)
    requires '-' !in s
    ensures ReplaceUuids(s, rep) == s
  {
    assert FirstUuidFrom(s, 0).None?;
    ReplaceUuidsNoMatch(s, rep, 0);
    assert s[0..] == s;
  }

  /** A UUID on its own is replaced as a whole. */
  lemma ReplaceUuidsOfUuid(u: string, rep: string)
    requires IsUuid(u)
    ensures ReplaceUuids(u, rep) == rep
  {
    ReplaceUuidsAtMatch(u, rep);
    assert ReplaceUuids(u[36..], rep) == u[36..] == [];
  }

  /** Every annotation starts with a comma, so a text without one is left as it is. */
  lemma {:induction false} StripNoComma(s: string)
    requires ',' !in s
    ensures StripWorkflowAnnotations(s) == s
    decreases |s|
  {
    if |s| > 0 {
      assert WorkflowAnnotationEnd(s, 0).None?;
      StripNoComma(s[1..]);
      assert s == [s[0]] + s[1..];
    }
  }
}
