/**
 * Facts about fixture file texts that the rewrites leave alone. A text is `Plain` when it has
 * no UUID match, no `placeholder` and no letter `k`/`K` (every `Workflow` annotation needs
 * one); all four rewrite passes then leave it unchanged and it holds no payment URL. Plain
 * texts glued with a separator character stay plain, so whole files are handled line by line
 * and long lines piece by piece.
 */
module FixtureText {
  import opened Wrappers
  import opened JsText
  import opened Uuid
  import opened FixtureSync

  ghost predicate NoUuid(s: string)
  {
    forall i: nat :: !UuidAt(s, i)
  }

  ghost predicate NoOcc(s: string, pat: string)
  {
    forall i: nat :: !OccursAt(s, i, pat)
  }

  predicate NoK(s: string)
  {
    forall k :: 0 <= k < |s| ==> s[k] != 'k' && s[k] != 'K'
  }

  ghost predicate Plain(s: string)
  {
    NoUuid(s) && NoOcc(s, Placeholder) && NoK(s)
  }

  /** A character that no UUID, no `placeholder` and no annotation-blocking letter holds. */
  predicate Separator(c: char)
  {
    !UuidChar(c) && c !in Placeholder && c != 'k' && c != 'K'
  }

  /** `p` holds neither `d`, nor `c`, nor a `k`/`K`. */
  predicate Scan(p: string, d: char, c: char)
  {
    forall k :: 0 <= k < |p| ==> p[k] != d && p[k] != c && p[k] != 'k' && p[k] != 'K'
  }

  // ---------------------------------------------------------------------------------------
  // What a plain text means to the rewrites
  // ---------------------------------------------------------------------------------------

  /** Every annotation spells `Workflow`, whose fourth letter is a `k` under the `i` flag. */
  lemma {:induction false} StripNoK(s: string)
    requires NoK(s)
    ensures StripWorkflowAnnotations(s) == s
    decreases |s|
  {
    if |s| > 0 {
      NoKNoAnnotation(s);
      StripNoK(s[1..]);
      assert s == [s[0]] + s[1..];
    }
  }

  /** No annotation starts in a text without a `k`. */
  lemma NoKNoAnnotation(s: string)
    requires NoK(s)
    ensures WorkflowAnnotationEnd(s, 0).None?
  {
    if 0 < |s| && s[0] == ',' {
      var a := SkipWhiteSpace(s, 1);
      if a + 8 <= |s| {
        NoKNotWorkflow(s[a..a + 8]);
      }
    }
  }

  /** Eight characters without a `k` do not spell `Workflow` in any case. */
  lemma NoKNotWorkflow(w: string)
    requires |w| == 8 && NoK(w)
    ensures !SameIgnoringCaseSeq(w, "Workflow")
  {
    assert "Workflow"[3] == 'k';
    assert !SameIgnoringCase(w[3], "Workflow"[3]);
  }

  lemma ReplaceUuidsNoUuid(s: string, rep: string)
    requires NoUuid(s)
    ensures ReplaceUuids(s, rep) == s
  {
    assert FirstUuidFrom(s, 0).None?;
    ReplaceUuidsNoMatch(s, rep, 0);
    assert s[0..] == s;
  }

  lemma {:induction false} ReplaceAllNoOcc(s: string, pat: string, rep: string)
    requires |pat| > 0 && NoOcc(s, pat)
    ensures ReplaceAll(s, pat, rep) == s
    decreases |s|
  {
    if |s| >= |pat| {
      assert !OccursAt(s, 0, pat);
      forall i: nat ensures !OccursAt(s[1..], i, pat) {
        assert !OccursAt(s, i + 1, pat);
        assert i + |pat| <= |s| - 1 ==> s[1..][i..i + |pat|] == s[i + 1..i + 1 + |pat|];
      }
      ReplaceAllNoOcc(s[1..], pat, rep);
      assert s == [s[0]] + s[1..];
    }
  }

  lemma {:induction false} CountNoOcc(s: string, pat: string)
    requires |pat| > 0 && NoOcc(s, pat)
    ensures CountMatches(s, pat) == 0
    decreases |s|
  {
    if |s| >= |pat| {
      assert !OccursAt(s, 0, pat);
      forall i: nat ensures !OccursAt(s[1..], i, pat) {
        assert !OccursAt(s, i + 1, pat);
        assert i + |pat| <= |s| - 1 ==> s[1..][i..i + |pat|] == s[i + 1..i + 1 + |pat|];
      }
      CountNoOcc(s[1..], pat);
    }
  }

  /** Every payment URL for a UUID holds that UUID. */
  lemma NoUuidNoUrl(s: string, id: string)
    requires NoUuid(s) && IsUuid(id)
    ensures NoOcc(s, UrlPrefix(id))
  {
    var p := UrlPrefix(id);
    var a := |HostBase| + 1;
    assert p[a..a + 36] == id;
    forall i: nat | i + |p| <= |s| ensures !OccursAt(s, i, p) {
      UuidAtSlice(s, i + a, i + a + 36, 0);
      assert OccursAt(s, i, p) ==> s[i + a..i + a + 36] == id by {
        SliceOfSlice(s, i, i + |p|, a, a + 36);
      }
    }
  }

  /** A plain text is left alone by every pass and holds no payment URL. */
  lemma PlainIsFixed(s: string, rep: string, id: string)
    requires Plain(s) && IsUuid(id)
    ensures StripWorkflowAnnotations(s) == s
    ensures ReplaceUuids(s, rep) == s
    ensures ReplaceAll(s, Placeholder, rep) == s
    ensures CountMatches(s, UrlPrefix(id)) == 0
  {
    StripNoK(s);
    ReplaceUuidsNoUuid(s, rep);
    ReplaceAllNoOcc(s, Placeholder, rep);
    NoUuidNoUrl(s, id);
    CountNoOcc(s, UrlPrefix(id));
  }

  // ---------------------------------------------------------------------------------------
  // Building plain texts
  // ---------------------------------------------------------------------------------------

  /** A piece without a dash has no UUID match (or a short one, which has no room for one);
      a piece without some letter of `placeholder` has no `placeholder` (or a piece too short
      to hold one). */
  lemma PlainPiece(p: string, d: char, c: char)
    requires Scan(p, d, c) && (d == '-' || |p| < 36) && (c in Placeholder || |p| < 11)
    ensures Plain(p)
  {
    forall i: nat ensures !UuidAt(p, i) {
      if i + 36 <= |p| { assert p[i + 8] != d; }
    }
    forall i: nat ensures !OccursAt(p, i, Placeholder) {
      if i + 11 <= |p| && c in Placeholder {
        var j :| 0 <= j < 11 && Placeholder[j] == c;
        assert p[i..i + 11][j] == p[i + j];
      }
    }
  }

  lemma UuidAtCovers(s: string, i: nat, j: nat)
    ensures UuidAt(s, i) && i <= j < i + 36 ==> UuidChar(s[j])
  {
    if UuidAt(s, i) { UuidAtChars(s, i); }
  }

  lemma NoUuidSplit(a: string, c: char, b: string)
    requires NoUuid(a) && NoUuid(b) && !UuidChar(c)
    ensures NoUuid(a + [c] + b)
  {
    var s := a + [c] + b;
    forall i: nat ensures !UuidAt(s, i) {
      if i + 36 <= |s| {
        if i + 36 <= |a| {
          UuidAtSlice(s, 0, |a|, i);
          assert s[0..|a|] == a;
        } else if i > |a| {
          UuidAtSuffix(s, |a| + 1, i - |a| - 1);
          assert s[|a| + 1..] == b;
        } else {
          assert s[|a|] == c;
          UuidAtCovers(s, i, |a|);
        }
      }
    }
  }

  lemma NoOccSplit(a: string, c: char, b: string, pat: string)
    requires |pat| > 0 && NoOcc(a, pat) && NoOcc(b, pat) && c !in pat
    ensures NoOcc(a + [c] + b, pat)
  {
    var s := a + [c] + b;
    forall i: nat ensures !OccursAt(s, i, pat) {
      if i + |pat| <= |s| {
        if i + |pat| <= |a| {
          assert !OccursAt(a, i, pat);
          assert s[i..i + |pat|] == a[i..i + |pat|];
        } else if i > |a| {
          assert !OccursAt(b, i - |a| - 1, pat);
          assert s[i..i + |pat|] == b[i - |a| - 1..i - |a| - 1 + |pat|];
        } else {
          assert s[i..i + |pat|][|a| - i] == c;
        }
      }
    }
  }

  lemma NoKSplit(a: string, c: char, b: string)
    requires NoK(a) && NoK(b) && c != 'k' && c != 'K'
    ensures NoK(a + [c] + b)
  {
    var s := a + [c] + b;
    forall k | 0 <= k < |s| ensures s[k] != 'k' && s[k] != 'K' {
      if k < |a| { assert s[k] == a[k]; } else if k > |a| { assert s[k] == b[k - |a| - 1]; }
    }
  }

  /** Plain texts glued with a separator make a plain text. */
  lemma PlainSplit(a: string, c: char, b: string)
    requires Plain(a) && Plain(b) && Separator(c)
    ensures Plain(a + [c] + b)
  {
    NoUuidSplit(a, c, b);
    NoOccSplit(a, c, b, Placeholder);
    NoKSplit(a, c, b);
  }

  /** A plain text followed by a plain text that starts with a separator is plain. */
  lemma PlainAppend(a: string, b: string)
    requires Plain(a) && Plain(b) && |b| > 0 && Separator(b[0])
    ensures Plain(a + b)
  {
    forall i: nat ensures !UuidAt(b[1..], i) { assert !UuidAt(b, i + 1); UuidAtSuffix(b, 1, i); }
    forall i: nat ensures !OccursAt(b[1..], i, Placeholder) {
      assert !OccursAt(b, i + 1, Placeholder);
      assert i + 11 <= |b| - 1 ==> b[1..][i..i + 11] == b[i + 1..i + 12];
    }
    assert NoK(b[1..]) by {
      forall k | 0 <= k < |b| - 1 ensures b[1..][k] != 'k' && b[1..][k] != 'K' { assert b[1..][k] == b[k + 1]; }
    }
    PlainSplit(a, b[0], b[1..]);
    assert a + [b[0]] + b[1..] == a + b;
  }

  /** Three plain pieces and two separators. */
  lemma PlainSplit3(a: string, c: char, b: string, d: char, e: string)
    requires Plain(a) && Plain(b) && Plain(e) && Separator(c) && Separator(d)
    ensures Plain(a + [c] + b + [d] + e)
  {
    PlainSplit(a, c, b);
    PlainSplit(a + [c] + b, d, e);
  }

  ghost predicate AllPlain(lines: seq<string>)
  {
    forall j :: 0 <= j < |lines| ==> Plain(lines[j])
  }

  /** Plain lines make a plain text. */
  lemma {:induction false} PlainJoin(lines: seq<string>)
    requires AllPlain(lines)
    ensures Plain(Join(lines))
    decreases |lines|
  {
    if |lines| == 0 {
      assert Join(lines) == [];
      PlainPiece([], 'k', 'k');
    } else if |lines| > 1 {
      assert Plain(lines[0]);
      assert AllPlain(lines[1..]) by {
        forall j | 0 <= j < |lines| - 1 ensures Plain(lines[1..][j]) { assert lines[1..][j] == lines[j + 1]; }
      }
      PlainJoin(lines[1..]);
      PlainSplit(lines[0], '\n', Join(lines[1..]));
      assert lines[0] + "\n" + Join(lines[1..]) == lines[0] + ['\n'] + Join(lines[1..]);
    } else {
      assert Plain(lines[0]);
    }
  }

  /** `Join` over two non-empty runs of lines. */
  lemma {:induction false} JoinAppend(a: seq<string>, b: seq<string>)
    requires |a| > 0 && |b| > 0
    ensures Join(a + b) == Join(a) + "\n" + Join(b)
    decreases |a|
  {
    if |a| == 1 {
      assert (a + b)[0] == a[0] && (a + b)[1..] == b;
    } else {
      assert (a + b)[0] == a[0] && (a + b)[1..] == a[1..] + b;
      JoinAppend(a[1..], b);
      SeqAppendAssoc(a[0] + "\n", Join(a[1..]) + "\n", Join(b));
      SeqAppendAssoc(a[0] + "\n", Join(a[1..]), "\n");
    }
  }

  // ---------------------------------------------------------------------------------------
  // What the rewrites make of a text with UUIDs in it
  // ---------------------------------------------------------------------------------------

  /** The UUID pass turns `t` into `r`, `t` is free of annotations (it has no `k`), and `r`
      holds `urls` payment URLs for the id and `placeholders` occurrences of `placeholder`. */
  ghost predicate Fits(t: string, r: string, id: string, urls: nat, placeholders: nat)
  {
    && NoK(t)
    && ReplaceUuids(t, id) == r
    && CountMatches(r, UrlPrefix(id)) == urls
    && CountMatches(r, Placeholder) == placeholders
  }

  /** A character at which all the passes and counts split: no UUID, no `placeholder`, no
      annotation and no payment URL can hold it. */
  predicate Cut(c: char, id: string)
  {
    Separator(c) && c !in UrlPrefix(id)
  }

  /** The characters a payment URL prefix is made of: lower-case letters, digits and the
      punctuation of `https://`, of the host and of UUIDs. */
  predicate PrefixChar(c: char)
  {
    ('a' <= c <= 'z') || ('0' <= c <= '9') || ('A' <= c <= 'F') || c == ':' || c == '/' || c == '.' || c == '-'
  }

  lemma PrefixChars(id: string)
    requires IsUuid(id)
    ensures forall k :: 0 <= k < |UrlPrefix(id)| ==> PrefixChar(UrlPrefix(id)[k])
  {
    IsUuidChars(id);
    var p := UrlPrefix(id);
    assert p == HostBase + "/" + id + "/";
    forall k | 0 <= k < |p| ensures PrefixChar(p[k]) {
      if |HostBase| + 1 <= k < |HostBase| + 37 {
        assert p[k] == id[k - |HostBase| - 1];
      } else if k < |HostBase| {
        assert p[k] == HostBase[k];
      }
    }
  }

  /** A separator outside the prefix characters is a cut. */
  lemma CutChar(c: char, id: string)
    requires IsUuid(id) && Separator(c) && !PrefixChar(c)
    ensures Cut(c, id)
  {
    PrefixChars(id);
  }

  /** The line feed, both quotes and the comma are cuts. */
  lemma Cuts(id: string)
    requires IsUuid(id)
    ensures Cut('\n', id) && Cut('\'', id) && Cut('`', id) && Cut(',', id)
  {
    CutChar('\n', id);
    CutChar('\'', id);
    CutChar('`', id);
    CutChar(',', id);
  }

  /** A plain text is its own rewrite and holds neither URLs nor placeholders. */
  lemma FitsPlain(s: string, id: string)
    requires Plain(s) && IsUuid(id)
    ensures Fits(s, s, id, 0, 0)
  {
    PlainIsFixed(s, id, id);
    CountNoOcc(s, Placeholder);
  }

  /** Texts that fit glue at a cut into a text that fits, with the counts added up. */
  lemma FitsSplit(t1: string, r1: string, c: char, t2: string, r2: string, id: string,
                  n1: nat, m1: nat, n2: nat, m2: nat)
    requires Fits(t1, r1, id, n1, m1) && Fits(t2, r2, id, n2, m2) && Cut(c, id)
    ensures Fits(t1 + [c] + t2, r1 + [c] + r2, id, n1 + n2, m1 + m2)
  {
    NoKSplit(t1, c, t2);
    ReplaceUuidsSplit(t1, c, t2, id);
    CountMatchesSplit(r1, c, r2, UrlPrefix(id));
    CountMatchesSplit(r1, c, r2, Placeholder);
  }

  /** A cut at the end keeps a text fitting. */
  lemma FitsCutAfter(t: string, r: string, c: char, id: string, n: nat, m: nat)
    requires Fits(t, r, id, n, m) && Cut(c, id) && IsUuid(id)
    ensures Fits(t + [c], r + [c], id, n, m)
  {
    assert Plain("");
    FitsPlain("", id);
    FitsSplit(t, r, c, "", "", id, n, m, 0, 0);
    assert t + [c] + "" == t + [c];
    assert r + [c] + "" == r + [c];
  }

  /** `  name: <q>value<q>`, one property of an object literal on a line of its own, with its
      value between quotes and a comma after it unless it is the last one. */
  function Property(name: string, q: char, value: string, comma: bool): string
  {
    "  " + name + ": " + [q] + value + [q] + (if comma then "," else "")
  }

  /** A property with a plain name fits as its value does. */
  lemma FitsProperty(name: string, q: char, comma: bool, t: string, r: string, id: string, n: nat, m: nat)
    requires Plain(name) && IsUuid(id) && Cut(q, id) && Fits(t, r, id, n, m)
    ensures Fits(Property(name, q, t, comma), Property(name, q, r, comma), id, n, m)
  {
    PlainPiece(" ", '-', 'p');
    PlainSplit(" ", ' ', name);
    PlainPiece(": ", '-', 'p');
    PlainAppend(" " + [' '] + name, ": ");
    var pre := " " + [' '] + name + ": ";
    assert "  " + name + ": " == pre;
    FitsPlain(pre, id);
    FitsSplit(pre, pre, q, t, r, id, 0, 0, n, m);
    FitsCutAfter(pre + [q] + t, pre + [q] + r, q, id, n, m);
    if comma {
      Cuts(id);
      FitsCutAfter(pre + [q] + t + [q], pre + [q] + r + [q], ',', id, n, m);
    } else {
      assert pre + [q] + t + [q] + "" == pre + [q] + t + [q];
      assert pre + [q] + r + [q] + "" == pre + [q] + r + [q];
    }
  }

  /** A property holding a UUID: the pass puts the id in its place. */
  lemma FitsUuidProperty(name: string, q: char, comma: bool, u: string, id: string)
    requires Plain(name) && IsUuid(id) && Cut(q, id) && IsUuid(u)
    ensures Fits(Property(name, q, u, comma), Property(name, q, id, comma), id, 0, 0)
  {
    FitsUuid(u, id);
    FitsProperty(name, q, comma, u, id, id, 0, 0);
  }

  /** A property holding a payment URL for `u`: the pass makes it the URL for the id. */
  lemma FitsUrlProperty(name: string, q: char, comma: bool, u: string, path: string, id: string)
    requires Plain(name) && IsUuid(id) && Cut(q, id) && IsUuid(u) && Plain(path) && |path| < 68
    ensures Fits(Property(name, q, UrlPrefix(u) + path, comma), Property(name, q, UrlPrefix(id) + path, comma), id, 1, 0)
  {
    FitsUrl(u, path, id);
    FitsProperty(name, q, comma, UrlPrefix(u) + path, UrlPrefix(id) + path, id, 1, 0);
  }

  /** A property holding a plain value stays as it is. */
  lemma FitsPlainProperty(name: string, q: char, comma: bool, v: string, id: string)
    requires Plain(name) && IsUuid(id) && Cut(q, id) && Plain(v)
    ensures Fits(Property(name, q, v, comma), Property(name, q, v, comma), id, 0, 0)
  {
    FitsPlain(v, id);
    FitsProperty(name, q, comma, v, v, id, 0, 0);
  }

  /** A property holding a `placeholder` URL stays as it is and holds one `placeholder`. */
  lemma FitsPlaceholderProperty(name: string, q: char, comma: bool, path: string, id: string)
    requires Plain(name) && IsUuid(id) && Cut(q, id) && NoK(path) && '-' !in path && 'l' !in path
    ensures Fits(Property(name, q, PlaceholderUrl(path), comma), Property(name, q, PlaceholderUrl(path), comma), id, 0, 1)
  {
    FitsPlaceholderUrl(path, id);
    FitsProperty(name, q, comma, PlaceholderUrl(path), PlaceholderUrl(path), id, 0, 1);
  }

  /** Each text of `ts` fits its counterpart in `rs` with the counts given for it. */
  ghost predicate AllFit(ts: seq<string>, rs: seq<string>, id: string, urls: seq<nat>, placeholders: seq<nat>)
  {
    && |rs| == |ts| && |urls| == |ts| && |placeholders| == |ts|
    && forall j :: 0 <= j < |ts| ==> Fits(ts[j], rs[j], id, urls[j], placeholders[j])
  }

  /** The texts of `ts` from index `lo` up to `hi` fit their counterparts. */
  ghost predicate FitsBetween(ts: seq<string>, rs: seq<string>, id: string, urls: seq<nat>, placeholders: seq<nat>,
                              lo: nat, hi: nat)
  {
    && |rs| == |ts| && |urls| == |ts| && |placeholders| == |ts| && hi <= |ts|
    && forall j :: lo <= j < hi ==> Fits(ts[j], rs[j], id, urls[j], placeholders[j])
  }

  /** Two adjacent runs of fitting texts make one. */
  lemma FitsBetweenGlue(ts: seq<string>, rs: seq<string>, id: string, urls: seq<nat>, placeholders: seq<nat>,
                        lo: nat, mid: nat, hi: nat)
    requires FitsBetween(ts, rs, id, urls, placeholders, lo, mid) && FitsBetween(ts, rs, id, urls, placeholders, mid, hi)
    ensures FitsBetween(ts, rs, id, urls, placeholders, lo, hi)
  {
  }

  /** A run over all the texts. */
  lemma FitsBetweenAll(ts: seq<string>, rs: seq<string>, id: string, urls: seq<nat>, placeholders: seq<nat>)
    requires FitsBetween(ts, rs, id, urls, placeholders, 0, |ts|)
    ensures AllFit(ts, rs, id, urls, placeholders)
  {
  }

  function Sum(xs: seq<nat>): nat
  {
    if |xs| == 0 then 0 else xs[0] + Sum(xs[1..])
  }

  /** Lines that fit join into a text that fits, with the counts added up. */
  lemma {:induction false} FitsJoin(ts: seq<string>, rs: seq<string>, id: string, urls: seq<nat>, placeholders: seq<nat>)
    requires IsUuid(id) && AllFit(ts, rs, id, urls, placeholders)
    ensures Fits(Join(ts), Join(rs), id, Sum(urls), Sum(placeholders))
    decreases |ts|
  {
    if |ts| == 0 {
      assert Join(ts) == [] && Join(rs) == [];
      PlainPiece([], 'k', 'k');
      FitsPlain([], id);
    } else if |ts| == 1 {
      assert Fits(ts[0], rs[0], id, urls[0], placeholders[0]);
      assert Sum(urls[1..]) == 0 && Sum(placeholders[1..]) == 0;
    } else {
      assert Fits(ts[0], rs[0], id, urls[0], placeholders[0]);
      assert AllFit(ts[1..], rs[1..], id, urls[1..], placeholders[1..]) by {
        forall j | 0 <= j < |ts| - 1 ensures Fits(ts[1..][j], rs[1..][j], id, urls[1..][j], placeholders[1..][j]) {
          assert Fits(ts[j + 1], rs[j + 1], id, urls[j + 1], placeholders[j + 1]);
        }
      }
      FitsJoin(ts[1..], rs[1..], id, urls[1..], placeholders[1..]);
      Cuts(id);
      FitsSplit(ts[0], rs[0], '\n', Join(ts[1..]), Join(rs[1..]), id,
                urls[0], placeholders[0], Sum(urls[1..]), Sum(placeholders[1..]));
      assert ts[0] + "\n" + Join(ts[1..]) == ts[0] + ['\n'] + Join(ts[1..]);
      assert rs[0] + "\n" + Join(rs[1..]) == rs[0] + ['\n'] + Join(rs[1..]);
    }
  }

  /** A character that `s` lacks keeps any pattern holding it out of `s`. */
  lemma NoOccNoChar(s: string, pat: string, c: char)
    requires c in pat && c !in s
    ensures NoOcc(s, pat)
  {
    forall i: nat | i + |pat| <= |s| ensures !OccursAt(s, i, pat) {
      var j :| 0 <= j < |pat| && pat[j] == c;
      assert s[i..i + |pat|][j] == s[i + j];
    }
  }

  /** A UUID is replaced by the id, and neither it nor the id holds a `k`, a URL or a
      `placeholder`. */
  lemma FitsUuid(u: string, id: string)
    requires IsUuid(u) && IsUuid(id)
    ensures Fits(u, id, id, 0, 0)
  {
    IsUuidChars(u);
    IsUuidChars(id);
    ReplaceUuidsOfUuid(u, id);
    assert 'p' in Placeholder && !UuidChar('p');
    CountMatchesNoChar(id, Placeholder, 'p');
  }

  /** A payment URL for `u` with a plain path becomes the URL for the id: one payment URL and
      no `placeholder`. */
  lemma FitsUrl(u: string, path: string, id: string)
    requires IsUuid(u) && IsUuid(id) && Plain(path) && |path| < 68
    ensures Fits(UrlPrefix(u) + path, UrlPrefix(id) + path, id, 1, 0)
  {
    UrlNoK(u, path);
    UrlReplaced(u, path, id);
    UrlCounts(path, id);
  }

  lemma UrlNoK(u: string, path: string)
    requires IsUuid(u) && Plain(path)
    ensures NoK(UrlPrefix(u) + path)
  {
    PlainPiece(HostBase, '-', 'd');
    IsUuidChars(u);
    assert UrlPrefix(u) + path == HostBase + ['/'] + (u + ['/'] + path);
    NoKSplit(u, '/', path);
    NoKSplit(HostBase, '/', u + ['/'] + path);
  }

  lemma UrlReplaced(u: string, path: string, id: string)
    requires IsUuid(u) && IsUuid(id) && Plain(path)
    ensures ReplaceUuids(UrlPrefix(u) + path, id) == UrlPrefix(id) + path
  {
    PlainPiece(HostBase, '-', 'd');
    assert UrlPrefix(u) + path == HostBase + ['/'] + (u + ['/'] + path);
    assert UrlPrefix(id) + path == HostBase + ['/'] + (id + ['/'] + path);
    ReplaceUuidsOfUuid(u, id);
    ReplaceUuidsNoUuid(path, id);
    ReplaceUuidsSplit(u, '/', path, id);
    ReplaceUuidsNoUuid(HostBase, id);
    ReplaceUuidsSplit(HostBase, '/', u + ['/'] + path, id);
  }

  lemma UrlCounts(path: string, id: string)
    requires IsUuid(id) && Plain(path) && |path| < 68
    ensures CountMatches(UrlPrefix(id) + path, UrlPrefix(id)) == 1
    ensures CountMatches(UrlPrefix(id) + path, Placeholder) == 0
  {
    CountMatchesOfPrefix(UrlPrefix(id), path);
    assert |path| < |UrlPrefix(id)|;
    UrlNoPlaceholder(path, id);
    CountNoOcc(UrlPrefix(id) + path, Placeholder);
  }

  lemma UrlNoPlaceholder(path: string, id: string)
    requires IsUuid(id) && Plain(path)
    ensures NoOcc(UrlPrefix(id) + path, Placeholder)
  {
    assert 'd' in Placeholder && '/' !in Placeholder;
    PlainPiece(HostBase, '-', 'd');
    IsUuidChars(id);
    assert UrlPrefix(id) + path == HostBase + ['/'] + (id + ['/'] + path);
    NoOccNoChar(id, Placeholder, 'p');
    NoOccSplit(id, '/', path, Placeholder);
    NoOccSplit(HostBase, '/', id + ['/'] + path, Placeholder);
  }

  lemma PlaceholderUrlNoDash(path: string)
    requires '-' !in path
    ensures '-' !in PlaceholderUrl(path)
  {
    var t := PlaceholderUrl(path);
    assert '-' !in HostBase && '-' !in Placeholder;
    forall k | 0 <= k < |t| ensures t[k] != '-' {
      if k < |HostBase| { assert t[k] == HostBase[k]; }
      else if k > |HostBase| + 12 { assert t[k] == path[k - |HostBase| - 13]; }
      else if |HostBase| < k < |HostBase| + 12 { assert t[k] == Placeholder[k - |HostBase| - 1]; }
    }
  }

  lemma PlaceholderUrlNoK(path: string)
    requires NoK(path)
    ensures NoK(PlaceholderUrl(path))
  {
    PlainPiece(HostBase, '-', 'd');
    assert NoK(Placeholder);
    NoKSplit(Placeholder, '/', path);
    NoKSplit(HostBase, '/', Placeholder + ['/'] + path);
    assert PlaceholderUrl(path) == HostBase + ['/'] + (Placeholder + ['/'] + path);
  }

  lemma HostBaseHoldsNoPlaceholder()
    ensures CountMatches(HostBase, Placeholder) == 0
  {
    assert 'd' in Placeholder;
    CountMatchesNoChar(HostBase, Placeholder, 'd');
  }

  lemma PlaceholderThenPath(path: string)
    requires 'l' !in path
    ensures CountMatches(Placeholder + ['/'] + path, Placeholder) == 1
  {
    assert 'l' in Placeholder && '/' != 'l';
    CountMatchesNoChar(['/'] + path, Placeholder, 'l');
    CountMatchesOfPrefix(Placeholder, ['/'] + path);
    assert Placeholder + ['/'] + path == Placeholder + (['/'] + path);
  }

  lemma PlaceholderAfterBase(base: string, path: string)
    requires CountMatches(base, Placeholder) == 0 && 'l' !in path
    ensures CountMatches(base + "/" + Placeholder + "/" + path, Placeholder) == 1
  {
    PlaceholderThenPath(path);
    assert '/' !in Placeholder;
    CountMatchesSplit(base, '/', Placeholder + ['/'] + path, Placeholder);
    assert base + "/" + Placeholder + "/" + path == base + ['/'] + (Placeholder + ['/'] + path);
  }

  lemma PlaceholderUrlCountsOne(path: string)
    requires 'l' !in path
    ensures CountMatches(PlaceholderUrl(path), Placeholder) == 1
  {
    HostBaseHoldsNoPlaceholder();
    PlaceholderAfterBase(HostBase, path);
  }

  /** A payment URL with `placeholder` where the id belongs and a path without dashes is left
      alone: no payment URL, one `placeholder`. */
  lemma FitsPlaceholderUrl(path: string, id: string)
    requires IsUuid(id) && NoK(path) && '-' !in path && 'l' !in path
    ensures Fits(PlaceholderUrl(path), PlaceholderUrl(path), id, 0, 1)
  {
    var t := PlaceholderUrl(path);
    PlaceholderUrlNoDash(path);
    ReplaceUuidsNoDash(t, id);
    IsUuidChars(id);
    var p := UrlPrefix(id);
    assert p[|HostBase| + 9] == id[8] == '-';
    CountMatchesNoChar(t, p, '-');
    PlaceholderUrlNoK(path);
    PlaceholderUrlCountsOne(path);
  }
}
