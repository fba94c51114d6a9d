/**
 * Recovering the created order's id from the text the order-creation step prints:
 * `extractOrderId` of the integration scripts (a JSON `"orderId"` pass, a `Result:` pass,
 * a strict `Order ID:` pass, then the first UUID anywhere) and `extractOrderIdFromLog` of the
 * order-update script (a loose `Order ID:` pass, the JSON pass, then the first UUID).
 */
module OrderIdExtraction {
  import opened Wrappers
  import opened JsText
  import opened Uuid

  /** What the `includes` guards look for. */
  const JsonKey := "\"orderId\""
  const ResultLabel := "Result:"
  const OrderLabel := "Order ID:"

  /** The literal that starts the JSON pattern `"orderId":\s*"([^"]+)"`. */
  const JsonPrefix := "\"orderId\":"

  const OutputError := "Could not extract orderId from output"
  const LogError := "Could not extract orderId from log output"

  /** A captured group: `line[start..end]`. */
  datatype Span = Span(start: nat, end: nat)

  /** `"orderId":\s*"([^"]+)"` matching at index `i`, and the group it captures. The greedy
      `\s*` is followed by `"`, which is not white space, and the greedy `[^"]+` by `"`, so
      neither can give characters back: the match at `i` is unique. */
  function JsonGroupAt(line: string, i: nat): (r: Option<Span>)
    ensures r.Some? ==> OccursAt(line, i, JsonPrefix)
    ensures r.Some? ==> i + 11 <= r.value.start < r.value.end < |line|
    ensures r.Some? ==> line[r.value.start - 1] == '"' && line[r.value.end] == '"'
  {
    if OccursAt(line, i, JsonPrefix) then
      var j := SkipWhiteSpace(line, i + 10);
      if j < |line| && line[j] == '"' then
        var e := FindChar(line, '"', j + 1);
        if j + 1 < e < |line| then Some(Span(j + 1, e)) else None
      else None
    else None
  }

  /** `line.match(/"orderId":\s*"([^"]+)"/)`: where the leftmost match at or after `from`
      starts. */
  function FirstJsonMatch(line: string, from: nat): (r: Option<nat>)
    requires from <= |line|
    ensures r.Some? ==> from <= r.value <= |line| && JsonGroupAt(line, r.value).Some?
    ensures r.Some? ==> forall i: nat :: from <= i < r.value ==> JsonGroupAt(line, i).None?
    ensures r.None? ==> forall i: nat :: from <= i <= |line| ==> JsonGroupAt(line, i).None?
    decreases |line| - from
  {
    var here := JsonGroupAt(line, from);
    if here.Some? then Some(from)
    else if from == |line| then None
    else FirstJsonMatch(line, from + 1)
  }

  /** The captured group, trimmed, when it is exactly one UUID. */
  function JsonValue(line: string): (r: Option<string>)
    ensures r.Some? ==> IsUuid(r.value)
  {
    match FirstJsonMatch(line, 0)
    case None => None
    case Some(i) =>
      var g := JsonGroupAt(line, i).value;
      var v := Trim(line[g.start..g.end]);
      if IsUuid(v) then Some(v) else None
  }

  /** One line of the first pass: it must mention `"orderId"`. */
  function JsonCandidate(line: string): (r: Option<string>)
    ensures r.Some? ==> IsUuid(r.value)
  {
    if Includes(line, JsonKey) then JsonValue(line) else None
  }

  /** One line of the second pass: it must mention both `Result:` and `"orderId"`. */
  function ResultCandidate(line: string): (r: Option<string>)
  {
    if Includes(line, ResultLabel) && Includes(line, JsonKey) then JsonValue(line) else None
  }

  /** Whether `(?:\s|,|$)` matches at index `k` (no `m` flag: `$` is the end of the line). */
  predicate LabelBoundaryAt(line: string, k: nat)
  {
    k == |line| || (k < |line| && (IsWhiteSpace(line[k]) || line[k] == ','))
  }

  /** `/Order ID:\s*(<uuid>)(?:\s|,|$)/i` (when `strict`) or `/Order ID:\s*(<uuid>)/i` matching
      at `i`: the index where the captured UUID begins. A UUID starts with a hex digit, which is
      not white space, so the greedy `\s*` never gives anything back. */
  function LabelGroupAt(line: string, i: nat, strict: bool): (r: Option<nat>)
    ensures r.Some? ==> OccursIgnoringCaseAt(line, i, OrderLabel) && i + 9 <= r.value
    ensures r.Some? ==> UuidAt(line, r.value)
    ensures r.Some? && strict ==> LabelBoundaryAt(line, r.value + 36)
  {
    if OccursIgnoringCaseAt(line, i, OrderLabel) then
      var j := SkipWhiteSpace(line, i + 9);
      if UuidAt(line, j) && (!strict || LabelBoundaryAt(line, j + 36)) then Some(j) else None
    else None
  }

  /** Where the leftmost label match at or after `from` starts. */
  function FirstLabelMatch(line: string, from: nat, strict: bool): (r: Option<nat>)
    requires from <= |line|
    ensures r.Some? ==> from <= r.value <= |line| && LabelGroupAt(line, r.value, strict).Some?
    decreases |line| - from
  {
    var here := LabelGroupAt(line, from, strict);
    if here.Some? then Some(from)
    else if from == |line| then None
    else FirstLabelMatch(line, from + 1, strict)
  }

  /** The match `FirstLabelMatch` finds is the leftmost one, and when it finds none there is
      none to find. */
  lemma {:induction false} FirstLabelMatchIsLeftmost(line: string, from: nat, strict: bool)
    requires from <= |line|
    ensures var r := FirstLabelMatch(line, from, strict);
      (r.Some? ==> forall i: nat :: from <= i < r.value ==> LabelGroupAt(line, i, strict).None?) &&
      (r.None? ==> forall i: nat :: from <= i <= |line| ==> LabelGroupAt(line, i, strict).None?)
    decreases |line| - from
  {
    var here := LabelGroupAt(line, from, strict);
    if here.None? && from < |line| {
      FirstLabelMatchIsLeftmost(line, from + 1, strict);
      var r := FirstLabelMatch(line, from + 1, strict);
      assert FirstLabelMatch(line, from, strict) == r;
      if r.Some? {
        forall i: nat | from <= i < r.value ensures LabelGroupAt(line, i, strict).None? {
          if i > from {
            assert from + 1 <= i < r.value;
          }
        }
      } else {
        forall i: nat | from <= i <= |line| ensures LabelGroupAt(line, i, strict).None? {
          if i > from {
            assert from + 1 <= i <= |line|;
          }
        }
      }
    }
  }

  /** The text the label pattern captures (when it matches), before any trimming. */
  function LabelGroup(line: string, strict: bool): (r: Option<string>)
    ensures r.Some? ==> IsUuid(r.value)
  {
    match FirstLabelMatch(line, 0, strict)
    case None => None
    case Some(i) =>
      var j := LabelGroupAt(line, i, strict).value;
      MatchIsUuid(line, j);
      Some(line[j..j + 36])
  }

  /** One line of the third pass of `extractOrderId`: it must mention `Order ID:` (with that
      case), and the strict label pattern must match; the captured text is trimmed and checked. */
  function LabelCandidate(line: string): (r: Option<string>)
    ensures r.Some? ==> IsUuid(r.value)
  {
    if Includes(line, OrderLabel) then
      match LabelGroup(line, true)
      case None => None
      case Some(u) =>
        var v := Trim(u);
        if IsUuid(v) then Some(v) else None
    else None
  }

  /** One line of the first pass of `extractOrderIdFromLog`: no boundary and no check. */
  function LooseLabelCandidate(line: string): (r: Option<string>)
  {
    if Includes(line, OrderLabel) then
      match LabelGroup(line, false)
      case None => None
      case Some(u) => Some(Trim(u))
    else None
  }

  /** The index of the first element at or after `from` on which `f` gives a value. */
  function FirstIndexFrom<T>(xs: seq<T>, f: T -> Option<string>, from: nat): (r: Option<nat>)
    requires from <= |xs|
    ensures r.Some? ==> from <= r.value < |xs| && f(xs[r.value]).Some?
    ensures r.Some? ==> forall j :: from <= j < r.value ==> f(xs[j]).None?
    ensures r.None? ==> forall j :: from <= j < |xs| ==> f(xs[j]).None?
    decreases |xs| - from
  {
    if from == |xs| then None
    else if f(xs[from]).Some? then Some(from)
    else FirstIndexFrom(xs, f, from + 1)
  }

  /** A `for … of` loop that returns the first value `f` finds. */
  function FirstSome<T>(xs: seq<T>, f: T -> Option<string>): Option<string>
  {
    match FirstIndexFrom(xs, f, 0)
    case None => None
    case Some(k) => f(xs[k])
  }

  /** `f` gives nothing on the elements before index `k`. */
  predicate FirstAt<T>(xs: seq<T>, f: T -> Option<string>, k: nat)
    requires k <= |xs|
  {
    forall j :: 0 <= j < k ==> f(xs[j]).None?
  }

  /** `s.match(/(<uuid>)/gi)`: every leftmost, non-overlapping match from `from` on. */
  function AllUuidMatches(s: string, from: nat): (r: seq<string>)
    requires from <= |s|
    ensures forall k :: 0 <= k < |r| ==> IsUuid(r[k])
    ensures |r| > 0 <==> FirstUuidFrom(s, from).Some?
    ensures |r| > 0 ==> r[0] == s[FirstUuidFrom(s, from).value..FirstUuidFrom(s, from).value + 36]
    decreases |s| - from
  {
    match FirstUuidFrom(s, from)
    case None => []
    case Some(p) =>
      MatchIsUuid(s, p);
      [s[p..p + 36]] + AllUuidMatches(s, p + 36)
  }

  /** The loop of the last pass keeps the first match that is a strict UUID. */
  function ValidUuid(u: string): (r: Option<string>)
  {
    if IsUuid(u) then Some(u) else None
  }

  /** `extractOrderId(output)` of the integration scripts. */
  function ExtractOrderId(output: string): (r: Result<string, string>)
    ensures r.Failure? ==> r.error == OutputError
  {
    var lines := Split(output);
    match FirstSome(lines, JsonCandidate)
    case Some(v) => Success(v)
    case None =>
      match FirstSome(lines, ResultCandidate)
      case Some(v) => Success(v)
      case None =>
        match FirstSome(lines, LabelCandidate)
        case Some(v) => Success(v)
        case None =>
          match FirstSome(AllUuidMatches(output, 0), ValidUuid)
          case Some(v) => Success(v)
          case None => Failure(OutputError)
  }

  /** `extractOrderIdFromLog(logOutput)` of the order-update script. */
  function ExtractOrderIdFromLog(logOutput: string): (r: Result<string, string>)
    ensures r.Failure? ==> r.error == LogError
  {
    var lines := Split(logOutput);
    match FirstSome(lines, LooseLabelCandidate)
    case Some(v) => Success(v)
    case None =>
      match FirstSome(lines, JsonCandidate)
      case Some(v) => Success(v)
      case None =>
        match FirstSome(AllUuidMatches(logOutput, 0), ValidUuid)
        case Some(v) => Success(v)
        case None => Failure(LogError)
  }

  // ---------------------------------------------------------------------------------------
  // The passes' loop
  // ---------------------------------------------------------------------------------------

  /** The search stops at the first element on which `f` gives a value. */
  lemma {:induction false} FirstIndexFromAt<T>(xs: seq<T>, f: T -> Option<string>, from: nat, k: nat)
    requires from <= k < |xs| && f(xs[k]).Some?
    requires forall j :: from <= j < k ==> f(xs[j]).None?
    ensures FirstIndexFrom(xs, f, from) == Some(k)
    decreases k - from
  {
    if from < k {
      FirstIndexFromAt(xs, f, from + 1, k);
    }
  }

  /** The loop stops at the first element on which `f` gives a value, and returns that value. */
  lemma FirstSomeAt<T>(xs: seq<T>, f: T -> Option<string>, k: nat)
    requires k < |xs| && f(xs[k]).Some? && FirstAt(xs, f, k)
    ensures FirstSome(xs, f) == f(xs[k])
  {
    FirstIndexFromAt(xs, f, 0, k);
  }

  /** The loop finds nothing exactly when `f` gives nothing on every element. */
  lemma FirstSomeNone<T>(xs: seq<T>, f: T -> Option<string>)
    ensures FirstSome(xs, f).None? <==> forall k :: 0 <= k < |xs| ==> f(xs[k]).None?
  {
    var r := FirstIndexFrom(xs, f, 0);
    if r.Some? {
      assert f(xs[r.value]).Some?;
    }
  }

  /** What the loop returns came from some element, with nothing found before it. */
  lemma FirstSomeFrom<T>(xs: seq<T>, f: T -> Option<string>) returns (k: nat)
    requires FirstSome(xs, f).Some?
    ensures k < |xs| && f(xs[k]) == FirstSome(xs, f) && FirstAt(xs, f, k)
  {
    k := FirstIndexFrom(xs, f, 0).value;
  }

  // ---------------------------------------------------------------------------------------
  // Properties of the extractors
  // ---------------------------------------------------------------------------------------

  /** The second pass of `extractOrderId` can never decide: any line it accepts was already
      accepted, with the same value, by the first pass. */
  lemma ResultPassSubsumed(line: string)
    ensures ResultCandidate(line).Some? ==> JsonCandidate(line) == ResultCandidate(line)
  {
  }

  /** So when the first pass finds nothing, neither does the second. */
  lemma ResultPassNeverDecides(lines: seq<string>)
    ensures FirstSome(lines, JsonCandidate).None? ==> FirstSome(lines, ResultCandidate).None?
  {
    FirstSomeNone(lines, JsonCandidate);
    FirstSomeNone(lines, ResultCandidate);
    forall k | 0 <= k < |lines| ensures JsonCandidate(lines[k]).None? ==> ResultCandidate(lines[k]).None? {
      ResultPassSubsumed(lines[k]);
    }
  }

  /** A value the JSON passes take from a line is a UUID match in that line. */
  lemma JsonValueInLine(line: string) returns (q: nat)
    requires JsonValue(line).Some?
    ensures q + 36 <= |line| && UuidAt(line, q) && line[q..q + 36] == JsonValue(line).value
  {
    var i := FirstJsonMatch(line, 0).value;
    var g := JsonGroupAt(line, i).value;
    assert JsonValue(line).value == Trim(line[g.start..g.end]);
    q := TrimmedUuidInWindow(line, g.start, g.end);
  }

  /** A strict UUID is its own trim. */
  lemma UuidTrimmed(u: string)
    requires IsUuid(u)
    ensures Trim(u) == u
  {
    IsUuidChars(u);
    TrimNoOp(u);
  }

  /** The text a label pattern captures is a UUID match in the line, after a case-insensitive
      `Order ID:` that the match starts with. */
  lemma LabelGroupInLine(line: string, strict: bool) returns (i: nat, q: nat)
    requires LabelGroup(line, strict).Some?
    ensures LabelGroupAt(line, i, strict) == Some(q)
    ensures q + 36 <= |line| && line[q..q + 36] == LabelGroup(line, strict).value
  {
    i := FirstLabelMatch(line, 0, strict).value;
    q := LabelGroupAt(line, i, strict).value;
  }

  /** A UUID found inside one line is a UUID of the joined text. */
  lemma {:induction false} UuidOfLine(lines: seq<string>, k: nat, q: nat)
    requires k < |lines| && UuidAt(lines[k], q)
    ensures UuidAt(Join(lines), LineStart(lines, k) + q)
  {
    LineInJoin(lines, k);
    MatchInWindow(Join(lines), LineStart(lines, k), lines[k], q);
  }

  /** No pass takes anything from a line of a text that holds no UUID. */
  lemma NoUuidNoCandidate(lines: seq<string>, k: nat)
    requires k < |lines|
    requires forall p: nat :: !UuidAt(Join(lines), p)
    ensures JsonCandidate(lines[k]).None? && ResultCandidate(lines[k]).None?
    ensures LabelCandidate(lines[k]).None? && LooseLabelCandidate(lines[k]).None?
  {
    var line := lines[k];
    if JsonValue(line).Some? {
      var q := JsonValueInLine(line);
      UuidOfLine(lines, k, q);
    }
    if LabelGroup(line, true).Some? {
      var i, q := LabelGroupInLine(line, true);
      UuidOfLine(lines, k, q);
    }
    if LabelGroup(line, false).Some? {
      var i, q := LabelGroupInLine(line, false);
      UuidOfLine(lines, k, q);
    }
  }

  /** The last pass yields exactly the leftmost UUID of the whole text. */
  lemma LastPass(s: string)
    ensures FirstSome(AllUuidMatches(s, 0), ValidUuid).None? <==> FirstUuidFrom(s, 0).None?
    ensures FirstUuidFrom(s, 0).Some? ==>
      FirstSome(AllUuidMatches(s, 0), ValidUuid)
        == Some(s[FirstUuidFrom(s, 0).value..FirstUuidFrom(s, 0).value + 36])
  {
    var ms := AllUuidMatches(s, 0);
    if |ms| > 0 {
      FirstSomeAt(ms, ValidUuid, 0);
    } else {
      FirstSomeNone(ms, ValidUuid);
    }
  }

  /** `extractOrderId` throws exactly when the output holds no UUID anywhere. */
  lemma ExtractOrderIdFails(output: string)
    ensures ExtractOrderId(output).Failure? <==> forall p: nat :: !UuidAt(output, p)
  {
    var lines := Split(output);
    LastPass(output);
    if forall p: nat :: !UuidAt(output, p) {
      forall k | 0 <= k < |lines|
        ensures JsonCandidate(lines[k]).None? && ResultCandidate(lines[k]).None?
        ensures LabelCandidate(lines[k]).None?
      {
        NoUuidNoCandidate(lines, k);
      }
      FirstSomeNone(lines, JsonCandidate);
      FirstSomeNone(lines, ResultCandidate);
      FirstSomeNone(lines, LabelCandidate);
    }
  }

  /** `extractOrderIdFromLog` throws exactly when the log holds no UUID anywhere. */
  lemma ExtractOrderIdFromLogFails(logOutput: string)
    ensures ExtractOrderIdFromLog(logOutput).Failure? <==> forall p: nat :: !UuidAt(logOutput, p)
  {
    var lines := Split(logOutput);
    LastPass(logOutput);
    if forall p: nat :: !UuidAt(logOutput, p) {
      forall k | 0 <= k < |lines|
        ensures JsonCandidate(lines[k]).None? && LooseLabelCandidate(lines[k]).None?
      {
        NoUuidNoCandidate(lines, k);
      }
      FirstSomeNone(lines, LooseLabelCandidate);
      FirstSomeNone(lines, JsonCandidate);
    }
  }

  /** The two extractors fail on exactly the same texts. */
  lemma ExtractorsFailTogether(s: string)
    ensures ExtractOrderId(s).Failure? <==> ExtractOrderIdFromLog(s).Failure?
  {
    ExtractOrderIdFails(s);
    ExtractOrderIdFromLogFails(s);
  }

  /** Whatever `extractOrderId` returns is a strict UUID. */
  lemma ExtractOrderIdIsUuid(output: string)
    ensures ExtractOrderId(output).Success? ==> IsUuid(ExtractOrderId(output).value)
  {
    var lines := Split(output);
    if FirstSome(lines, JsonCandidate).Some? {
      var k := FirstSomeFrom(lines, JsonCandidate);
    } else if FirstSome(lines, ResultCandidate).Some? {
      ResultPassNeverDecides(lines);
    } else if FirstSome(lines, LabelCandidate).Some? {
      var k := FirstSomeFrom(lines, LabelCandidate);
    } else if FirstSome(AllUuidMatches(output, 0), ValidUuid).Some? {
      var k := FirstSomeFrom(AllUuidMatches(output, 0), ValidUuid);
    }
  }

  /** Whatever `extractOrderIdFromLog` returns is a UUID, although its label pass checks
      nothing: the captured text is a UUID, which trimming leaves alone. */
  lemma ExtractOrderIdFromLogIsUuid(logOutput: string)
    ensures ExtractOrderIdFromLog(logOutput).Success? ==> IsUuid(ExtractOrderIdFromLog(logOutput).value)
  {
    var lines := Split(logOutput);
    if FirstSome(lines, LooseLabelCandidate).Some? {
      var k := FirstSomeFrom(lines, LooseLabelCandidate);
      UuidTrimmed(LabelGroup(lines[k], false).value);
    } else if FirstSome(lines, JsonCandidate).Some? {
      var k := FirstSomeFrom(lines, JsonCandidate);
    } else if FirstSome(AllUuidMatches(logOutput, 0), ValidUuid).Some? {
      var k := FirstSomeFrom(AllUuidMatches(logOutput, 0), ValidUuid);
    }
  }

  /** A returned id never carries a `, Workflow ID` annotation or other trailing text: it is
      36 characters of hex digits and dashes. */
  lemma ExtractedIdIsBare(output: string)
    requires ExtractOrderId(output).Success?
    ensures |ExtractOrderId(output).value| == 36
    ensures forall k :: 0 <= k < 36 ==> UuidChar(ExtractOrderId(output).value[k])
    ensures ',' !in ExtractOrderId(output).value
  {
    ExtractOrderIdIsUuid(output);
    IsUuidChars(ExtractOrderId(output).value);
  }

  /** When no line passes the JSON or the strict label test, the id is the leftmost UUID of the
      whole output. */
  lemma ExtractOrderIdFallback(output: string)
    requires forall k :: 0 <= k < |Split(output)| ==>
      JsonCandidate(Split(output)[k]).None? && LabelCandidate(Split(output)[k]).None?
    requires FirstUuidFrom(output, 0).Some?
    ensures ExtractOrderId(output)
      == Success(output[FirstUuidFrom(output, 0).value..FirstUuidFrom(output, 0).value + 36])
  {
    var lines := Split(output);
    FirstSomeNone(lines, JsonCandidate);
    FirstSomeNone(lines, LabelCandidate);
    ResultPassNeverDecides(lines);
    LastPass(output);
  }

  /** The first line holding a JSON `"orderId"` UUID decides, whatever comes after it. */
  lemma ExtractOrderIdPrefersJson(output: string, k: nat)
    requires k < |Split(output)| && JsonCandidate(Split(output)[k]).Some?
    requires FirstAt(Split(output), JsonCandidate, k)
    ensures ExtractOrderId(output) == Success(JsonCandidate(Split(output)[k]).value)
  {
    FirstSomeAt(Split(output), JsonCandidate, k);
  }

  /** The strict label pass accepts a UUID only when white space, a comma or the end of the line
      follows it, and only after a case-insensitive `Order ID:`. */
  lemma LabelCandidateBoundary(line: string) returns (i: nat, q: nat)
    requires LabelCandidate(line).Some?
    ensures i + 9 <= q && OccursIgnoringCaseAt(line, i, OrderLabel)
    ensures q + 36 <= |line| && LabelCandidate(line) == Some(line[q..q + 36])
    ensures LabelBoundaryAt(line, q + 36)
  {
    LabelCandidateIsGroup(line);
    i, q := LabelGroupInLine(line, true);
    LabelGroupAtFacts(line, i, q);
  }

  /** What a strict label match at `i` capturing at `q` guarantees. */
  lemma LabelGroupAtFacts(line: string, i: nat, q: nat)
    requires LabelGroupAt(line, i, true) == Some(q)
    ensures i + 9 <= q && OccursIgnoringCaseAt(line, i, OrderLabel) && LabelBoundaryAt(line, q + 36)
  {
  }

  /** A strict label candidate is the captured group itself: trimming and re-checking it
      change nothing. */
  lemma LabelCandidateIsGroup(line: string)
    requires LabelCandidate(line).Some?
    ensures LabelGroup(line, true).Some? && LabelCandidate(line) == LabelGroup(line, true)
  {
    var u := LabelGroup(line, true).value;
    UuidTrimmed(u);
  }

  // ---------------------------------------------------------------------------------------
  // The shapes of line the order-creation step prints
  // ---------------------------------------------------------------------------------------

  /** A line without a double quote cannot feed the JSON passes. */
  lemma QuoteFreeLine(line: string)
    requires '"' !in line
    ensures JsonCandidate(line).None? && ResultCandidate(line).None?
  {
    forall i: nat | i <= |line| ensures !OccursAt(line, i, JsonKey) {
      OccursAtHead(line, i, JsonKey);
    }
  }

  /** A line that lacks one of the characters of `Order ID:` cannot feed the label passes. */
  lemma LabelCharMissing(line: string, c: char)
    requires c in OrderLabel && c !in line
    ensures LabelCandidate(line).None? && LooseLabelCandidate(line).None?
  {
    assert !Includes(line, OrderLabel);
  }

  /** `Order ID: <uuid>` followed by the end of the line, white space or a comma (as in
      `Order ID: <uuid>, Workflow ID: <uuid>`): both label passes take exactly the UUID. */
  lemma LabelLineValue(u: string, rest: string)
    requires IsUuid(u)
    requires rest == [] || rest[0] == ',' || IsWhiteSpace(rest[0])
    ensures LabelCandidate(OrderLabel + " " + u + rest) == Some(u)
    ensures LooseLabelCandidate(OrderLabel + " " + u + rest) == Some(u)
  {
    var line := OrderLabel + " " + u + rest;
    LabelLineMatches(u, rest, line);
    LabelGroupAtFront(line, true, u);
    LabelGroupAtFront(line, false, u);
    TrimNoOp(u);
  }

  /** Both label patterns match `Order ID: <uuid>` at the start of such a line. */
  lemma LabelLineMatches(u: string, rest: string, line: string)
    requires IsUuid(u) && line == OrderLabel + " " + u + rest
    requires rest == [] || rest[0] == ',' || IsWhiteSpace(rest[0])
    ensures 46 <= |line| && line[10..46] == u && Includes(line, OrderLabel)
    ensures LabelGroupAt(line, 0, true) == Some(10) && LabelGroupAt(line, 0, false) == Some(10)
  {
    assert line[..9] == OrderLabel;
    assert OccursAt(line, 0, OrderLabel);
    assert OccursIgnoringCaseAt(line, 0, OrderLabel);
    IsUuidChars(u);
    assert line[9] == ' ' && line[10] == u[0];
    assert SkipWhiteSpace(line, 9) == 10;
    assert line[10..46] == u;
    WindowIsMatch(line, 10);
    assert |rest| > 0 ==> line[46] == rest[0];
  }

  /** A label match at the start of the line captures at 10 the UUID found there. */
  lemma LabelGroupAtFront(line: string, strict: bool, u: string)
    requires LabelGroupAt(line, 0, strict) == Some(10) && 46 <= |line| && line[10..46] == u
    ensures LabelGroup(line, strict) == Some(u)
  {
    assert FirstLabelMatch(line, 0, strict) == Some(0);
  }

  /** The JSON pattern at `a`, with one space after the colon, captures the quoted text. */
  lemma JsonGroupOfValue(line: string, a: nat, v: string)
    requires a + |v| + 13 <= |line| && |v| > 0 && '"' !in v
    requires line[a..a + 10] == JsonPrefix && line[a + 10] == ' ' && line[a + 11] == '"'
    requires line[a + 12..a + 12 + |v|] == v && line[a + 12 + |v|] == '"'
    ensures JsonGroupAt(line, a) == Some(Span(a + 12, a + 12 + |v|))
  {
    assert SkipWhiteSpace(line, a + 10) == a + 11;
    forall k | a + 12 <= k < a + 12 + |v| ensures line[k] != '"' {
      assert line[k] == line[a + 12..a + 12 + |v|][k - a - 12];
    }
    assert FindChar(line, '"', a + 12) == a + 12 + |v|;
  }

  /** No JSON match starts at a character other than a double quote. */
  lemma NoJsonGroupBefore(line: string, a: nat)
    requires a <= |line| && forall i :: 0 <= i < a ==> line[i] != '"'
    ensures forall i: nat :: i < a ==> JsonGroupAt(line, i).None?
  {
    forall i: nat | i < a ensures JsonGroupAt(line, i).None? {
      OccursAtHead(line, i, JsonPrefix);
    }
  }

  /** The search for the JSON pattern stops at the first index where it matches. */
  lemma {:induction false} FirstJsonMatchAt(line: string, from: nat, a: nat)
    requires from <= a <= |line| && JsonGroupAt(line, a).Some?
    requires forall i: nat :: from <= i < a ==> JsonGroupAt(line, i).None?
    ensures FirstJsonMatch(line, from) == Some(a)
    decreases a - from
  {
    if from < a {
      FirstJsonMatchAt(line, from + 1, a);
    }
  }

  /** Where the pieces of `pre + "orderId": "<v>"` + post` sit. */
  lemma JsonLineLayout(pre: string, v: string, post: string, line: string)
    requires line == pre + JsonPrefix + " \"" + v + "\"" + post
    ensures |line| == |pre| + |v| + 13 + |post|
    ensures forall i :: 0 <= i < |pre| ==> line[i] == pre[i]
    ensures line[|pre|..|pre| + 10] == JsonPrefix && line[|pre|..|pre| + 9] == JsonKey
    ensures line[|pre| + 10] == ' ' && line[|pre| + 11] == '"'
    ensures line[|pre| + 12..|pre| + 12 + |v|] == v && line[|pre| + 12 + |v|] == '"'
  {
    var rest := JsonPrefix + (" \"" + (v + ("\"" + post)));
    assert line == pre + rest;
    JsonRestLayout(v, post, rest);
    var a := |pre|;
    assert line[a..] == rest;
    SliceOfSuffix(line, a, 0, 10);
    SliceOfSuffix(line, a, 12, 12 + |v|);
  }

  /** The part of a JSON line from its key on. */
  lemma JsonRestLayout(v: string, post: string, rest: string)
    requires rest == JsonPrefix + (" \"" + (v + ("\"" + post)))
    ensures |rest| == |v| + 13 + |post|
    ensures rest[..10] == JsonPrefix && rest[..9] == JsonKey
    ensures rest[10] == ' ' && rest[11] == '"'
    ensures rest[12..12 + |v|] == v && rest[12 + |v|] == '"'
  {
    assert rest[12..] == v + ("\"" + post);
    assert rest[12..12 + |v|] == rest[12..][..|v|];
  }

  /** `…"orderId": "<uuid>"…` after a prefix without double quotes: the JSON passes take the UUID. */
  lemma JsonLineValue(pre: string, u: string, post: string)
    requires '"' !in pre && IsUuid(u)
    ensures JsonCandidate(pre + JsonPrefix + " \"" + u + "\"" + post) == Some(u)
  {
    var line := pre + JsonPrefix + " \"" + u + "\"" + post;
    var a := |pre|;
    JsonLineLayout(pre, u, post, line);
    NoJsonGroupBefore(line, a);
    assert OccursAt(line, a, JsonKey);
    IsUuidChars(u);
    JsonGroupOfValue(line, a, u);
    FirstJsonMatchAt(line, 0, a);
    UuidTrimmed(u);
    assert JsonValue(line) == Some(u);
  }

  /** Splitting a joined text of line-feed-free lines gives the lines back, so the passes run
      over exactly those lines. */
  lemma ExtractOrderIdOfLines(lines: seq<string>, k: nat)
    requires |lines| >= 1 && forall j :: 0 <= j < |lines| ==> '\n' !in lines[j]
    requires k < |lines| && JsonCandidate(lines[k]).Some? && FirstAt(lines, JsonCandidate, k)
    ensures ExtractOrderId(Join(lines)) == Success(JsonCandidate(lines[k]).value)
  {
    SplitJoin(lines);
    ExtractOrderIdPrefersJson(Join(lines), k);
  }

  /** A line that is only `"orderId": "<uuid>"`: the JSON pass takes the UUID. */
  lemma JsonLineAlone(u: string)
    requires IsUuid(u)
    ensures JsonCandidate(JsonPrefix + " \"" + u + "\"") == Some(u)
  {
    JsonLineValue("", u, "");
    JsonLineWithoutSurroundings(u);
  }

  /** An empty prefix and suffix leave a JSON line as it is. */
  lemma JsonLineWithoutSurroundings(u: string)
    ensures "" + JsonPrefix + " \"" + u + "\"" + "" == JsonPrefix + " \"" + u + "\""
  {
    assert "" + JsonPrefix == JsonPrefix;
  }

  /** Such a line holds no line feed. */
  lemma JsonLineHasNoLineFeed(u: string)
    requires IsUuid(u)
    ensures '\n' !in JsonPrefix + " \"" + u + "\""
  {
    IsUuidChars(u);
    assert forall k :: 0 <= k < |u| ==> u[k] != '\n';
    assert '\n' !in u;
  }

  /** A JSON `"orderId"` line for `u` does not make `u` the result: an earlier JSON line wins. */
  lemma FirstJsonLineWins(v: string, u: string)
    requires IsUuid(v) && IsUuid(u) && v != u
    ensures var lines := [JsonPrefix + " \"" + v + "\"", JsonPrefix + " \"" + u + "\""];
      ExtractOrderId(Join(lines)) == Success(v) && ExtractOrderId(Join(lines)) != Success(u)
  {
    var lines := [JsonPrefix + " \"" + v + "\"", JsonPrefix + " \"" + u + "\""];
    JsonLineAlone(v);
    JsonLineHasNoLineFeed(v);
    JsonLineHasNoLineFeed(u);
    ExtractOrderIdOfLines(lines, 0);
  }

  /** Without a JSON line, the first line the strict label pass accepts decides. */
  lemma ExtractOrderIdByLabelOfLines(lines: seq<string>, k: nat)
    requires |lines| >= 1 && forall j :: 0 <= j < |lines| ==> '\n' !in lines[j]
    requires forall j :: 0 <= j < |lines| ==> JsonCandidate(lines[j]).None?
    requires k < |lines| && LabelCandidate(lines[k]).Some? && FirstAt(lines, LabelCandidate, k)
    ensures ExtractOrderId(Join(lines)) == Success(LabelCandidate(lines[k]).value)
  {
    SplitJoin(lines);
    FirstSomeNone(lines, JsonCandidate);
    ResultPassNeverDecides(lines);
    FirstSomeAt(lines, LabelCandidate, k);
  }

  /** The same for `extractOrderIdFromLog`, whose first pass is the loose label pass. */
  lemma ExtractOrderIdFromLogOfLines(lines: seq<string>, k: nat)
    requires |lines| >= 1 && forall j :: 0 <= j < |lines| ==> '\n' !in lines[j]
    requires k < |lines| && LooseLabelCandidate(lines[k]).Some? && FirstAt(lines, LooseLabelCandidate, k)
    ensures ExtractOrderIdFromLog(Join(lines)) == Success(LooseLabelCandidate(lines[k]).value)
  {
    SplitJoin(lines);
    FirstSomeAt(lines, LooseLabelCandidate, k);
  }
}
