/**
 * The waiting helpers every page object inherits: a single wait that refuses to start on a
 * closed page and reports a page closed during the wait, a retry loop whose attempt `k` waits
 * `baseTimeout * k` with a one-second pause between attempts, and the two text helpers.
 */
module BasePage {
  import opened Wrappers
  import opened JsText
  import opened JsNumber
  import opened Browser

  const ClosedBeforeWait := "Page has been closed before waiting for element"
  const ClosedWhileWaiting := "Page was closed while waiting for element"

  /** `waitForElement` on the page state. */
  function WaitForElementSpec(st: PageState, target: Target, timeout: int): (PageState, Option<Error>)
  {
    if st.closed then (st, Some(Thrown(ClosedBeforeWait)))
    else
      var (s1, e) := WaitStep(st, target, timeout);
      if e.None? then (s1, None)
      else if s1.closed then (s1, Some(Thrown(ClosedWhileWaiting)))
      else (s1, e)
  }

  /** On a closed page no wait is issued; on an open page exactly one, whose outcome decides:
      success when the element shows, the original timeout when it does not, and the
      page-closed error when the page closes meanwhile. */
  lemma WaitForElementOutcome(st: PageState, target: Target, timeout: int)
    ensures var r := WaitForElementSpec(st, target, timeout);
      st.closed ==> r == (st, Some(Thrown(ClosedBeforeWait)))
    ensures var r := WaitForElementSpec(st, target, timeout);
      !st.closed ==> (r.0.log == st.log + [Wait(target, timeout)] &&
        (r.1.None? <==> Next(st.script) == Visible) &&
        (Next(st.script) == NotYet ==> r.1 == Some(Timeout(target, timeout))) &&
        (Next(st.script) == Closed ==> r.1 == Some(Thrown(ClosedWhileWaiting))))
  {
  }

  /** `waitForElementWithRetry` from attempt `k` on. */
  function RetrySpec(st: PageState, target: Target, k: int, maxRetries: int, baseTimeout: int): (PageState, Option<Error>)
    decreases maxRetries - k + 1
  {
    if k > maxRetries then (st, None)
    else
      var (s1, e) := WaitStep(st, target, baseTimeout * k);
      if e.None? then (s1, None)
      else if k == maxRetries then (s1, e)
      else
        var (s2, pe) := PauseStep(s1, 1000);
        if pe.Some? then (s2, pe) else RetrySpec(s2, target, k + 1, maxRetries, baseTimeout)
  }

  /** The events of `n` attempts from attempt `k` on: waits of growing timeout with a
      one-second pause between two of them. */
  function RetryLog(target: Target, baseTimeout: int, k: int, n: nat): seq<Event>
    decreases n
  {
    if n == 0 then []
    else if n == 1 then [Wait(target, baseTimeout * k)]
    else [Wait(target, baseTimeout * k), Pause(1000)] + RetryLog(target, baseTimeout, k + 1, n - 1)
  }

  /** The retry log has its `n` waits at the even places, the `i`-th with timeout
      `baseTimeout * (k + i)`, pauses between them and nothing after the last wait. */
  lemma {:induction false} RetryLogShape(target: Target, baseTimeout: int, k: int, n: nat)
    requires n >= 1
    ensures var l := RetryLog(target, baseTimeout, k, n);
      |l| == 2 * n - 1 && l[|l| - 1].Wait? &&
      (forall i :: 0 <= i < n ==> l[2 * i] == Wait(target, baseTimeout * (k + i))) &&
      (forall i :: 0 <= i < n - 1 ==> l[2 * i + 1] == Pause(1000))
    decreases n
  {
    if n > 1 {
      RetryLogShape(target, baseTimeout, k + 1, n - 1);
      var l := RetryLog(target, baseTimeout, k, n);
      var t := RetryLog(target, baseTimeout, k + 1, n - 1);
      assert l == [Wait(target, baseTimeout * k), Pause(1000)] + t;
      forall i | 1 <= i < n ensures l[2 * i] == Wait(target, baseTimeout * (k + i)) {
        assert l[2 * i] == t[2 * (i - 1)];
        assert baseTimeout * (k + 1 + (i - 1)) == baseTimeout * (k + i);
      }
      forall i | 1 <= i < n - 1 ensures l[2 * i + 1] == Pause(1000) {
        assert l[2 * i + 1] == t[2 * (i - 1) + 1];
      }
    }
  }

  /** With no attempt allowed the call returns normally and does nothing. */
  lemma RetryWithoutAttempts(st: PageState, target: Target, maxRetries: int, baseTimeout: int)
    requires maxRetries <= 0
    ensures RetrySpec(st, target, 1, maxRetries, baseTimeout) == (st, None)
  {
  }

  /** On an open page, from attempt `k` of `maxRetries`: let `j` be the number of attempts
      that time out before the first that does not. If that first one sees the element, the
      call succeeds after exactly `j + 1` attempts; if the page closes on it, the call fails
      with the closing error after `j + 1` attempts; if all the remaining attempts time out,
      the call re-throws the last attempt's timeout. */
  lemma {:induction false} RetryClosedForm(st: PageState, target: Target, k: int, maxRetries: int, baseTimeout: int)
    requires !st.closed && 1 <= k <= maxRetries
    ensures var m := maxRetries - k + 1;
      var j := FirstSettled(st.script, m);
      var r := RetrySpec(st, target, k, maxRetries, baseTimeout);
      r.0.log == st.log + RetryLog(target, baseTimeout, k, if j < m then j + 1 else m) &&
      (j < m && At(st.script, j) == Visible ==> r.1 == None && !r.0.closed) &&
      (j < m && At(st.script, j) == Closed ==> r.1 == Some(TargetClosed) && r.0.closed) &&
      (j == m ==> r.1 == Some(Timeout(target, baseTimeout * maxRetries)) && !r.0.closed)
    decreases maxRetries - k
  {
    var m := maxRetries - k + 1;
    var (s1, e) := WaitStep(st, target, baseTimeout * k);
    WaitStepOutcome(st, target, baseTimeout * k);
    AtRest(st.script, 0);
    assert s1.log == st.log + RetryLog(target, baseTimeout, k, 1);
    if Next(st.script) != NotYet {
      assert FirstSettled(st.script, m) == 0;
    } else if k == maxRetries {
      assert FirstSettled(st.script, m) == 1;
    } else {
      var s2 := s1.(log := s1.log + [Pause(1000)]);
      RetryClosedForm(s2, target, k + 1, maxRetries, baseTimeout);
      var j' := FirstSettled(s2.script, m - 1);
      assert FirstSettled(st.script, m) == j' + 1;
      AtRest(st.script, j');
      var tail := RetryLog(target, baseTimeout, k + 1, if j' < m - 1 then j' + 1 else m - 1);
      assert RetryLog(target, baseTimeout, k, if j' + 1 < m then j' + 2 else m)
        == [Wait(target, baseTimeout * k), Pause(1000)] + tail;
      SeqAppendAssoc(st.log, [Wait(target, baseTimeout * k), Pause(1000)], tail);
    }
  }

  // ---------------------------------------------------------------------------------------
  // Text helpers
  // ---------------------------------------------------------------------------------------

  /** `locator.textContent() || ''`: a missing or empty text reads as `''`. */
  function GetText(textContent: Option<string>): (r: string)
    ensures textContent.Some? ==> r == textContent.value
    ensures textContent.None? ==> r == ""
  {
    match textContent
    case Some(t) => t
    case None => ""
  }

  /** `validateCodeLength`: the text's JavaScript length (in UTF-16 code units) is the
      expected one. */
  predicate ValidateCodeLength(textContent: Option<string>, expectedLength: int)
  {
    Utf16Length(GetText(textContent)) == expectedLength
  }

  /** A missing text has length 0; a text of basic-plane characters, such as a code of
      digits, has its character count as length. */
  lemma CodeLengthCounts(textContent: Option<string>, expectedLength: int)
    ensures textContent.None? ==> (ValidateCodeLength(textContent, expectedLength) <==> expectedLength == 0)
    ensures textContent.Some? && (forall k :: 0 <= k < |textContent.value| ==> textContent.value[k] as int <= 0xFFFF) ==>
      (ValidateCodeLength(textContent, expectedLength) <==> |textContent.value| == expectedLength)
  {
  }

  class BasePage {
    const page: Page

    constructor(page: Page)
      ensures this.page == page
    {
      this.page := page;
    }

    method WaitForElement(target: Target, timeout: int) returns (e: Option<Error>)
      modifies page
      ensures (page.State(), e) == WaitForElementSpec(old(page.State()), target, timeout)
    {
      if page.IsClosed() {
        return Some(Thrown(ClosedBeforeWait));
      }
      e := page.WaitFor(target, timeout);
      if e.Some? && page.IsClosed() {
        e := Some(Thrown(ClosedWhileWaiting));
      }
    }

    method WaitForElementWithRetry(target: Target, maxRetries: int, baseTimeout: int) returns (e: Option<Error>)
      modifies page
      ensures (page.State(), e) == RetrySpec(old(page.State()), target, 1, maxRetries, baseTimeout)
    {
      var attempt := 1;
      while attempt <= maxRetries
        invariant attempt >= 1
        invariant RetrySpec(old(page.State()), target, 1, maxRetries, baseTimeout)
          == RetrySpec(page.State(), target, attempt, maxRetries, baseTimeout)
        decreases maxRetries - attempt
      {
        var err := page.WaitFor(target, baseTimeout * attempt);
        if err.None? {
          return None;
        }
        if attempt == maxRetries {
          return err;
        }
        var pe := page.WaitForTimeout(1000);
        if pe.Some? {
          return pe;
        }
        attempt := attempt + 1;
      }
      return None;
    }
  }
}
