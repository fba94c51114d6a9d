/**
 * The payment status page object: waiting for the success page after payment, with a fast
 * path when the success elements are already showing, a retry loop over the three success
 * elements with a fixed timeout per attempt, one recovery run of that loop when anything
 * fails on an open page, and a final check of the success message and the button back to
 * WhatsApp. The `Promise.all` over the three element waits (and over the visibility probes)
 * is taken element by element, in the order the source lists them.
 */
module PaymentStatusPage {
  import opened Wrappers
  import opened JsText
  import opened JsNumber
  import opened Browser

  const SuccessIcon := Element("img[alt=\"status\"]")
  const SuccessMessage := Element("heading: ¡Listo! Tu pago se completó con éxito.")
  const BeneficiaryMessage := Element("p:has-text(\"\U{1F4B8} Aldo Card Card recibirá\")")
  const BackToWhatsApp := Element("button: Volver a WhatsApp")

  const RetryWaitClosed := "Page was closed during retry wait"
  const ClosedBeforeSuccessWait := "Page has been closed before waiting for success page"
  const ClosedAfterUrl := "Page was closed after URL change"
  const ClosedAfterDom := "Page was closed after DOM load"
  const ClosedDuringSuccessWait := "Page was closed during success page wait"
  const ClosedDuringVerification := "Page was closed during verification"
  const NotReady := "Success page is not completely ready"

  function CouldNotFind(maxRetries: int): string
  {
    "Could not find success elements after " + IntToString(maxRetries) + " attempts"
  }

  /** The defaults `waitForSuccessPage` calls the retry loop with. */
  const DefaultRetries := 3
  const DefaultRetryTimeout := 5000

  // ---------------------------------------------------------------------------------------
  // One attempt: the three success elements, each with the same timeout
  // ---------------------------------------------------------------------------------------

  /** The script after `n` outcomes are taken. */
  function Drop(script: seq<Outcome>, n: nat): seq<Outcome>
  {
    if n >= |script| then [] else script[n..]
  }

  lemma DropAt(script: seq<Outcome>, n: nat, i: nat)
    ensures At(Drop(script, n), i) == At(script, n + i)
  {
  }

  lemma DropDrop(script: seq<Outcome>, a: nat, b: nat)
    ensures Drop(Drop(script, a), b) == Drop(script, a + b)
  {
  }

  lemma RestIsDrop(script: seq<Outcome>)
    ensures Rest(script) == Drop(script, 1)
  {
  }

  /** How an attempt over the next three outcomes ends: all three elements show, or the page
      closes on one of them, or at least one does not show in time. */
  function Triple(script: seq<Outcome>): Outcome
  {
    if At(script, 0) == Visible && At(script, 1) == Visible && At(script, 2) == Visible then Visible
    else if At(script, 0) == Closed || At(script, 1) == Closed || At(script, 2) == Closed then Closed
    else NotYet
  }

  function AttemptLog(timeout: int): seq<Event>
  {
    [Wait(SuccessIcon, timeout), Wait(SuccessMessage, timeout), Wait(BeneficiaryMessage, timeout)]
  }

  /** The three waits of one attempt; true when all of them succeed. */
  function AttemptSpec(st: PageState, timeout: int): (PageState, bool)
  {
    var (s1, e1) := WaitStep(st, SuccessIcon, timeout);
    var (s2, e2) := WaitStep(s1, SuccessMessage, timeout);
    var (s3, e3) := WaitStep(s2, BeneficiaryMessage, timeout);
    (s3, e1.None? && e2.None? && e3.None?)
  }

  /** How many outcomes an attempt that closes the page takes: up to and including the first
      `Closed` one. */
  function ClosedAfter(script: seq<Outcome>): nat
  {
    if At(script, 0) == Closed then 1 else if At(script, 1) == Closed then 2 else 3
  }

  /** An attempt on an open page described by the outcomes it meets rather than step by step. */
  function AttemptResult(st: PageState, timeout: int): (PageState, bool)
  {
    var log := st.log + AttemptLog(timeout);
    if Triple(st.script) == Closed
    then (PageState(true, Drop(st.script, ClosedAfter(st.script)), log), false)
    else (st.(script := Drop(st.script, 3), log := log), Triple(st.script) == Visible)
  }

  /** On an open page the three waits of an attempt amount to `AttemptResult`: the attempt
      succeeds exactly when all three elements show, closes the page exactly when one of its
      outcomes is `Closed`, and logs its three waits with the same timeout. */
  lemma AttemptOutcome(st: PageState, timeout: int)
    requires !st.closed
    ensures AttemptSpec(st, timeout) == AttemptResult(st, timeout)
  {
    var (s1, e1) := WaitStep(st, SuccessIcon, timeout);
    var (s2, e2) := WaitStep(s1, SuccessMessage, timeout);
    var (s3, e3) := WaitStep(s2, BeneficiaryMessage, timeout);
    WaitStepOutcome(st, SuccessIcon, timeout);
    WaitStepOutcome(s1, SuccessMessage, timeout);
    WaitStepOutcome(s2, BeneficiaryMessage, timeout);
    assert s3.log == st.log + AttemptLog(timeout);
    AtRest(st.script, 0);
    AtRest(st.script, 1);
    AtRest(st.script, 2);
    AtRest(Rest(st.script), 0);
    AtRest(Rest(st.script), 1);
    AtRest(Rest(Rest(st.script)), 0);
    RestIsDrop(st.script);
    RestIsDrop(Rest(st.script));
    RestIsDrop(Rest(Rest(st.script)));
    DropDrop(st.script, 1, 1);
    DropDrop(st.script, 2, 1);
    assert !s1.closed ==> s1.script == Drop(st.script, 1);
    assert !s2.closed ==> s2.script == Drop(st.script, 2);
    assert !s3.closed ==> s3.script == Drop(st.script, 3);
  }

  // ---------------------------------------------------------------------------------------
  // waitForSuccessElementsWithRetry
  // ---------------------------------------------------------------------------------------

  /** `waitForSuccessElementsWithRetry` from attempt `k` on. */
  function SuccessRetrySpec(st: PageState, k: int, maxRetries: int, baseTimeout: int): (PageState, Option<Error>)
    decreases maxRetries - k + 1
  {
    if k > maxRetries then (st, None)
    else
      // A page closed before the attempt throws inside the `try`; the `catch` only logs it, so
      // it counts as one more failed attempt.
      var (s1, ok) := if st.closed then (st, false) else AttemptResult(st, baseTimeout);
      if ok then (s1, None)
      else if k == maxRetries then (s1, Some(Thrown(CouldNotFind(maxRetries))))
      else if s1.closed then (s1, Some(Thrown(RetryWaitClosed)))
      else
        var (s2, pe) := PauseStep(s1, 1000);
        if pe.Some? then (s2, Some(Thrown(RetryWaitClosed)))
        else SuccessRetrySpec(s2, k + 1, maxRetries, baseTimeout)
  }

  /** How many of the next `n` attempts time out before the first that does not. */
  function FirstSettledAttempt(script: seq<Outcome>, n: nat): (j: nat)
    ensures j <= n
    decreases n
  {
    if n == 0 || Triple(script) != NotYet then 0
    else 1 + FirstSettledAttempt(Drop(script, 3), n - 1)
  }

  /** The attempts before the `j`-th all time out, and the `j`-th, if it is among the `n`,
      does not. */
  lemma {:induction false} FirstSettledAttemptMeaning(script: seq<Outcome>, n: nat)
    ensures var j := FirstSettledAttempt(script, n);
      (forall i :: 0 <= i < j ==> Triple(Drop(script, 3 * i)) == NotYet) &&
      (j < n ==> Triple(Drop(script, 3 * j)) != NotYet)
    decreases n
  {
    assert Drop(script, 3 * 0) == script;
    if n > 0 && Triple(script) == NotYet {
      FirstSettledAttemptMeaning(Drop(script, 3), n - 1);
      var j := FirstSettledAttempt(script, n);
      forall i | 1 <= i < j ensures Triple(Drop(script, 3 * i)) == NotYet {
        DropDrop(script, 3, 3 * (i - 1));
      }
      DropDrop(script, 3, 3 * (j - 1));
    }
  }

  /** The events of `n` attempts: three waits each, a one-second pause between attempts. */
  function SuccessLog(baseTimeout: int, n: nat): seq<Event>
    decreases n
  {
    if n == 0 then []
    else if n == 1 then AttemptLog(baseTimeout)
    else AttemptLog(baseTimeout) + [Pause(1000)] + SuccessLog(baseTimeout, n - 1)
  }

  /** One attempt of the loop on an open page, by how it ends. */
  lemma {:induction false} SuccessRetryStep(st: PageState, k: int, maxRetries: int, baseTimeout: int)
    requires !st.closed && k <= maxRetries
    ensures var (s1, ok) := AttemptResult(st, baseTimeout);
      var r := SuccessRetrySpec(st, k, maxRetries, baseTimeout);
      (Triple(st.script) == Visible ==> r == (s1, None)) &&
      (Triple(st.script) != Visible && k == maxRetries ==> r == (s1, Some(Thrown(CouldNotFind(maxRetries))))) &&
      (Triple(st.script) == Closed && k < maxRetries ==> r == (s1, Some(Thrown(RetryWaitClosed)))) &&
      (Triple(st.script) == NotYet && k < maxRetries ==>
        !s1.closed && r == SuccessRetrySpec(s1.(log := s1.log + [Pause(1000)]), k + 1, maxRetries, baseTimeout))
  {
  }

  /** On an open page, from attempt `k` of `maxRetries`: let `j` be the number of attempts
      that time out before the first that does not. If in that attempt all three elements
      show, the call succeeds after exactly `j + 1` attempts; if the page closes during it,
      the call throws the retry-wait error (or, on the last attempt, the give-up error) and
      makes no further attempt; if all the remaining attempts time out it gives up with
      `Could not find success elements after <maxRetries> attempts`. */
  lemma SuccessRetryClosedForm(st: PageState, k: int, maxRetries: int, baseTimeout: int)
    requires !st.closed && 1 <= k <= maxRetries
    ensures var m := maxRetries - k + 1;
      var j := FirstSettledAttempt(st.script, m);
      var r := SuccessRetrySpec(st, k, maxRetries, baseTimeout);
      r.0.log == st.log + SuccessLog(baseTimeout, if j < m then j + 1 else m) &&
      (j < m && Triple(Drop(st.script, 3 * j)) == Visible ==> r.1 == None) &&
      (j < m && Triple(Drop(st.script, 3 * j)) == Closed ==>
        r.1 == Some(Thrown(if j + 1 == m then CouldNotFind(maxRetries) else RetryWaitClosed))) &&
      (j == m ==> r.1 == Some(Thrown(CouldNotFind(maxRetries))))
  {
    SuccessRetryLog(st, k, maxRetries, baseTimeout);
    SuccessRetryErrorIsScripted(st, k, maxRetries, baseTimeout);
    RetryErrorMeaning(st.script, maxRetries - k + 1, maxRetries);
  }

  /** The log half of `SuccessRetryClosedForm`. */
  lemma {:induction false} SuccessRetryLog(st: PageState, k: int, maxRetries: int, baseTimeout: int)
    requires !st.closed && 1 <= k <= maxRetries
    ensures var m := maxRetries - k + 1;
      var j := FirstSettledAttempt(st.script, m);
      SuccessRetrySpec(st, k, maxRetries, baseTimeout).0.log == st.log + SuccessLog(baseTimeout, if j < m then j + 1 else m)
    decreases maxRetries - k
  {
    var m := maxRetries - k + 1;
    SuccessRetryStep(st, k, maxRetries, baseTimeout);
    var s1 := AttemptResult(st, baseTimeout).0;
    assert s1.log == st.log + SuccessLog(baseTimeout, 1);
    if Triple(st.script) != NotYet {
      assert FirstSettledAttempt(st.script, m) == 0;
    } else if k == maxRetries {
      assert FirstSettledAttempt(st.script, m) == 1;
    } else {
      var s2 := s1.(log := s1.log + [Pause(1000)]);
      SuccessRetryLog(s2, k + 1, maxRetries, baseTimeout);
      var j' := FirstSettledAttempt(s2.script, m - 1);
      assert FirstSettledAttempt(st.script, m) == j' + 1;
      var tail := SuccessLog(baseTimeout, if j' < m - 1 then j' + 1 else m - 1);
      assert SuccessLog(baseTimeout, if j' + 1 < m then j' + 2 else m)
        == AttemptLog(baseTimeout) + [Pause(1000)] + tail;
      SeqAppendAssoc(st.log, AttemptLog(baseTimeout) + [Pause(1000)], tail);
      SeqAppendAssoc(st.log, AttemptLog(baseTimeout), [Pause(1000)]);
    }
  }

  /** What the error of the loop is, given how the next `m` attempts of `script` end. */
  predicate RetryErrorFits(e: Option<Error>, script: seq<Outcome>, m: nat, maxRetries: int)
  {
    var j := FirstSettledAttempt(script, m);
    (j < m && Triple(Drop(script, 3 * j)) == Visible ==> e == None) &&
    (j < m && Triple(Drop(script, 3 * j)) == Closed ==>
      e == Some(Thrown(if j + 1 == m then CouldNotFind(maxRetries) else RetryWaitClosed))) &&
    (j == m ==> e == Some(Thrown(CouldNotFind(maxRetries))))
  }

  /** A timed-out first attempt shifts the count by one. */
  lemma RetryErrorFitsShift(e: Option<Error>, script: seq<Outcome>, m: nat, maxRetries: int)
    requires m >= 2 && Triple(script) == NotYet && RetryErrorFits(e, Drop(script, 3), m - 1, maxRetries)
    ensures RetryErrorFits(e, script, m, maxRetries)
  {
    var j' := FirstSettledAttempt(Drop(script, 3), m - 1);
    assert FirstSettledAttempt(script, m) == j' + 1;
    DropDrop(script, 3, 3 * j');
  }

  /** The error the loop ends with, read off the script alone: the next attempt to show all
      three elements succeeds, the last attempt gives up, and an earlier one that closes the
      page throws the retry-wait error. */
  function RetryError(script: seq<Outcome>, m: nat, maxRetries: int): Option<Error>
    decreases m
  {
    if m == 0 || Triple(script) == Visible then None
    else if m == 1 then Some(Thrown(CouldNotFind(maxRetries)))
    else if Triple(script) == Closed then Some(Thrown(RetryWaitClosed))
    else RetryError(Drop(script, 3), m - 1, maxRetries)
  }

  /** The error of the loop from attempt `k` depends on the script alone. */
  lemma {:induction false} SuccessRetryErrorIsScripted(st: PageState, k: int, maxRetries: int, baseTimeout: int)
    requires !st.closed && 1 <= k <= maxRetries
    ensures SuccessRetrySpec(st, k, maxRetries, baseTimeout).1 == RetryError(st.script, maxRetries - k + 1, maxRetries)
    decreases maxRetries - k
  {
    if Triple(st.script) == NotYet && k < maxRetries {
      var s2 := SuccessRetryTimedOut(st, k, maxRetries, baseTimeout);
      SuccessRetryErrorIsScripted(s2, k + 1, maxRetries, baseTimeout);
    } else {
      SuccessRetryStep(st, k, maxRetries, baseTimeout);
    }
  }

  /** A timed-out attempt that is not the last leaves the loop to go on from the next one. */
  lemma SuccessRetryTimedOut(st: PageState, k: int, maxRetries: int, baseTimeout: int) returns (s2: PageState)
    requires !st.closed && k < maxRetries && Triple(st.script) == NotYet
    ensures !s2.closed && s2.script == Drop(st.script, 3)
    ensures SuccessRetrySpec(st, k, maxRetries, baseTimeout).1 == SuccessRetrySpec(s2, k + 1, maxRetries, baseTimeout).1
  {
    SuccessRetryStep(st, k, maxRetries, baseTimeout);
    var s1 := AttemptResult(st, baseTimeout).0;
    s2 := s1.(log := s1.log + [Pause(1000)]);
  }

  /** `RetryError` is the error the closed form describes. */
  lemma {:induction false} RetryErrorMeaning(script: seq<Outcome>, m: nat, maxRetries: int)
    requires m >= 1
    ensures RetryErrorFits(RetryError(script, m, maxRetries), script, m, maxRetries)
    decreases m
  {
    if Triple(script) != NotYet {
      assert Drop(script, 3 * 0) == script;
    } else if m >= 2 {
      RetryErrorMeaning(Drop(script, 3), m - 1, maxRetries);
      RetryErrorFitsShift(RetryError(script, m, maxRetries), script, m, maxRetries);
    }
  }

  /** On a closed page the attempt fails before any wait: the call gives up at once, with the
      give-up error on the last attempt and the retry-wait error otherwise. */
  lemma SuccessRetryOnClosedPage(st: PageState, k: int, maxRetries: int, baseTimeout: int)
    requires st.closed && 1 <= k <= maxRetries
    ensures SuccessRetrySpec(st, k, maxRetries, baseTimeout)
      == (st, Some(Thrown(if k == maxRetries then CouldNotFind(maxRetries) else RetryWaitClosed)))
  {
  }

  /** `b` is `a` followed by waits and pauses only. */
  predicate ExtendsWithoutProbes(a: seq<Event>, b: seq<Event>)
  {
    |a| <= |b| && b[..|a|] == a && forall i :: |a| <= i < |b| ==> !b[i].Probe?
  }

  lemma ExtendsByAppend(a: seq<Event>, e: seq<Event>)
    requires forall i :: 0 <= i < |e| ==> !e[i].Probe?
    ensures ExtendsWithoutProbes(a, a + e)
  {
    assert (a + e)[..|a|] == a;
  }

  lemma ExtendsTransitive(a: seq<Event>, b: seq<Event>, c: seq<Event>)
    requires ExtendsWithoutProbes(a, b) && ExtendsWithoutProbes(b, c)
    ensures ExtendsWithoutProbes(a, c)
  {
    assert c[..|a|] == c[..|b|][..|a|];
  }

  /** The retry loop only waits and pauses: it never probes an element. */
  lemma {:induction false} SuccessRetryOnlyWaits(st: PageState, k: int, maxRetries: int, baseTimeout: int)
    ensures ExtendsWithoutProbes(st.log, SuccessRetrySpec(st, k, maxRetries, baseTimeout).0.log)
    decreases maxRetries - k + 1
  {
    ExtendsByAppend(st.log, []);
    assert st.log + [] == st.log;
    if k <= maxRetries && !st.closed {
      SuccessRetryStep(st, k, maxRetries, baseTimeout);
      var s1 := AttemptResult(st, baseTimeout).0;
      ExtendsByAppend(st.log, AttemptLog(baseTimeout));
      if Triple(st.script) == NotYet && k < maxRetries {
        var s2 := s1.(log := s1.log + [Pause(1000)]);
        ExtendsByAppend(s1.log, [Pause(1000)]);
        ExtendsTransitive(st.log, s1.log, s2.log);
        SuccessRetryOnlyWaits(s2, k + 1, maxRetries, baseTimeout);
        ExtendsTransitive(st.log, s2.log, SuccessRetrySpec(s2, k + 1, maxRetries, baseTimeout).0.log);
      }
    }
  }

  // ---------------------------------------------------------------------------------------
  // Visibility checks
  // ---------------------------------------------------------------------------------------

  /** `checkIfElementsAlreadyVisible`: three probes, a failing probe counting as false. */
  function CheckAlreadyVisibleSpec(st: PageState): (PageState, bool)
  {
    if st.closed then (st, false)
    else
      var (s1, v1) := ProbeStep(st, SuccessIcon);
      var (s2, v2) := ProbeStep(s1, SuccessMessage);
      var (s3, v3) := ProbeStep(s2, BeneficiaryMessage);
      (s3, v1 == Success(true) && v2 == Success(true) && v3 == Success(true))
  }

  /** True exactly when the page is open and the three success elements are showing. */
  lemma CheckAlreadyVisibleIff(st: PageState)
    ensures CheckAlreadyVisibleSpec(st).1 <==>
      !st.closed && At(st.script, 0) == Visible && At(st.script, 1) == Visible && At(st.script, 2) == Visible
    ensures CheckAlreadyVisibleSpec(st).1 ==> (CheckAlreadyVisibleSpec(st).0 ==
      st.(script := Drop(st.script, 3),
          log := st.log + [Probe(SuccessIcon), Probe(SuccessMessage), Probe(BeneficiaryMessage)]))
  {
    if !st.closed {
      AtRest(st.script, 0);
      AtRest(st.script, 1);
      AtRest(Rest(st.script), 0);
      AtRest(Rest(st.script), 1);
      AtRest(Rest(Rest(st.script)), 0);
      RestIsDrop(st.script);
      RestIsDrop(Rest(st.script));
      RestIsDrop(Rest(Rest(st.script)));
      DropDrop(st.script, 1, 1);
      DropDrop(st.script, 2, 1);
    }
  }

  /** `verifySuccessPageReady`: the success message and the back-to-WhatsApp button must both
      be showing; a page that is or becomes closed gives the page-closed error. A probe fails
      only on a closed page, so the re-thrown error of an open page is always the not-ready
      one. */
  function VerifySpec(st: PageState): (PageState, Option<Error>)
  {
    if st.closed then (st, Some(Thrown(ClosedDuringVerification)))
    else
      var (s1, v1) := ProbeStep(st, SuccessMessage);
      var (s2, v2) := ProbeStep(s1, BackToWhatsApp);
      if v1 == Success(true) && v2 == Success(true) then (s2, None)
      else if s2.closed then (s2, Some(Thrown(ClosedDuringVerification)))
      else (s2, Some(Thrown(NotReady)))
  }

  /** Verification passes exactly when the page is open and both checks show; it reports the
      closed page when the page is or becomes closed, and otherwise that the page is not
      ready. */
  lemma VerifyOutcome(st: PageState)
    ensures VerifySpec(st).1.None? <==> !st.closed && At(st.script, 0) == Visible && At(st.script, 1) == Visible
    ensures VerifySpec(st).1 == Some(Thrown(ClosedDuringVerification)) <==>
      st.closed || At(st.script, 0) == Closed || At(st.script, 1) == Closed
    ensures VerifySpec(st).1.Some? && VerifySpec(st).1 != Some(Thrown(ClosedDuringVerification)) ==>
      VerifySpec(st).1 == Some(Thrown(NotReady))
  {
    if !st.closed {
      AtRest(st.script, 0);
      AtRest(st.script, 1);
    }
  }

  // ---------------------------------------------------------------------------------------
  // waitForSuccessPage
  // ---------------------------------------------------------------------------------------

  /** The `try` block of `waitForSuccessPage`. */
  function SuccessPageBody(st: PageState, timeout: int): (PageState, Option<Error>)
  {
    if st.closed then (st, Some(Thrown(ClosedBeforeSuccessWait)))
    else
      var (s1, e1) := WaitStep(st, Url, timeout);
      if e1.Some? then (s1, e1)
      else if s1.closed then (s1, Some(Thrown(ClosedAfterUrl)))
      else
        var (s2, already) := CheckAlreadyVisibleSpec(s1);
        if already then VerifySpec(s2)
        else
          var (s3, e3) := WaitStep(s2, DomContentLoaded, 3000);
          if e3.Some? then (s3, e3)
          else if s3.closed then (s3, Some(Thrown(ClosedAfterDom)))
          else
            var (s4, e4) := SuccessRetrySpec(s3, 1, DefaultRetries, DefaultRetryTimeout);
            if e4.Some? then (s4, e4) else VerifySpec(s4)
  }

  /** `waitForSuccessPage`: the `try` block, and on any error one recovery run of the retry
      loop when the page is still open. */
  function WaitForSuccessPageSpec(st: PageState, timeout: int): (PageState, Option<Error>)
  {
    var (sb, eb) := SuccessPageBody(st, timeout);
    if eb.None? then (sb, None)
    else if !sb.closed then SuccessRetrySpec(sb, 1, DefaultRetries, DefaultRetryTimeout)
    else (sb, Some(Thrown(ClosedDuringSuccessWait)))
  }

  /** Fast path: when the URL arrives and the three success elements and the two final checks
      are already showing, the call succeeds after the URL wait and five probes, with no DOM
      wait and no retry loop. */
  lemma FastPath(st: PageState, timeout: int)
    requires !st.closed
    requires forall i :: 0 <= i < 6 ==> At(st.script, i) == Visible
    ensures WaitForSuccessPageSpec(st, timeout).1 == None
    ensures WaitForSuccessPageSpec(st, timeout).0.log == st.log +
      [Wait(Url, timeout), Probe(SuccessIcon), Probe(SuccessMessage), Probe(BeneficiaryMessage),
       Probe(SuccessMessage), Probe(BackToWhatsApp)]
  {
    var (s1, e1) := WaitStep(st, Url, timeout);
    AtRest(st.script, 0);
    RestIsDrop(st.script);
    assert s1.script == Drop(st.script, 1);
    DropAt(st.script, 1, 0);
    DropAt(st.script, 1, 1);
    DropAt(st.script, 1, 2);
    CheckAlreadyVisibleIff(s1);
    var (s2, already) := CheckAlreadyVisibleSpec(s1);
    DropDrop(st.script, 1, 3);
    DropAt(st.script, 4, 0);
    DropAt(st.script, 4, 1);
    VerifyOutcome(s2);
    var (s5, e5) := VerifySpec(s2);
    assert s5.log == s2.log + [Probe(SuccessMessage), Probe(BackToWhatsApp)];
  }

  /** After any error on an open page the call's outcome is that of one more run of the retry
      loop, which only waits, so a recovery that succeeds returns without verifying again; on
      a closed page the call reports the closed page. */
  lemma CatchPath(st: PageState, timeout: int)
    ensures var (sb, eb) := SuccessPageBody(st, timeout);
      var r := WaitForSuccessPageSpec(st, timeout);
      eb.Some? && !sb.closed ==>
        r == SuccessRetrySpec(sb, 1, DefaultRetries, DefaultRetryTimeout) && ExtendsWithoutProbes(sb.log, r.0.log)
    ensures var (sb, eb) := SuccessPageBody(st, timeout);
      eb.Some? && sb.closed ==> WaitForSuccessPageSpec(st, timeout) == (sb, Some(Thrown(ClosedDuringSuccessWait)))
  {
    var (sb, eb) := SuccessPageBody(st, timeout);
    SuccessRetryOnlyWaits(sb, 1, DefaultRetries, DefaultRetryTimeout);
  }

  /** On a page that is already closed nothing is waited for or probed. */
  lemma ClosedPageFailsAtOnce(st: PageState, timeout: int)
    requires st.closed
    ensures WaitForSuccessPageSpec(st, timeout) == (st, Some(Thrown(ClosedDuringSuccessWait)))
  {
  }

  class PaymentStatusPage {
    const page: Page

    constructor(page: Page)
      ensures this.page == page
    {
      this.page := page;
    }

    method WaitForSuccessElements(timeout: int) returns (ok: bool)
      modifies page
      ensures (page.State(), ok) == AttemptSpec(old(page.State()), timeout)
    {
      var e1 := page.WaitFor(SuccessIcon, timeout);
      var e2 := page.WaitFor(SuccessMessage, timeout);
      var e3 := page.WaitFor(BeneficiaryMessage, timeout);
      ok := e1.None? && e2.None? && e3.None?;
    }

    method WaitForSuccessElementsWithRetry(maxRetries: int, baseTimeout: int) returns (e: Option<Error>)
      modifies page
      ensures (page.State(), e) == SuccessRetrySpec(old(page.State()), 1, maxRetries, baseTimeout)
    {
      var attempt := 1;
      while attempt <= maxRetries
        invariant attempt >= 1
        invariant SuccessRetrySpec(old(page.State()), 1, maxRetries, baseTimeout)
          == SuccessRetrySpec(page.State(), attempt, maxRetries, baseTimeout)
        decreases maxRetries - attempt
      {
        var ok := false;
        if !page.IsClosed() {
          AttemptOutcome(page.State(), baseTimeout);
          ok := WaitForSuccessElements(baseTimeout);
        }
        if ok {
          return None;
        }
        if attempt == maxRetries {
          return Some(Thrown(CouldNotFind(maxRetries)));
        }
        if page.IsClosed() {
          return Some(Thrown(RetryWaitClosed));
        }
        var pe := page.WaitForTimeout(1000);
        if pe.Some? {
          return Some(Thrown(RetryWaitClosed));
        }
        attempt := attempt + 1;
      }
      return None;
    }

    method CheckIfElementsAlreadyVisible() returns (visible: bool)
      modifies page
      ensures (page.State(), visible) == CheckAlreadyVisibleSpec(old(page.State()))
    {
      if page.IsClosed() {
        return false;
      }
      var v1 := page.IsVisible(SuccessIcon);
      var v2 := page.IsVisible(SuccessMessage);
      var v3 := page.IsVisible(BeneficiaryMessage);
      visible := v1 == Success(true) && v2 == Success(true) && v3 == Success(true);
    }

    method VerifySuccessPageReady() returns (e: Option<Error>)
      modifies page
      ensures (page.State(), e) == VerifySpec(old(page.State()))
    {
      if page.IsClosed() {
        return Some(Thrown(ClosedDuringVerification));
      }
      var v1 := page.IsVisible(SuccessMessage);
      var v2 := page.IsVisible(BackToWhatsApp);
      if v1 == Success(true) && v2 == Success(true) {
        return None;
      }
      if page.IsClosed() {
        return Some(Thrown(ClosedDuringVerification));
      }
      return Some(Thrown(NotReady));
    }

    /** The `try` block. */
    method SuccessPageAttempt(timeout: int) returns (e: Option<Error>)
      modifies page
      ensures (page.State(), e) == SuccessPageBody(old(page.State()), timeout)
    {
      if page.IsClosed() {
        return Some(Thrown(ClosedBeforeSuccessWait));
      }
      e := page.WaitFor(Url, timeout);
      if e.Some? {
        return;
      }
      if page.IsClosed() {
        return Some(Thrown(ClosedAfterUrl));
      }
      var already := CheckIfElementsAlreadyVisible();
      if already {
        e := VerifySuccessPageReady();
        return;
      }
      e := page.WaitFor(DomContentLoaded, 3000);
      if e.Some? {
        return;
      }
      if page.IsClosed() {
        return Some(Thrown(ClosedAfterDom));
      }
      e := WaitForSuccessElementsWithRetry(DefaultRetries, DefaultRetryTimeout);
      if e.Some? {
        return;
      }
      e := VerifySuccessPageReady();
    }

    method WaitForSuccessPage(timeout: int) returns (e: Option<Error>)
      modifies page
      ensures (page.State(), e) == WaitForSuccessPageSpec(old(page.State()), timeout)
    {
      e := SuccessPageAttempt(timeout);
      if e.None? {
        return;
      }
      if !page.IsClosed() {
        e := WaitForSuccessElementsWithRetry(DefaultRetries, DefaultRetryTimeout);
      } else {
        e := Some(Thrown(ClosedDuringSuccessWait));
      }
    }
  }
}
