/**
 * The browser page as the page objects see it, modelled as an oracle. Each wait or visibility
 * probe takes the next outcome from a script (`Visible`, `NotYet`, or `Closed`, after which the
 * page stays closed; an exhausted script keeps answering `NotYet`), and every wait, probe and
 * pause is appended to a log. Whether the page is closed is a state bit that `isClosed()`
 * reads. Real time is not modelled: a wait that does not see its element is a timeout.
 */
module Browser {
  import opened Wrappers

  datatype Outcome = Visible | NotYet | Closed

  /** What a wait is for: an element (by its name), the page URL, or the DOM load state. */
  datatype Target = Element(name: string) | Url | DomContentLoaded

  datatype Event = Wait(target: Target, timeout: int) | Probe(target: Target) | Pause(ms: int)

  /** A Playwright timeout, a Playwright "target closed" error, or an error the page objects
      throw themselves, given by its message. */
  datatype Error = Timeout(target: Target, timeout: int) | TargetClosed | Thrown(message: string)

  datatype PageState = PageState(closed: bool, script: seq<Outcome>, log: seq<Event>)

  function Next(script: seq<Outcome>): Outcome
  {
    if |script| == 0 then NotYet else script[0]
  }

  function Rest(script: seq<Outcome>): seq<Outcome>
  {
    if |script| == 0 then [] else script[1..]
  }

  /** The `j`-th outcome the script will give. */
  function At(script: seq<Outcome>, j: nat): Outcome
  {
    if j < |script| then script[j] else NotYet
  }

  lemma AtRest(script: seq<Outcome>, j: nat)
    ensures At(Rest(script), j) == At(script, j + 1)
    ensures At(script, 0) == Next(script)
  {
  }

  /** How many of the next `n` outcomes come before the first one that is not `NotYet`
      (`n` when all of them are `NotYet`). */
  function FirstSettled(script: seq<Outcome>, n: nat): (j: nat)
    ensures j <= n
    ensures forall i :: 0 <= i < j ==> At(script, i) == NotYet
    ensures j < n ==> At(script, j) != NotYet
    decreases n
  {
    if n == 0 || Next(script) != NotYet then 0
    else
      var j := 1 + FirstSettled(Rest(script), n - 1);
      assert forall i :: 1 <= i < j ==> At(script, i) == At(Rest(script), i - 1);
      j
  }

  /** One `locator.waitFor` or `page.waitForURL`/`waitForLoadState`. On a closed page it fails
      at once; otherwise it takes the next outcome. */
  function WaitStep(st: PageState, target: Target, timeout: int): (PageState, Option<Error>)
  {
    var log := st.log + [Wait(target, timeout)];
    if st.closed then (st.(log := log), Some(TargetClosed))
    else
      var st' := st.(script := Rest(st.script), log := log);
      match Next(st.script)
      case Visible => (st', None)
      case NotYet => (st', Some(Timeout(target, timeout)))
      case Closed => (st'.(closed := true), Some(TargetClosed))
  }

  /** A wait is logged; on a closed page it fails and changes nothing else; on an open page
      it takes one outcome, succeeds exactly on `Visible`, times out on `NotYet`, and closes
      the page on `Closed`. */
  lemma WaitStepOutcome(st: PageState, target: Target, timeout: int)
    ensures var r := WaitStep(st, target, timeout);
      r.0.log == st.log + [Wait(target, timeout)] &&
      (st.closed ==> r == (st.(log := r.0.log), Some(TargetClosed))) &&
      (!st.closed ==> r.0.script == Rest(st.script) && (r.0.closed <==> Next(st.script) == Closed)) &&
      (!st.closed ==> (r.1.None? <==> Next(st.script) == Visible)) &&
      (!st.closed && Next(st.script) == NotYet ==> r.1 == Some(Timeout(target, timeout))) &&
      (!st.closed && Next(st.script) == Closed ==> r.1 == Some(TargetClosed))
  {
  }

  /** One `locator.isVisible()`: true or false on an open page; it throws on a closed page and
      on the page closing. */
  function ProbeStep(st: PageState, target: Target): (PageState, Result<bool, Error>)
  {
    var log := st.log + [Probe(target)];
    if st.closed then (st.(log := log), Failure(TargetClosed))
    else
      var st' := st.(script := Rest(st.script), log := log);
      match Next(st.script)
      case Visible => (st', Success(true))
      case NotYet => (st', Success(false))
      case Closed => (st'.(closed := true), Failure(TargetClosed))
  }

  /** A probe is logged; it is true exactly on an open page whose next outcome is `Visible`,
      and it fails exactly when the page is closed after it. */
  lemma ProbeStepOutcome(st: PageState, target: Target)
    ensures var r := ProbeStep(st, target);
      r.0.log == st.log + [Probe(target)] &&
      (r.1 == Success(true) <==> !st.closed && Next(st.script) == Visible) &&
      (r.1.Failure? <==> r.0.closed) &&
      (r.1.Failure? ==> r.1.error == TargetClosed) &&
      (st.closed ==> r.0 == st.(log := r.0.log)) &&
      (!st.closed ==> r.0.script == Rest(st.script))
  {
  }

  /** One `page.waitForTimeout(ms)`: it fails on a closed page. */
  function PauseStep(st: PageState, ms: int): (r: (PageState, Option<Error>))
    ensures st.closed ==> r == (st, Some(TargetClosed))
    ensures !st.closed ==> r == (st.(log := st.log + [Pause(ms)]), None)
  {
    if st.closed then (st, Some(TargetClosed)) else (st.(log := st.log + [Pause(ms)]), None)
  }

  class Page {
    var closed: bool
    var script: seq<Outcome>
    var log: seq<Event>

    constructor(script: seq<Outcome>)
      ensures State() == PageState(false, script, [])
    {
      closed := false;
      this.script := script;
      log := [];
    }

    function State(): PageState
      reads this
    {
      PageState(closed, script, log)
    }

    predicate IsClosed()
      reads this
    {
      closed
    }

    method WaitFor(target: Target, timeout: int) returns (e: Option<Error>)
      modifies this
      ensures (State(), e) == WaitStep(old(State()), target, timeout)
    {
      var r := WaitStep(State(), target, timeout);
      closed, script, log := r.0.closed, r.0.script, r.0.log;
      e := r.1;
    }

    method IsVisible(target: Target) returns (v: Result<bool, Error>)
      modifies this
      ensures (State(), v) == ProbeStep(old(State()), target)
    {
      var r := ProbeStep(State(), target);
      closed, script, log := r.0.closed, r.0.script, r.0.log;
      v := r.1;
    }

    method WaitForTimeout(ms: int) returns (e: Option<Error>)
      modifies this
      ensures (State(), e) == PauseStep(old(State()), ms)
    {
      var r := PauseStep(State(), ms);
      closed, script, log := r.0.closed, r.0.script, r.0.log;
      e := r.1;
    }
  }
}
