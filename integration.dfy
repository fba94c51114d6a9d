/**
 * The command-line scripts that chain the pieces together. An integration run creates an
 * order by running the order-creation script, extracts the order id from its output,
 * rewrites the fixture file with it, waits for the order to be ready and runs the Playwright
 * suite; any step that throws ends the run with exit code 1. The hardcoded run rewrites the
 * cash fixture with a fixed order and runs the suite; the real-order run takes the id from
 * its command line (or from a simulated log) and only rewrites the fixture.
 *
 * Each child process (`execSync`) is an oracle: it either returns its output or throws an
 * error whose `message` may be missing. The delay and the console output are not modelled.
 */
module Integration {
  import opened Wrappers
  import opened JsText
  import opened Uuid
  import opened OrderIdExtraction
  import opened OrderLogSamples
  import opened FixtureSync

  /** What one `execSync` call did. */
  datatype Command = Ran(output: string) | Threw(message: Option<string>)

  /** The steps of a run, in the order the scripts number them. */
  datatype Step = CreateOrder | ExtractId | UpdateFixtures | AwaitOrderReady | RunTests

  /** A finished run: the fixture file's text afterwards, the steps it entered, the
      classification of the test run when it got that far, and the process exit code. */
  datatype Run = Run(content: string, steps: seq<Step>, testsPassed: Option<bool>, exitCode: int)

  const AllSteps := [CreateOrder, ExtractId, UpdateFixtures, AwaitOrderReady, RunTests]

  const CommandFailedPhrase := "Command failed"
  const ExitCodePhrase := "exit code"

  // ---------------------------------------------------------------------------------------
  // Classification of a test run
  // ---------------------------------------------------------------------------------------

  /** `error.message || ''`. */
  function ErrorMessage(message: Option<string>): string
  {
    match message
    case Some(m) => m
    case None => ""
  }

  /** The message names a problem running Playwright rather than a failed test. */
  predicate ExecutionIssue(message: string)
  {
    Includes(message, CommandFailedPhrase) || Includes(message, ExitCodePhrase)
  }

  /** `runCashPaymentTests` / `runPlaywrightTests`: a suite that exits normally passed; a
      thrown error counts as passed when its message mentions a command failure or an exit
      code, and as failed otherwise. */
  predicate TestRunPassed(tests: Command)
  {
    match tests
    case Ran(_) => true
    case Threw(message) => ExecutionIssue(ErrorMessage(message))
  }

  /** The pattern's characters are in any text that includes it. */
  lemma IncludedChars(s: string, p: string, k: nat)
    requires Includes(s, p) && k < |p|
    ensures p[k] in s
  {
    var i: nat :| i <= |s| - |p| && OccursAt(s, i, p);
    OccursAtChars(s, i, p);
    assert s[i + k] == p[k];
  }

  /** A text that starts with `pre`, then the pattern, includes the pattern. */
  lemma IncludedAfter(pre: string, p: string, post: string)
    ensures Includes(pre + p + post, p)
  {
    var s := pre + p + post;
    assert s[|pre|..|pre| + |p|] == p;
    assert OccursAt(s, |pre|, p);
  }

  /** A suite that threw without a message, or with an empty one, failed. */
  lemma NoMessageMeansFailure(message: Option<string>)
    requires message.None? || message == Some("")
    ensures !TestRunPassed(Threw(message))
  {
  }

  /** Either phrase anywhere in the message makes the run count as passed. */
  lemma PhraseAnywherePasses(pre: string, post: string)
    ensures TestRunPassed(Threw(Some(pre + CommandFailedPhrase + post)))
    ensures TestRunPassed(Threw(Some(pre + ExitCodePhrase + post)))
  {
    IncludedAfter(pre, CommandFailedPhrase, post);
    IncludedAfter(pre, ExitCodePhrase, post);
  }

  /** A message without a `C` and without an `x` holds neither phrase: the run failed. */
  lemma MessageWithoutPhrasesFails(message: string)
    requires 'C' !in message && 'x' !in message
    ensures !TestRunPassed(Threw(Some(message)))
  {
    if Includes(message, CommandFailedPhrase) {
      IncludedChars(message, CommandFailedPhrase, 0);
    }
    if Includes(message, ExitCodePhrase) {
      IncludedChars(message, ExitCodePhrase, 1);
    }
  }

  // ---------------------------------------------------------------------------------------
  // The integration runs (`cash-payment-integration.js`, `integration-test.js`)
  // ---------------------------------------------------------------------------------------

  /** Which fixture updater a run calls: `updateCashPaymentTestData` or `updateTestData`. */
  datatype Updater = CashFixtures | PaymentFixtures

  /** The text an updater writes for a valid id. */
  function Rewrite(u: Updater, content: string, id: string): string
  {
    match u
    case CashFixtures => CashRewrite(content, id)
    case PaymentFixtures => TestDataRewrite(content, id)
  }

  /** The fixture text and the result after calling the updater, as its methods on
      `FixtureFile` state them. */
  function UpdateOutcome(u: Updater, content: string, id: string): (string, Result<(), string>)
  {
    if !IsUuid(id) then (content, Failure(InvalidIdError(id)))
    else
      var c := Rewrite(u, content, id);
      match u
      case CashFixtures => (c, CashCheck(c, id))
      case PaymentFixtures => (c, TestDataCheck(c, id))
  }

  /** `main` of an integration script, given what the order-creation command and the test
      command do. */
  function IntegrationRun(u: Updater, content: string, create: Command, tests: Command): Run
  {
    if create.Threw? then Run(content, [CreateOrder], None, 1)
    else AfterCreation(u, content, ExtractOrderId(create.output), tests)
  }

  /** The rest of the run once the order-creation command has returned and the extraction
      has given `extracted`. */
  function AfterCreation(u: Updater, content: string, extracted: Result<string, string>, tests: Command): Run
  {
    match extracted
    case Failure(_) => Run(content, [CreateOrder, ExtractId], None, 1)
    case Success(id) =>
      var (c, r) := UpdateOutcome(u, content, id);
      if r.Failure? then Run(c, [CreateOrder, ExtractId, UpdateFixtures], None, 1)
      else Run(c, AllSteps, Some(TestRunPassed(tests)), 0)
  }

  /** The steps a run entered are a non-empty prefix of the five, in order; it exits with 0
      exactly when it entered all five, and then (and only then) it classified the tests. */
  predicate StepsInOrder(r: Run)
  {
    1 <= |r.steps| <= |AllSteps| && r.steps == AllSteps[..|r.steps|] &&
    (r.exitCode == 0 || r.exitCode == 1) &&
    (r.exitCode == 0 <==> r.steps == AllSteps) &&
    (r.testsPassed.Some? <==> r.exitCode == 0) &&
    (RunTests in r.steps <==> r.exitCode == 0)
  }

  lemma AfterCreationStepsInOrder(u: Updater, content: string, extracted: Result<string, string>, tests: Command)
    ensures StepsInOrder(AfterCreation(u, content, extracted, tests))
  {
    var r := AfterCreation(u, content, extracted, tests);
    if extracted.Failure? || UpdateOutcome(u, content, extracted.value).1.Failure? {
      assert RunTests !in r.steps;
    }
  }

  lemma IntegrationStepsInOrder(u: Updater, content: string, create: Command, tests: Command)
    ensures StepsInOrder(IntegrationRun(u, content, create, tests))
  {
    if create.Ran? {
      AfterCreationStepsInOrder(u, content, ExtractOrderId(create.output), tests);
    } else {
      assert RunTests !in [CreateOrder];
    }
  }

  /** A run exits with 0 exactly when the order was created, an id was found in its output
      and the updater's checks passed; then the fixture holds the rewrite for that id and
      the classification is that of the test command. */
  lemma IntegrationCompletesIff(u: Updater, content: string, create: Command, tests: Command)
    ensures var r := IntegrationRun(u, content, create, tests);
      r.exitCode == 0 <==>
        create.Ran? && ExtractOrderId(create.output).Success? &&
        UpdateOutcome(u, content, ExtractOrderId(create.output).value).1.Success?
    ensures var r := IntegrationRun(u, content, create, tests);
      r.exitCode == 0 ==>
        r.content == Rewrite(u, content, ExtractOrderId(create.output).value) &&
        r.testsPassed == Some(TestRunPassed(tests))
  {
    if create.Ran? && ExtractOrderId(create.output).Success? {
      ExtractOrderIdIsUuid(create.output);
    }
  }

  /** Failed tests do not fail the run: the exit code does not depend on the test command. */
  lemma TestsNeverSetTheExitCode(u: Updater, content: string, create: Command, tests1: Command, tests2: Command)
    ensures IntegrationRun(u, content, create, tests1).exitCode == IntegrationRun(u, content, create, tests2).exitCode
    ensures IntegrationRun(u, content, create, tests1).content == IntegrationRun(u, content, create, tests2).content
  {
  }

  /** When the order cannot be created, or no id can be found in the output, the fixture
      file is left alone, no update is attempted and the run exits with 1. */
  lemma EarlyFailureKeepsFixtures(u: Updater, content: string, create: Command, tests: Command)
    requires create.Threw? || ExtractOrderId(create.output).Failure?
    ensures var r := IntegrationRun(u, content, create, tests);
      r.content == content && UpdateFixtures !in r.steps && r.exitCode == 1 &&
      r.steps == (if create.Threw? then [CreateOrder] else [CreateOrder, ExtractId])
  {
  }

  /** The id a run extracts is always a UUID, so the updater's validation never rejects it:
      the update step is entered and the fixture is rewritten with the id whether or not the
      checks after the write pass, and the cash rewrite leaves no `placeholder` behind. */
  lemma ExtractedIdIsNeverRejected(u: Updater, content: string, create: Command, tests: Command)
    requires create.Ran? && ExtractOrderId(create.output).Success?
    ensures var id := ExtractOrderId(create.output).value;
      var r := IntegrationRun(u, content, create, tests);
      IsUuid(id) && UpdateFixtures in r.steps &&
      r.content == Rewrite(u, content, id) &&
      (u == CashFixtures ==> !Includes(r.content, Placeholder))
  {
    var id := ExtractOrderId(create.output).value;
    ExtractOrderIdIsUuid(create.output);
    CashRewriteLeavesNoPlaceholder(content, id);
  }

  /** The updater the run is configured with, on the fixture file. */
  method Update(u: Updater, file: FixtureFile, id: string) returns (r: Result<(), string>)
    modifies file
    ensures (file.content, r) == UpdateOutcome(u, old(file.content), id)
  {
    match u {
      case CashFixtures => r := file.UpdateCashPaymentTestData(id);
      case PaymentFixtures => r := file.UpdateTestData(id);
    }
  }

  /** `main` of `cash-payment-integration.js` (with the cash updater) or of
      `integration-test.js` (with the payment updater), on the fixture file. */
  method RunIntegration(u: Updater, file: FixtureFile, create: Command, tests: Command)
      returns (steps: seq<Step>, testsPassed: Option<bool>, exitCode: int)
    modifies file
    ensures Run(file.content, steps, testsPassed, exitCode) == IntegrationRun(u, old(file.content), create, tests)
  {
    ghost var content := file.content;
    steps := [CreateOrder];
    if create.Threw? {
      return steps, None, 1;
    }
    steps := [CreateOrder, ExtractId];
    var id := ExtractOrderId(create.output);
    assert IntegrationRun(u, content, create, tests) == AfterCreation(u, content, id, tests);
    if id.Failure? {
      return steps, None, 1;
    }
    steps := [CreateOrder, ExtractId, UpdateFixtures];
    var r := Update(u, file, id.value);
    if r.Failure? {
      return steps, None, 1;
    }
    steps := AllSteps;
    var passed := TestRunPassed(tests);
    return steps, Some(passed), 0;
  }

  // ---------------------------------------------------------------------------------------
  // The hardcoded-order run (`cash-payment-test-hardcoded.js`)
  // ---------------------------------------------------------------------------------------

  /** `main` of the hardcoded-order script: rewrite with the fixed order, then run the suite. */
  function HardcodedRun(content: string, tests: Command): Run
  {
    var c := HardcodedRewrite(content);
    var r := ReturningId(CashCheck(c, HardcodedOrderId), HardcodedOrderId);
    if r.Failure? then Run(c, [UpdateFixtures], None, 1)
    else Run(c, [UpdateFixtures, RunTests], Some(TestRunPassed(tests)), 0)
  }

  /** The fixture is always rewritten with the fixed order; the run exits with 0 exactly when
      the checks after the write pass, and the tests are then run and classified. */
  lemma HardcodedRunOutcome(content: string, tests: Command)
    ensures var r := HardcodedRun(content, tests);
      r.content == HardcodedRewrite(content) &&
      (r.exitCode == 0 <==> CashCheck(HardcodedRewrite(content), HardcodedOrderId).Success?) &&
      (r.exitCode == 0 ==> r.steps == [UpdateFixtures, RunTests] && r.testsPassed == Some(TestRunPassed(tests))) &&
      (r.exitCode != 0 ==> r.exitCode == 1 && r.steps == [UpdateFixtures] && r.testsPassed.None?)
  {
  }

  method RunHardcoded(file: FixtureFile, tests: Command) returns (steps: seq<Step>, testsPassed: Option<bool>, exitCode: int)
    modifies file
    ensures Run(file.content, steps, testsPassed, exitCode) == HardcodedRun(old(file.content), tests)
  {
    steps := [UpdateFixtures];
    var r := file.UpdateWithHardcodedOrder();
    if r.Failure? {
      return steps, None, 1;
    }
    steps := steps + [RunTests];
    var passed := TestRunPassed(tests);
    return steps, Some(passed), 0;
  }

  // ---------------------------------------------------------------------------------------
  // The real-order run (`update-cash-payment-order.js`)
  // ---------------------------------------------------------------------------------------

  /** A finished real-order run: the fixture text, the id it used (when it got one) and the
      exit code. */
  datatype RealOrderRun = RealOrderRun(content: string, orderId: Option<string>, exitCode: int)

  /** The id the script works with: a non-empty command-line argument as given, otherwise
      the id extracted from the simulated creation log. */
  function ChosenOrderId(arg: Option<string>): Result<string, string>
  {
    if arg.Some? && arg.value != "" then Success(arg.value)
    else ExtractOrderIdFromLog(SimulateOrderCreationLog())
  }

  /** `main` of the real-order script. */
  function RealOrderMain(content: string, arg: Option<string>): RealOrderRun
  {
    match ChosenOrderId(arg)
    case Failure(_) => RealOrderRun(content, None, 1)
    case Success(id) =>
      if !IsUuid(id) then RealOrderRun(content, Some(id), 1)
      else
        var c := RealOrderRewrite(content, id);
        RealOrderRun(c, Some(id), if ReturningId(CashCheck(c, id), id).Failure? then 1 else 0)
  }

  /** Without an argument (or with an empty one) the script uses the mock order of the
      simulated log and rewrites the fixture with it. */
  lemma RealOrderWithoutArgumentUsesMock(content: string, arg: Option<string>)
    requires arg.None? || arg == Some("")
    ensures var r := RealOrderMain(content, arg);
      r.orderId == Some(MockOrderId) && r.content == RealOrderRewrite(content, MockOrderId) &&
      !Includes(r.content, Placeholder)
  {
    SimulatedLogYieldsMockId();
    MockOrderIdIsUuid();
    RealOrderRewriteLeavesNoPlaceholder(content, MockOrderId);
  }

  /** A non-empty argument that is not a UUID is rejected: the fixture is left alone and the
      run exits with 1. */
  lemma RealOrderRejectsMalformedArgument(content: string, a: string)
    requires a != "" && !IsUuid(a)
    ensures RealOrderMain(content, Some(a)) == RealOrderRun(content, Some(a), 1)
  {
  }

  /** A UUID argument is used as given: the fixture is rewritten with it, holds no
      `placeholder` afterwards, and the run exits with 0 exactly when the cash checks pass. */
  lemma RealOrderAcceptsUuidArgument(content: string, a: string)
    requires IsUuid(a)
    ensures var r := RealOrderMain(content, Some(a));
      r.orderId == Some(a) && r.content == RealOrderRewrite(content, a) &&
      !Includes(r.content, Placeholder) &&
      (r.exitCode == 0 <==> CashCheck(r.content, a).Success?)
  {
    RealOrderRewriteLeavesNoPlaceholder(content, a);
  }

  method RunRealOrder(file: FixtureFile, arg: Option<string>) returns (orderId: Option<string>, exitCode: int)
    modifies file
    ensures RealOrderRun(file.content, orderId, exitCode) == RealOrderMain(old(file.content), arg)
  {
    var id: Result<string, string>;
    if arg.Some? && arg.value != "" {
      id := Success(arg.value);
    } else {
      var mockLog := SimulateOrderCreationLog();
      id := ExtractOrderIdFromLog(mockLog);
    }
    if id.Failure? {
      return None, 1;
    }
    var r := file.UpdateWithRealOrder(id.value);
    if r.Failure? {
      return Some(id.value), 1;
    }
    return Some(id.value), 0;
  }
}
