# Order-id provisioning, token cache and page waits of the payment QA suite

This project models the logic core of an end-to-end QA repository for a remittance web
application (bank-card and cash payment flows) and proves properties of it in Dafny.
The core has five parts:

- **Order-id provisioning pipeline.** The command-line scripts create a test order and
  capture what the order-creation command prints. They extract the order id from that text
  with a prioritised multi-pass search: a JSON `"orderId"` value, then a `Result:` line, then
  an `Order ID:` label, and last the first UUID anywhere. A second extractor uses a different
  order of passes. The scripts then rewrite the fixture file with the id:
  - they drop `, Workflow ID: <uuid>` annotations;
  - they put the id in place of every UUID and of every `placeholder`;
  - they re-read the file to check the id and the payment URLs.
  The test suite's outcome is classified, and the steps run in a fixed order with exit code 1
  on any thrown step.
- **Test-data records.** These are the records the rewriting targets: the cash payment
  record, whose four URLs embed its order id, and the card payment record, whose URLs are
  fixed. The project also models their defaults, the cash-code expectations and the homepage
  URL pattern.
- **Token cache of the Overseer client.** ID tokens are cached per
  `serviceName_audience` key for one hour, with the strict `now >= expiresAt` expiry test.
  The project also models the two helpers the client declares: the time-to-expiry computation
  and the base64 token id.
- **Order document builder.** A fixed mapping of the order-creation data onto the Overseer
  order document, with constant enum codes and a single shared timestamp.
- **Page wait and retry control flow.**
  - `waitForElement` refuses a closed page.
  - `waitForElementWithRetry` escalates its timeouts.
  - `waitForSuccessElementsWithRetry` runs three-element attempts.
  - `checkIfElementsAlreadyVisible` and `verifySuccessPageReady` probe the page.
  - `waitForSuccessPage` has a fast path and a one-shot recovery.

## Modelling conventions

- **Strings.** JavaScript strings are `seq<char>`. Every pattern of the core is ASCII, and
  the one place where UTF-16 length matters, `validateCodeLength`, counts UTF-16 code units
  explicitly (`JsNumber.Utf16Length`).
- **Regular expressions.** Each one is modelled by its exact JavaScript meaning:
  - `\s` and `trim` use the JavaScript white-space and line-terminator set, not an ASCII
    approximation;
  - `/i` on the ASCII letters of a pattern is ASCII case folding, so the hex class is
    `[0-9a-fA-F]`;
  - `match` is the leftmost match;
  - a global `replace` is leftmost, non-overlapping and left to right.

  `Uuid.ReplaceUuids` is a simple recursive definition. `Uuid.ReplaceUuidsIsStandard`
  proves it equal to `Uuid.ReplaceUuidsFrom`, the `lastIndex` scanning that
  `String.prototype.replace` does with a global regular expression.
- **Lines.** The extractors split on `\n`, so `$` without the `m` flag is the end of a line.
- **The browser** is an oracle (`Browser.Page`). Each wait or visibility probe takes the next
  outcome of a script: `Visible`, `NotYet` (a timeout) or `Closed` (the page closes and stays
  closed). Every wait, probe and pause is appended to a log, so the proofs can count the
  attempts, the timeouts and the pauses.
- **Files and processes.**
  - A fixture file is a `FixtureSync.FixtureFile` object whose `content` the updaters
    overwrite.
  - A child process (`execSync`) is a `Integration.Command` value: its output, or a thrown
    error whose `message` may be missing.
  - The token provider is the oracle `OverseerAuth.TokenProvider`.
  - The clock readings are parameters.
- **The fixture files.** `src/fixtures/cash-payment-test-data.ts` and
  `src/fixtures/test-data.ts` are written out character for character
  (`FixtureFiles.CashFixtureText`, `FixtureFiles.PaymentFixtureText`). Each is the join, with
  `\n`, of fixed sections and of the property lines whose values the rewrites touch; the
  records and URLs in them are those of `TestData`. The proofs about the whole files compose
  facts about each piece (`FixtureText.Fits`): what the UUID pass makes of it, and how many
  payment URLs and `placeholder` its rewrite holds.
- **One extractor for two scripts.** `extractOrderId` in `scripts/cash-payment-integration.js`
  and in `scripts/integration-test.js` is identical up to a comment (`// Continue searching`
  in the first, `// Continuar buscando` in the second at line 97), so one function,
  `OrderIdExtraction.ExtractOrderId`, models both. The table cites the first copy.
- **What the code does where a reader might expect otherwise.** The model follows the code:
  - A thrown error of the test runner whose message mentions `Command failed` or
    `exit code` counts as a *passed* run, and any other thrown error as a failed run. Every
    run that reaches the tests exits with code 0 (`Integration.TestsNeverSetTheExitCode`).
  - When the success elements are already visible, the fast path still runs
    `verifySuccessPageReady` before it returns (`PaymentStatusPage.FastPath`).
  - The give-up error of the retry loop names only the number of attempts, not the elements
    that were missing (`PaymentStatusPage.CouldNotFind`).
  - Synchronising a fixture is not idempotent for an arbitrary text, and it can leave a UUID
    other than the id (see "Left out"). Idempotence is proved for the repository's two
    fixture files (`FixtureRuns`).
  - A text that holds `"orderId": "<uuid>"` does not always yield that UUID: the first line
    with a JSON `orderId` decides, whatever later lines hold
    (`OrderIdExtraction.ExtractOrderIdPrefersJson`, `OrderIdExtraction.FirstJsonLineWins`).
  - The scripts write the rewritten fixture before they check it
    (`scripts/cash-payment-integration.js:159-173`). A rewrite whose check fails stays on disk
    while the run exits with code 1 (`Integration.HardcodedRunOutcome`).

## Model

| member | source | states |
|---|---|---|
| JsText.Trim | scripts/cash-payment-integration.js:74 | `String.prototype.trim`: the result is no longer than the input and neither starts nor ends with JavaScript white space |
| JsText.TrimWindow | scripts/cash-payment-integration.js:74 | the trimmed text sits in the input after its leading white space, with only white space before and after it |
| JsText.TrimNoOp | scripts/cash-payment-integration.js:74 | a text that neither starts nor ends with white space is its own trim |
| JsText.Split | scripts/cash-payment-integration.js:64 | `split('\n')` gives at least one piece, no piece holds a line feed, and the pieces joined with `\n` give the text back |
| JsText.SplitJoin | scripts/cash-payment-integration.js:64 | `split('\n')` gives back the lines that were joined with `\n`, as long as none holds a line feed |
| JsText.ReplaceAllSplit | scripts/cash-payment-integration.js:157 | the global replace of a literal works on both sides of a character the pattern does not contain, separately |
| JsText.CountMatchesSplit | scripts/cash-payment-integration.js:169-170 | `(content.match(/…/g) \|\| []).length` adds up over both sides of a character the pattern does not contain |
| JsText.CountedOccurs | scripts/cash-payment-integration.js:169-170 | a positive match count means the pattern occurs somewhere |
| JsText.ReplaceAllUncounted | scripts/cash-payment-integration.js:157 | a global replace of a literal that matches nowhere leaves the text unchanged |
| JsNumber.NatToString | lib/overseer-client/order-generator.ts:93 | the decimal text of a natural number is a non-empty run of digits that starts with `0` only for 0 |
| JsNumber.IntToStringInjective | lib/overseer-client/order-generator.ts:93 | `toString()` of an integer is injective: distinct integers render differently |
| JsNumber.JsRem | lib/overseer-client/order-generator.ts:94 | JavaScript `%` truncates toward zero: the remainder is below the divisor in size, equals the Euclidean one for a non-negative dividend and is never positive for a negative one |
| JsNumber.ParseNatToString | lib/overseer-client/order-generator.ts:93 | the decimal text of a natural number reads back as that number |
| JsNumber.Utf16Length | src/pages/base-page.ts:130 | the JavaScript length is at least the character count, and equal to it for a text of basic-plane characters |
| Uuid.IsUuidChars | scripts/cash-payment-integration.js:75 | every character of a strict UUID (`^…$` with the `i` flag) is a hex digit or a dash, never white space or a comma |
| Uuid.UuidTextIsUuid | scripts/cash-payment-test-hardcoded.js:46 | groups of 8, 4, 4, 4 and 12 hex digits joined with dashes make a strict UUID |
| Uuid.FirstUuidFrom | scripts/cash-payment-integration.js:119 | the leftmost UUID match from a position: it is a match, no match starts before it, and there is none at all when the result is `None` |
| Uuid.MatchIsUuid | scripts/cash-payment-integration.js:119-123 | the text of a match is a strict UUID, so the fallback's re-validation never rejects it |
| Uuid.ReplaceUuidsIsStandard | scripts/cash-payment-integration.js:153-154 | the recursive `replace(/uuid/gi, id)` equals the standard leftmost, non-overlapping `lastIndex` scan |
| Uuid.ReplaceUuidsLength | scripts/cash-payment-integration.js:153-154 | replacing UUIDs by a 36-character id keeps the length of the text |
| Uuid.ReplaceUuidsSplit | scripts/cash-payment-integration.js:153-154 | no UUID match crosses a character outside the pattern, so the replace works on both sides of one separately |
| Uuid.ReplaceUuidsOfUuid | scripts/cash-payment-integration.js:153-154 | a UUID on its own is replaced as a whole |
| Uuid.ReplaceUuidsNoDash | scripts/integration-test.js:153-154 | a text without a dash holds no UUID and is left unchanged |
| Uuid.WorkflowAnnotationEnd | scripts/cash-payment-integration.js:149-150 | where `,\s*Workflow\s*ID:\s*<uuid>` matches, the match starts with a comma and spans at least 47 characters |
| Uuid.AnnotationEndsWithUuid | scripts/cash-payment-integration.js:149-150 | a match of the annotation pattern ends right after a UUID |
| Uuid.AnnotationAt | scripts/cash-payment-integration.js:149-150 | the pattern matches where a comma, white space, `Workflow` in any case, white space, `ID:` in any case, white space and a UUID follow each other, and the match ends right after the UUID |
| Uuid.StripWorkflowAnnotations | scripts/cash-payment-integration.js:149-150 | deleting the annotations never lengthens the text |
| Uuid.StripKeepsCommaFreePrefix | scripts/cash-payment-integration.js:149-150 | a prefix without a comma is copied as it is, and the pass goes on after it |
| Uuid.StripLeadingAnnotation | scripts/cash-payment-integration.js:149-150 | a text that starts with an annotation, with any white space runs and the words in any case, loses it, and the pass goes on with what follows |
| Uuid.StripDeletesAnnotation | scripts/cash-payment-integration.js:149-150 | after a comma-free prefix, the first annotation is deleted and the text on both sides of it is kept |
| Uuid.StripsWorkflowId | scripts/cash-payment-integration.js:149-150 | `Order ID: <uuid>, Workflow ID: <uuid>` followed by comma-free text loses exactly its annotation |
| Uuid.StripNoComma | scripts/cash-payment-integration.js:149-150 | a text without a comma holds no annotation and is left unchanged |
| OrderIdExtraction.JsonGroupAt | scripts/cash-payment-integration.js:71 | where `"orderId":\s*"([^"]+)"` matches, the key `"orderId":` stands at that index and the captured value is non-empty and lies between two double quotes |
| OrderIdExtraction.FirstJsonMatch | scripts/cash-payment-integration.js:71 | `line.match(…)` is the leftmost match, and there is none when it returns `None` |
| OrderIdExtraction.JsonValue | scripts/cash-payment-integration.js:71-76 | the trimmed value of a line's first `"orderId"` match is kept only when it is a strict UUID |
| OrderIdExtraction.JsonCandidate | scripts/cash-payment-integration.js:67-83 | the JSON pass yields only strict UUIDs |
| OrderIdExtraction.LabelGroupAt | scripts/cash-payment-integration.js:106 | where `Order ID:\s*(<uuid>)(?:\s\|,\|$)` matches, the label stands there (in either case) and the group is a UUID after it, which in the strict pattern white space, a comma or the end of the line follows |
| OrderIdExtraction.FirstLabelMatch | scripts/cash-payment-integration.js:106 | the index it finds, at or after the start, is one where the label pattern matches |
| OrderIdExtraction.FirstLabelMatchIsLeftmost | scripts/cash-payment-integration.js:106 | that match is the leftmost one, and when none is found the pattern matches nowhere in the line |
| OrderIdExtraction.LabelGroup | scripts/update-cash-payment-order.js:44-46 | what either label pattern captures is a strict UUID |
| OrderIdExtraction.LabelCandidate | scripts/cash-payment-integration.js:103-115 | the label pass yields only strict UUIDs |
| OrderIdExtraction.AllUuidMatches | scripts/cash-payment-integration.js:119 | every position it lists is a UUID match, so the first one is the leftmost |
| OrderIdExtraction.ExtractOrderId | scripts/cash-payment-integration.js:63-130 | `extractOrderId`: the only error it raises is `Could not extract orderId from output` |
| OrderIdExtraction.ExtractOrderIdFromLog | scripts/update-cash-payment-order.js:38-76 | `extractOrderIdFromLog` (passes in the order label, JSON, first UUID): the only error it raises is `Could not extract orderId from log output` |
| OrderIdExtraction.ResultPassSubsumed | scripts/cash-payment-integration.js:86-100 | the `Result:` pass applies the same pattern and check as the JSON pass to a subset of the lines |
| OrderIdExtraction.ResultPassNeverDecides | scripts/cash-payment-integration.js:86-100 | so it never yields an id when the JSON pass yielded none |
| OrderIdExtraction.UuidTrimmed | scripts/cash-payment-integration.js:108-110 | a UUID is its own trim, so the label and fallback passes' `trim` and re-validation never change or reject their match |
| OrderIdExtraction.LastPass | scripts/cash-payment-integration.js:117-129 | when no earlier pass decides, the result is the leftmost UUID of the whole text, or the extraction error when it holds none |
| OrderIdExtraction.ExtractOrderIdFails | scripts/cash-payment-integration.js:117-129 | `extractOrderId` fails exactly when the text holds no UUID match, in both directions |
| OrderIdExtraction.ExtractOrderIdFromLogFails | scripts/update-cash-payment-order.js:64-75 | the same for `extractOrderIdFromLog` |
| OrderIdExtraction.ExtractorsFailTogether | scripts/update-cash-payment-order.js:38-76 | the two extractors fail on the same texts |
| OrderIdExtraction.ExtractOrderIdIsUuid | scripts/cash-payment-integration.js:63-130 | every id `extractOrderId` returns is a strict UUID |
| OrderIdExtraction.ExtractOrderIdFromLogIsUuid | scripts/update-cash-payment-order.js:38-76 | every id `extractOrderIdFromLog` returns is a strict UUID, although its label pass does not re-check |
| OrderIdExtraction.ExtractedIdIsBare | scripts/cash-payment-integration.js:103-115 | a returned id is 36 hex digits and dashes with no comma, so it never carries `, Workflow ID` text |
| OrderIdExtraction.ExtractOrderIdFallback | scripts/cash-payment-integration.js:117-127 | a text without JSON and label candidates yields its leftmost UUID |
| OrderIdExtraction.ExtractOrderIdPrefersJson | scripts/cash-payment-integration.js:66-83 | when some line has a JSON candidate, the result is the candidate of the first such line, whatever the other lines hold |
| OrderIdExtraction.LabelCandidateBoundary | scripts/cash-payment-integration.js:106 | the strict label pass returns the 36 characters after an `Order ID:` of the line, and white space, a comma or the end of the line follows them |
| OrderIdExtraction.QuoteFreeLine | scripts/cash-payment-integration.js:67-100 | a line without a double quote gives the JSON and `Result:` passes nothing |
| OrderIdExtraction.LabelCharMissing | scripts/cash-payment-integration.js:103-115 | a line missing a character of `Order ID:` gives the label passes nothing |
| OrderIdExtraction.LabelLineValue | scripts/update-cash-payment-order.js:44-46 | `Order ID: <uuid><rest>`, with `rest` empty or starting with a comma or white space (as `, Workflow ID: …` does), yields exactly that UUID in both label passes |
| OrderIdExtraction.JsonLineValue | scripts/update-cash-payment-order.js:53-58 | a line `<pre>"orderId": "<uuid>"<post>` whose prefix holds no double quote yields that UUID |
| OrderIdExtraction.FirstJsonLineWins | scripts/cash-payment-integration.js:63-83 | of two JSON `orderId` lines for different UUIDs, the first gives the result and the second's UUID is not returned |
| OrderIdExtraction.ExtractOrderIdOfLines | scripts/cash-payment-integration.js:63-83 | on a text made of lines, the result is the JSON candidate of the first line that has one |
| OrderIdExtraction.ExtractOrderIdByLabelOfLines | scripts/cash-payment-integration.js:63-115 | without JSON candidates, the result is the strict label candidate of the first line that has one |
| OrderIdExtraction.ExtractOrderIdFromLogOfLines | scripts/update-cash-payment-order.js:38-49 | the log extractor returns the loose label candidate of the first line that has one |
| OrderLogSamples.SampleOutputYieldsJsonId | scripts/test-orderid-extraction.js:30-87 | any sample output whose lines before the JSON line feed no pass yields the id of its `📊 Result:` line, whatever summary follows |
| OrderLogSamples.ShortOutputYieldsId | scripts/test-orderid-extraction.js:30-87 | the short outputs with a two-line or one-line `Order ID: X, Workflow ID: X` summary yield the JSON id, for every pair of ids |
| OrderLogSamples.LabelOnlyOutputYieldsId | scripts/test-orderid-extraction.js:45-53 | an output with only the banner and the `Order ID:` summary yields the labelled id |
| OrderLogSamples.TwoLineOutputYieldsId | scripts/test-orderid-extraction.js:54-59 | `✅ Order created successfully!` followed by the JSON line yields its id |
| OrderLogSamples.ExtractionChecks | scripts/test-orderid-extraction.js:30-87 | each of the five sample outputs yields its listed expected id |
| OrderLogSamples.RealOutputYieldsId | scripts/test-real-output.js:30-51 | the realistic output yields the JSON line's id, although the printed order data carries five other UUIDs first |
| OrderLogSamples.RealOutputChecks | scripts/debug-extraction.js:6-27 | the realistic outputs of the debugging and real-output scripts yield `52497f3e-…` and `e2a2f653-…` |
| OrderLogSamples.MockOrderIdIsUuid | scripts/update-cash-payment-order.js:123 | the simulated order's id is a strict UUID |
| OrderLogSamples.SimulatedLogYieldsMockId | scripts/update-cash-payment-order.js:121-150 | `extractOrderIdFromLog(simulateOrderCreationLog())` is `fe2cb863-128d-4066-8855-f02b1b9001e5`, although the conversation id is the log's first UUID |
| OrderLogSamples.SimulatedLogJsonAgrees | scripts/update-cash-payment-order.js:121-150 | the scripts' `extractOrderId` returns the same id on the simulated log, by its JSON line |
| FixtureSync.FixtureFile.UpdateCashPaymentTestData | scripts/cash-payment-integration.js:133-176 | an invalid id is refused with its error and the file is left alone; otherwise the file becomes the annotation, UUID and placeholder rewrite, and the result is that of the id and URL checks on it |
| FixtureSync.FixtureFile.UpdateTestData | scripts/integration-test.js:133-164 | an invalid id is refused before any write; otherwise the file becomes the annotation and UUID rewrite, without a placeholder pass, and only the id check follows |
| FixtureSync.FixtureFile.UpdateWithRealOrder | scripts/update-cash-payment-order.js:79-118 | an invalid id is refused before any write; otherwise the file becomes the UUID then placeholder rewrite, with no annotation pass, both checks follow and the id is returned |
| FixtureSync.FixtureFile.UpdateWithHardcodedOrder | scripts/cash-payment-test-hardcoded.js:38-75 | the file always becomes the placeholder then UUID rewrite with the fixed id, without validation; both checks follow and the fixed id is returned |
| FixtureSync.HardcodedOrderIdIsUuid | scripts/cash-payment-test-hardcoded.js:46 | the fixed id `a84ab411-a690-488d-a32a-6e053f434807` is a strict UUID |
| FixtureSync.PlaceholderPassLeavesNone | scripts/cash-payment-integration.js:157 | replacing `placeholder` by a UUID leaves no `placeholder`, whatever the text |
| FixtureSync.CashRewriteLeavesNoPlaceholder | scripts/cash-payment-integration.js:149-157 | after `updateCashPaymentTestData`'s rewrite the text holds no `placeholder` |
| FixtureSync.RealOrderRewriteLeavesNoPlaceholder | scripts/update-cash-payment-order.js:94-98 | after the real-order rewrite the text holds no `placeholder` |
| FixtureSync.TestDataRewriteKeepsPlaceholder | scripts/integration-test.js:149-154 | `updateTestData` makes no placeholder pass: a text without annotations and UUIDs leaves its rewrite unchanged, `placeholder` included |
| FixtureSync.UrlMatchIncludesId | scripts/cash-payment-integration.js:163-173 | a text holding a payment URL for the id contains the id |
| FixtureSync.CashCheckIsUrlCount | scripts/cash-payment-integration.js:163-173 | the cash check passes exactly when at least three `https://test.pay.felixpago.com/<id>/` URLs remain, and reports the URL error whenever the id is present |
| FixtureSync.NoUuidNoId | scripts/integration-test.js:153-163 | a text without UUIDs does not contain the id after the UUID pass |
| FixtureSync.FirstUuidGivesId | scripts/integration-test.js:153-163 | a text with a UUID contains the id after the UUID pass |
| FixtureSync.TestDataCheckFailsIffNoUuid | scripts/integration-test.js:149-163 | `updateTestData`'s check fails exactly when the annotation-free text holds no UUID at all |
| FixtureText.StripNoK | scripts/cash-payment-integration.js:149-150 | a text without the letter `k` in either case holds no annotation, whose `Workflow` needs one, and is left alone |
| FixtureText.PlainIsFixed | scripts/cash-payment-integration.js:149-157 | a text with no UUID, no `placeholder` and no `k` is left alone by every rewrite pass and holds no payment URL |
| FixtureText.PlainSplit | scripts/cash-payment-integration.js:149-157 | two such texts joined by a character outside all three patterns make one more |
| FixtureText.PlainJoin | scripts/cash-payment-integration.js:149-157 | lines of that kind joined with `\n` make a text of that kind |
| FixtureText.FitsPlain | scripts/cash-payment-integration.js:149-173 | a plain text is its own rewrite and holds neither payment URLs nor `placeholder` |
| FixtureText.Cuts | scripts/cash-payment-integration.js:149-173 | the line feed, both quotes and the comma are in no pattern: no UUID, `placeholder`, annotation or payment URL can hold one |
| FixtureText.FitsSplit | scripts/cash-payment-integration.js:149-173 | the UUID pass and both counts work on each side of such a character separately: texts whose rewrites are known glue into one, with the counts added |
| FixtureText.FitsJoin | scripts/cash-payment-integration.js:149-173 | so do lines joined with `\n`: the rewrite is the join of the rewrites and the counts are the sums |
| FixtureText.FitsUuid | scripts/cash-payment-integration.js:153-154 | a UUID becomes the id, and neither holds a payment URL or a `placeholder` |
| FixtureText.FitsUrl | scripts/cash-payment-integration.js:153-170 | a payment URL for any UUID with a plain path becomes the URL for the id, and holds exactly one payment URL for the id and no `placeholder` |
| FixtureText.FitsPlaceholderUrl | src/fixtures/test-data.ts:27-28 | a `placeholder` URL whose path lacks dashes is left alone by the UUID pass, holds no payment URL and exactly one `placeholder` |
| FixtureText.FitsProperty | src/fixtures/cash-payment-test-data.ts:23-29 | a property line `  name: 'value',` with a plain name is rewritten as its value is and counts what its value counts |
| FixtureText.FitsUuidProperty | src/fixtures/cash-payment-test-data.ts:23 | a property holding a UUID is rewritten to hold the id |
| FixtureText.FitsUrlProperty | src/fixtures/cash-payment-test-data.ts:26-29 | a property holding a payment URL is rewritten to hold the URL for the id, and counts one payment URL |
| FixtureText.FitsPlainProperty | src/fixtures/cash-payment-test-data.ts:24-25 | a property holding a plain value stays as it is |
| FixtureText.FitsPlaceholderProperty | src/fixtures/test-data.ts:27-28 | a property holding a `placeholder` URL stays as it is and counts one `placeholder` |
| FixtureFiles.CashPropertiesFit | src/fixtures/cash-payment-test-data.ts:22-30 | in the default record written for one UUID, the UUID pass for the id gives the record written for the id: id and four URLs replaced, amounts kept, four payment URLs, no `placeholder` |
| FixtureFiles.DefaultPaymentIsPlaceholderRecord | src/fixtures/test-data.ts:22-30 | `defaultPaymentTestData` has plain values and the two `placeholder` URLs |
| FixtureFiles.PaymentPropertiesFit | src/fixtures/test-data.ts:22-30 | such a card record holds no UUID, so the UUID pass leaves it as it is, with two `placeholder` and no payment URL |
| FixtureFiles.PaymentFactoryFits | src/fixtures/test-data.ts:11-19 | the UUID pass for the id puts the id into both URLs of `createPaymentTestData`, whatever UUIDs they held, and leaves two payment URLs for the id |
| FixtureFiles.CashFixtureFits | src/fixtures/cash-payment-test-data.ts:1-44 | on the whole cash file written for one UUID, the UUID pass for the id gives the file written for the id, which holds four payment URLs for the id, no `placeholder` and no annotation |
| FixtureFiles.PaymentFixtureFits | src/fixtures/test-data.ts:1-50 | on the whole `test-data.ts`, the UUID pass puts the id into both factory URLs and changes nothing else; the result holds two payment URLs for the id and the two `placeholder` of the default record |
| FixtureRuns.CommittedCashFileIsWrittenForDefaultId | src/fixtures/cash-payment-test-data.ts:11-30 | the committed cash file is the file written for its default id `fe2cb863-…` |
| FixtureRuns.CashFileHoldsNoAnnotation | scripts/cash-payment-integration.js:149-150 | the annotation pass leaves a cash file alone |
| FixtureRuns.CashFileUuidPass | scripts/cash-payment-integration.js:153-154 | the UUID pass for an id turns the cash file written for any UUID into the file written for the id |
| FixtureRuns.CashFileHoldsNoPlaceholder | scripts/cash-payment-integration.js:157 | the placeholder pass leaves a cash file alone, whatever it inserts |
| FixtureRuns.CashFilePassesCheck | scripts/cash-payment-integration.js:163-173 | the cash file for an id holds exactly four payment URLs for it, so the id and URL checks pass |
| FixtureRuns.CashUpdateRewritesFile | scripts/cash-payment-integration.js:143-176 | `updateCashPaymentTestData` with a valid id turns the cash file for any UUID into the file for the id, and its checks pass |
| FixtureRuns.RealOrderUpdateRewritesFile | scripts/update-cash-payment-order.js:79-118 | the real-order updater does the same and returns the id |
| FixtureRuns.HardcodedUpdateRewritesFile | scripts/cash-payment-test-hardcoded.js:38-75 | the hard-coded updater turns the cash file for any UUID into the file for `a84ab411-…`, its checks pass and it returns that id |
| FixtureRuns.CashUpdateIsIdempotent | scripts/cash-payment-integration.js:143-176 | on a cash file, running `updateCashPaymentTestData` or the real-order updater again with the same id changes nothing |
| FixtureRuns.CommittedCashFileUpdates | scripts/cash-payment-integration.js:143-176 | on the committed cash file each cash updater leaves the file for its id, and the checks pass |
| FixtureRuns.TestDataUpdateRewritesFile | scripts/integration-test.js:133-164 | `updateTestData` with a valid id puts it into both factory URLs of `test-data.ts`, whatever UUIDs they held; the file keeps its two `placeholder` URLs and the id check passes |
| FixtureRuns.CommittedTestDataFileUpdates | scripts/integration-test.js:133-164 | on the committed `test-data.ts` the update leaves the file for the id, its check passes, and running it again changes nothing |
| TestData.CreateCashPaymentTestData | src/fixtures/cash-payment-test-data.ts:11-19 | the record keeps its id, has the amounts `$60.00` and `$450.00` whatever the id, and its four URLs start with `https://test.pay.felixpago.com/<id>/` |
| TestData.CashUrlsNameTheOrder | src/fixtures/cash-payment-test-data.ts:15-18 | each of the four URLs names the record's id right after the host |
| TestData.CashUrlsCountFour | src/fixtures/cash-payment-test-data.ts:15-18 | the four URLs, one per line, hold exactly four payment URLs for the id |
| TestData.CashUrlsPassTheCheck | scripts/cash-payment-integration.js:163-173 | those four lines pass the cash updaters' check |
| TestData.DefaultCashIsCreated | src/fixtures/cash-payment-test-data.ts:22-30 | `defaultCashPaymentTestData` equals `createCashPaymentTestData('fe2cb863-128d-4066-8855-f02b1b9001e5')` field by field |
| TestData.DefaultCashIdIsUuid | src/fixtures/cash-payment-test-data.ts:23 | the default id is a strict UUID |
| TestData.DefaultCashUrlsPassTheCheck | src/fixtures/cash-payment-test-data.ts:26-29 | the default record's four URLs hold exactly four payment URLs for its id, enough for the check |
| TestData.DigitCodeMeetsCodeLength | src/fixtures/cash-payment-test-data.ts:42 | a code of digits passes `validateCodeLength` with the expected `codeLength` exactly when it has 30 digits |
| TestData.CreatePaymentTestData | src/fixtures/test-data.ts:11-19 | `createPaymentTestData(id).orderId == id` |
| TestData.FixedIdsAreUuids | src/fixtures/test-data.ts:16-17 | the two UUIDs written into the URLs of `createPaymentTestData` are strict UUIDs |
| TestData.PaymentUrlsIgnoreOrderId | src/fixtures/test-data.ts:11-19 | every field but the id is the same for every id; in particular the two URLs do not depend on it |
| TestData.DefaultPaymentHasPlaceholders | src/fixtures/test-data.ts:22-30 | the default record has the empty id, `placeholder` in place of the id in both URLs, and the same amounts, CVV and homepage as every built record |
| TestData.HomepagePatternIsUnanchored | src/fixtures/test-data.ts:47-50 | the unanchored URL pattern accepts exactly the texts that contain `https://www.felixpago.com`, including the homepage URL |
| OverseerAuth.TokenKeyInjective | lib/overseer-client/auth.ts:29-31 | with the service name fixed, distinct audiences have distinct cache keys |
| OverseerAuth.CachedLookup | lib/overseer-client/auth.ts:18-24 | a token is served from the cache exactly when the key is present and `now < expiresAt`, and it is the stored token |
| OverseerAuth.Mint | lib/overseer-client/auth.ts:41-66 | a request succeeds exactly when it gives a non-empty token. On success the token is stored under its key with expiry one hour after the store; on failure the cache is unchanged and the error carries the `Failed to generate authentication token: ` prefix, with the no-token message for an empty or missing token |
| OverseerAuth.CacheHitServesStoredToken | lib/overseer-client/auth.ts:18-24 | a live entry is returned with no request and no change to the cache |
| OverseerAuth.ExpiredEntryMints | lib/overseer-client/auth.ts:18-39 | a miss, or an entry at or after its expiry instant, makes exactly one request, whose outcome the call returns |
| OverseerAuth.MintKeepsOtherKeys | lib/overseer-client/auth.ts:55-59 | storing a token changes no other key's entry or lookup |
| OverseerAuth.MintedTokenLivesOneHour | lib/overseer-client/auth.ts:55-58 | a stored token is served exactly while the clock is less than one hour past the store |
| OverseerAuth.SecondCallWithinHourHitsCache | lib/overseer-client/auth.ts:18-27 | after a successful call, a second call for the same audience within its entry's lifetime returns the identical token with no request |
| OverseerAuth.TokenProvider.FetchIdToken | lib/overseer-client/auth.ts:46-47 | the provider oracle gives its next scripted answer and records the audience |
| OverseerAuth.Auth.GenerateNewToken | lib/overseer-client/auth.ts:41-66 | one request for the target audience; the result and the new cache are those of `Mint` on the provider's answer |
| OverseerAuth.Auth.GetAuthenticationToken | lib/overseer-client/auth.ts:18-27 | the result and the new cache are those of the cache-or-mint specification function; the provider is asked exactly when it mints; a live entry leaves the cache and the provider untouched |
| OverseerAuth.TokenTimeToExpiry | lib/overseer-client/auth.ts:68-88 | `max(300, exp - floor(now / 1000))` for claims with a nonzero `exp`; 3600 when `exp` is missing or 0, when the claims are not an object and when decoding throws |
| OverseerAuth.Utf8OfAscii | lib/overseer-client/auth.ts:92 | `Buffer.from` of an ASCII text has one byte per character, equal to its code |
| OverseerAuth.Base64Length | lib/overseer-client/auth.ts:92 | base64 (section 4 of RFC 4648) gives four characters per started group of three bytes |
| OverseerAuth.Base64RoundTrip | lib/overseer-client/auth.ts:92 | decoding the base64 text gives the bytes back, so the encoding loses nothing |
| OverseerAuth.Base64Append | lib/overseer-client/auth.ts:92 | the encoding of whole three-byte groups followed by more bytes is the concatenation of the encodings |
| OverseerAuth.Prefix | lib/overseer-client/auth.ts:92 | `substring(0, n)` gives the first `n` characters, or the whole text when it is shorter |
| OverseerAuth.TokenIdReadsSixBytes | lib/overseer-client/auth.ts:90-93 | the token id has eight characters when the token has at least six bytes, and is then the base64 of exactly those six bytes; a shorter token gives four characters per started group of three bytes |
| OrderGenerator.CreateTimestamp | lib/overseer-client/order-generator.ts:90-96 | the nanos are a whole number of milliseconds below one second in size |
| OrderGenerator.TimestampSplitsMillis | lib/overseer-client/order-generator.ts:90-96 | `seconds` is the decimal text of `floor(ms / 1000)`; from 1970 on `0 <= nanos < 10^9` and `seconds * 10^9 + nanos == ms * 10^6`; before 1970 a reading that is not a whole second gets negative nanos and the pair is one second short |
| OrderGenerator.TimestampSecondsDistinct | lib/overseer-client/order-generator.ts:90-96 | readings in distinct seconds give distinct `seconds` strings |
| OrderGenerator.CreateOrderDocument | lib/overseer-client/order-generator.ts:14-88 | REMITTANCE order from CHAT with empty fees and promotions; BANK delivery; MEXICO customer and beneficiary; USD/UNITED_STATES origin and MXN/MEXICO destination; no non-promotional fee; `felixRate == orderRate ==` the input rate, from USD to MXN |
| OrderGenerator.DocumentKeepsCreationData | lib/overseer-client/order-generator.ts:14-88 | every input field but the delivery kind can be read back from the document |
| OrderGenerator.DeliveryKindIgnored | lib/overseer-client/order-generator.ts:67-76 | the input's delivery kind has no effect on the document |
| OrderGenerator.OneTimestampForAll | lib/overseer-client/order-generator.ts:15-86 | every sub-record's `createdAt` and `lastModifiedDate` is the one timestamp taken for the document |
| Browser.FirstSettled | src/pages/base-page.ts:49-58 | the number of leading timeouts among the next `n` outcomes: all before it are `NotYet`, and the one at it, if among the `n`, is not |
| Browser.WaitStepOutcome | src/pages/base-page.ts:37 | a wait is logged; on a closed page it fails at once; on an open page it takes one outcome, succeeds exactly on `Visible`, times out on `NotYet` and closes the page on `Closed` |
| Browser.ProbeStepOutcome | src/pages/payment-status-page.ts:93-95 | a probe is logged, is true exactly on an open page whose next outcome is `Visible`, and fails exactly when the page is closed after it |
| Browser.PauseStep | src/pages/base-page.ts:57 | `waitForTimeout` logs a pause on an open page and fails on a closed one |
| Browser.Page.WaitFor | src/pages/base-page.ts:37 | the page object's wait performs `WaitStep` on its state |
| Browser.Page.IsVisible | src/pages/payment-status-page.ts:93-95 | the page object's probe performs `ProbeStep` on its state |
| Browser.Page.WaitForTimeout | src/pages/base-page.ts:57 | the page object's pause performs `PauseStep` on its state |
| BasePage.WaitForElementOutcome | src/pages/base-page.ts:31-46 | on a closed page no wait is issued and the before-wait error is thrown; on an open page exactly one wait is issued, success exactly on `Visible`, a timeout propagates unchanged, and a page closed meanwhile gives `Page was closed while waiting for element` |
| BasePage.RetryLogShape | src/pages/base-page.ts:48-61 | the `n` attempts log `2n - 1` events: the `i`-th wait with timeout `baseTimeout * (k + i)`, one-second pauses between waits and none after the last |
| BasePage.RetryWithoutAttempts | src/pages/base-page.ts:49 | with `maxRetries <= 0` no attempt is made and the call returns normally |
| BasePage.RetryClosedForm | src/pages/base-page.ts:48-61 | after `j` timeouts, a success returns after exactly `j + 1` attempts, a closing page fails after `j + 1`, and when all `maxRetries` attempts time out the last attempt's timeout is re-thrown |
| BasePage.GetText | src/pages/base-page.ts:67-69 | `textContent() \|\| ''`: a missing text reads as the empty string |
| BasePage.CodeLengthCounts | src/pages/base-page.ts:128-131 | a missing text has length 0; a text of basic-plane characters has its character count as length |
| BasePage.BasePage.WaitForElement | src/pages/base-page.ts:31-46 | the method's new page state and error are those of `WaitForElementSpec` |
| BasePage.BasePage.WaitForElementWithRetry | src/pages/base-page.ts:48-61 | the loop's new page state and error are those of `RetrySpec` from attempt 1 |
| PaymentStatusPage.AttemptOutcome | src/pages/payment-status-page.ts:145-152 | an attempt issues three waits with the same timeout; it succeeds exactly when all three elements show and closes the page exactly when one of its outcomes is `Closed` |
| PaymentStatusPage.FirstSettledAttemptMeaning | src/pages/payment-status-page.ts:134-179 | the attempts before the first settled one all time out, and that one, if among the `n`, does not |
| PaymentStatusPage.SuccessRetryStep | src/pages/payment-status-page.ts:134-179 | one attempt on an open page: success returns, a closing page throws the retry-wait error (or the give-up error on the last attempt), and a timeout pauses one second and continues |
| PaymentStatusPage.SuccessRetryClosedForm | src/pages/payment-status-page.ts:134-179 | after `j` timed-out attempts: success after exactly `j + 1` attempts; a closing page throws `Page was closed during retry wait` (the give-up error on the last attempt) with no further attempt; when all time out, `Could not find success elements after <maxRetries> attempts` |
| PaymentStatusPage.SuccessRetryLog | src/pages/payment-status-page.ts:134-179 | the loop logs three waits of the base timeout per attempt it makes, with a one-second pause between attempts, for exactly the attempts up to the first that does not time out |
| PaymentStatusPage.SuccessRetryErrorIsScripted | src/pages/payment-status-page.ts:134-179 | the loop's error is decided by the outcomes the page shows alone: the first attempt that shows all three elements succeeds, one that closes the page throws, and the last attempt gives up |
| PaymentStatusPage.RetryErrorMeaning | src/pages/payment-status-page.ts:134-179 | that script-level error is the one the closed form names for the first attempt that does not time out |
| PaymentStatusPage.SuccessRetryOnClosedPage | src/pages/payment-status-page.ts:140-176 | on a closed page the attempt fails before any wait and the call gives up at once |
| PaymentStatusPage.SuccessRetryOnlyWaits | src/pages/payment-status-page.ts:134-179 | the retry loop only waits and pauses; it never probes an element |
| PaymentStatusPage.CheckAlreadyVisibleIff | src/pages/payment-status-page.ts:84-102 | true exactly when the page is open and the three success elements show, after three probes; a failing probe counts as false |
| PaymentStatusPage.VerifyOutcome | src/pages/payment-status-page.ts:181-209 | passes exactly when the page is open and both checks show; throws the closed-page error exactly when the page is or becomes closed, and the not-ready error otherwise |
| PaymentStatusPage.FastPath | src/pages/payment-status-page.ts:41-47 | when the URL arrives and all elements already show, the call succeeds after the URL wait and five probes, with no DOM wait and no retry loop |
| PaymentStatusPage.CatchPath | src/pages/payment-status-page.ts:63-81 | after any error on an open page the outcome is one more run of the retry loop, which only waits, so a successful recovery does not verify again; on a closed page it throws `Page was closed during success page wait` |
| PaymentStatusPage.ClosedPageFailsAtOnce | src/pages/payment-status-page.ts:29-80 | on a page already closed nothing is waited for or probed |
| PaymentStatusPage.PaymentStatusPage.WaitForSuccessElements | src/pages/payment-status-page.ts:128-132 | the three element waits of one attempt; the new page state and the result are those of `AttemptSpec` |
| PaymentStatusPage.PaymentStatusPage.WaitForSuccessElementsWithRetry | src/pages/payment-status-page.ts:134-179 | the loop's new page state and error are those of `SuccessRetrySpec` from attempt 1 |
| PaymentStatusPage.PaymentStatusPage.CheckIfElementsAlreadyVisible | src/pages/payment-status-page.ts:84-102 | the method's new page state and result are those of `CheckAlreadyVisibleSpec` |
| PaymentStatusPage.PaymentStatusPage.VerifySuccessPageReady | src/pages/payment-status-page.ts:181-209 | the method's new page state and error are those of `VerifySpec` |
| PaymentStatusPage.PaymentStatusPage.WaitForSuccessPage | src/pages/payment-status-page.ts:26-82 | the method's new page state and error are those of `WaitForSuccessPageSpec` |
| Integration.NoMessageMeansFailure | scripts/cash-payment-integration.js:230-245 | a suite that threw without a message, or with an empty one, counts as failed |
| Integration.PhraseAnywherePasses | scripts/integration-test.js:219-232 | `Command failed` or `exit code` anywhere in the message makes the run count as passed |
| Integration.MessageWithoutPhrasesFails | scripts/cash-payment-test-hardcoded.js:100-115 | a message holding neither phrase counts as failed |
| Integration.IntegrationStepsInOrder | scripts/cash-payment-integration.js:257-298 | the steps a run enters are a non-empty prefix of create, extract, update, wait, test; it exits with 0 or 1, and with 0 exactly when it reached the tests, which is exactly when it has a test classification |
| Integration.IntegrationCompletesIff | scripts/integration-test.js:238-284 | a run exits with 0 exactly when the order command ran, an id was extracted from its output and the update's checks passed; then the file holds the rewrite with that id and the classification is that of the test command |
| Integration.TestsNeverSetTheExitCode | scripts/cash-payment-integration.js:276-298 | the exit code and the fixture do not depend on the test command: failed tests still exit with 0 |
| Integration.EarlyFailureKeepsFixtures | scripts/integration-test.js:245-282 | when the order cannot be created or no id is found, no update is made, the fixture is unchanged and the run exits with 1 |
| Integration.ExtractedIdIsNeverRejected | scripts/cash-payment-integration.js:260-267 | the id that step 2 extracts is a strict UUID, so step 3 (the check at lines 143-157) always rewrites the file with it, and the cash rewrite leaves no `placeholder` |
| Integration.RunIntegration | scripts/cash-payment-integration.js:249-300 | the method's steps, classification, exit code and final fixture text are those of `IntegrationRun` (cash or card updater) |
| Integration.HardcodedRunOutcome | scripts/cash-payment-test-hardcoded.js:119-157 | the fixture always holds the fixed-order rewrite; the run exits with 0 exactly when the checks pass, and then the tests are run and classified |
| Integration.RunHardcoded | scripts/cash-payment-test-hardcoded.js:119-157 | the method's outcome is that of `HardcodedRun` |
| Integration.RealOrderWithoutArgumentUsesMock | scripts/update-cash-payment-order.js:159-174 | without an argument, or with an empty one, the script takes the simulated order's id `fe2cb863-…`, the fixture holds the real-order rewrite with it and no `placeholder` |
| Integration.RealOrderRejectsMalformedArgument | scripts/update-cash-payment-order.js:89-91 | a non-empty argument that is not a UUID is rejected before anything is written: the fixture is unchanged and the script exits with 1 (its catch at lines 186-188) |
| Integration.RealOrderAcceptsUuidArgument | scripts/update-cash-payment-order.js:159-188 | a UUID argument is used as given: the fixture is rewritten with it and holds no `placeholder`; it exits with 0 exactly when the checks pass |
| Integration.RunRealOrder | scripts/update-cash-payment-order.js:153-190 | the method's outcome is that of `RealOrderMain` |

## Left out

- File existence checks are not modelled: the fixture file always exists. Reading and
  writing are assignments to `FixtureFile.content`.
- Console output and colours are not modelled.
- The `delay` countdown timer and the parsing of `ORDER_READY_DELAY` are left out. They are
  timers and environment input, and they cannot fail; the wait step is only recorded.
- The body of the order-creation command (`scripts/create-*-order.ts`) is an oracle output.
  Its printed text is that of the sample outputs.
- The gRPC clients (`lib/overseer-client/index.ts`, `simple-client.ts`) and `config.ts` are
  not part of this model. They are network calls and environment checks over an SDK whose
  code is not available.
- `GoogleAuth` ID-token minting is the `TokenProvider` oracle. `jsonwebtoken.decode` is the
  `Claims` value it would return.
- `Date.now()` and `new Date()` readings are parameters.
- Amounts and the exchange rate are JavaScript floating-point numbers. Here they are `real`
  values passed through unchanged.
- The SDK's `fromPartial` default filling is plain record construction.
- `Promise.all` in `waitForSuccessElementsWithRetry`, `checkIfElementsAlreadyVisible` and
  `verifySuccessPageReady` is taken element by element, with no concurrency. All three waits
  of an attempt are issued and logged even when an earlier one failed, as `Promise.all`
  starts them all before awaiting any. The attempt fails when any of them fails.
- BasePage.RetrySpec: `maxRetries` and `baseTimeout` are JavaScript numbers, modelled as
  `int`. With a fractional `maxRetries`, `attempt === maxRetries`
  (`src/pages/base-page.ts:54`) never holds, so the loop stops after `ceil(maxRetries)`
  failed attempts and returns normally instead of throwing. No page passes it other
  arguments than the integer defaults.
- PaymentStatusPage.SuccessRetrySpec: the same holds for `maxRetries` and `baseTimeout` of
  `waitForSuccessElementsWithRetry` (`src/pages/payment-status-page.ts:161`). Both of its
  call sites (`src/pages/payment-status-page.ts:58` and `:71`) use the integer defaults.
- Real wall-clock time is not modelled: a `NotYet` outcome stands for a Playwright timeout.
  `waitForURL`'s pattern and `waitForLoadState`'s state are not inspected.
- An error value whose `message` is not a string (a thrown non-`Error`) is not modelled. A
  missing message is `None`.
- Two properties of fixture synchronisation are not proved for an arbitrary text, because
  the code does not have them:
  - that a synchronised fixture holds no UUID other than the id;
  - that synchronising twice equals synchronising once. This one is proved for the
    repository's two fixture files (`FixtureRuns.CashUpdateIsIdempotent`,
    `FixtureRuns.CommittedTestDataFileUpdates`).

  For example, `11111111-2222-3333-4444-5555placeholder` gains a new UUID match across the
  inserted id. Deleting a `Workflow ID` annotation can also expose another annotation.
- `successMessages` of `src/fixtures/test-data.ts` is modelled only as part of the file text
  (`FixtureFiles.PaymentMessagesSection`). No modelled operation reads it as a record.
- The page objects that only declare locators and delegate are left out:
  `cash-payment-page.ts`, `homepage.ts`, `barcode-generation-page.ts` and
  `payment-review-page.ts`.
- Also left out: the `tests/*.spec.ts` suites, `test-fixtures.ts`, `global-setup.ts`, and
  the other helpers of `base-page.ts` (click, fill, screenshot).
- The `scripts/test-*.js` and `debug-extraction.js` scripts are used only for their sample
  texts.
- OverseerAuth.TokenTimeToExpiry: the `exp` claim is an integer. A fractional `exp` is not
  modelled.
- JavaScript strings are UTF-16 and Dafny characters are Unicode scalar values. A lone
  surrogate cannot be represented; every text of the core is well formed.
