/**
 * What the four updaters make of the two fixture files of the repository. The cash file is
 * written around a cash record built by `createCashPaymentTestData`, and every cash updater
 * turns the file written for one id into the file written for the new one, which passes its
 * check; `updateTestData` puts the id into both URLs of `createPaymentTestData` and keeps the
 * two `placeholder` URLs of the default card record.
 */
module FixtureRuns {
  import opened Wrappers
  import opened JsText
  import opened Uuid
  import opened FixtureSync
  import opened FixtureText
  import opened TestData
  import opened FixtureFiles

  /** `cash-payment-test-data.ts` as the repository holds it. */
  const CommittedCashFile := CashFixtureText(DefaultCashPaymentTestData)

  /** `test-data.ts` as the repository holds it. */
  const CommittedTestDataFile := PaymentFixtureText(FixedReviewUrl, FixedSuccessUrl, DefaultPaymentTestData)

  /** The cash file written for the id `id`. */
  function CashFileFor(id: string): string
  {
    CashFixtureText(CreateCashPaymentTestData(id))
  }

  /** `test-data.ts` with both factory URLs written for the id `id`. */
  function TestDataFileFor(id: string): string
  {
    PaymentFixtureText(UrlPrefix(id) + ReviewPath, UrlPrefix(id) + StatusPath, DefaultPaymentTestData)
  }

  /** The committed cash file is the one written for the default record's id. */
  lemma CommittedCashFileIsWrittenForDefaultId()
    ensures CommittedCashFile == CashFileFor(DefaultCashOrderId)
  {
    DefaultCashIsCreated();
  }

  /** The cash file holds no annotation. */
  lemma CashFileHoldsNoAnnotation(u: string)
    requires IsUuid(u)
    ensures StripWorkflowAnnotations(CashFileFor(u)) == CashFileFor(u)
  {
    CashFixtureFits(u, u);
    StripNoK(CashFileFor(u));
  }

  /** The UUID pass for `id` turns the cash file for `u` into the file for `id`. */
  lemma CashFileUuidPass(u: string, id: string)
    requires IsUuid(u) && IsUuid(id)
    ensures ReplaceUuids(CashFileFor(u), id) == CashFileFor(id)
  {
    CashFixtureFits(u, id);
  }

  /** The cash file holds no `placeholder`: the placeholder pass leaves it alone. */
  lemma CashFileHoldsNoPlaceholder(u: string, rep: string)
    requires IsUuid(u)
    ensures ReplaceAll(CashFileFor(u), Placeholder, rep) == CashFileFor(u)
  {
    CashFixtureFits(u, u);
    ReplaceAllUncounted(CashFileFor(u), Placeholder, rep);
  }

  /** The file written for `id` passes each cash updater's check: it holds four payment URLs
      for `id`. */
  lemma CashFilePassesCheck(id: string)
    requires IsUuid(id)
    ensures CountMatches(CashFileFor(id), UrlPrefix(id)) == 4
    ensures CashCheck(CashFileFor(id), id) == Success(())
  {
    CashFixtureFits(id, id);
    CashCheckIsUrlCount(CashFileFor(id), id);
    UrlMatchIncludesId(CashFileFor(id), id);
  }

  /** `updateCashPaymentTestData` turns the cash file for any id into the file for the new id,
      and its check passes. */
  lemma CashUpdateRewritesFile(u: string, id: string)
    requires IsUuid(u) && IsUuid(id)
    ensures CashRewrite(CashFileFor(u), id) == CashFileFor(id)
    ensures CashCheck(CashRewrite(CashFileFor(u), id), id) == Success(())
  {
    CashFileHoldsNoAnnotation(u);
    CashFileUuidPass(u, id);
    CashFileHoldsNoPlaceholder(id, id);
    CashFilePassesCheck(id);
  }

  /** `updateCashPaymentTestDataWithRealOrder` does the same and returns the id. */
  lemma RealOrderUpdateRewritesFile(u: string, id: string)
    requires IsUuid(u) && IsUuid(id)
    ensures RealOrderRewrite(CashFileFor(u), id) == CashFileFor(id)
    ensures ReturningId(CashCheck(RealOrderRewrite(CashFileFor(u), id), id), id) == Success(id)
  {
    CashFileUuidPass(u, id);
    CashFileHoldsNoPlaceholder(id, id);
    CashFilePassesCheck(id);
  }

  /** `updateCashPaymentTestDataWithHardcodedOrder` writes the file for its fixed id, whatever
      id the file was written for, and returns that id. */
  lemma HardcodedUpdateRewritesFile(u: string)
    requires IsUuid(u)
    ensures HardcodedRewrite(CashFileFor(u)) == CashFileFor(HardcodedOrderId)
    ensures ReturningId(CashCheck(HardcodedRewrite(CashFileFor(u)), HardcodedOrderId), HardcodedOrderId)
      == Success(HardcodedOrderId)
  {
    HardcodedOrderIdIsUuid();
    CashFileHoldsNoPlaceholder(u, HardcodedOrderId);
    CashFileUuidPass(u, HardcodedOrderId);
    CashFilePassesCheck(HardcodedOrderId);
  }

  /** Running a cash updater twice with the same id changes nothing the second time. */
  lemma CashUpdateIsIdempotent(u: string, id: string)
    requires IsUuid(u) && IsUuid(id)
    ensures CashRewrite(CashRewrite(CashFileFor(u), id), id) == CashRewrite(CashFileFor(u), id)
    ensures RealOrderRewrite(RealOrderRewrite(CashFileFor(u), id), id) == RealOrderRewrite(CashFileFor(u), id)
  {
    CashUpdateRewritesFile(u, id);
    CashUpdateRewritesFile(id, id);
    RealOrderUpdateRewritesFile(u, id);
    RealOrderUpdateRewritesFile(id, id);
  }

  /** On the committed file, every cash updater run with a valid id leaves the file for that
      id and succeeds. */
  lemma CommittedCashFileUpdates(id: string)
    requires IsUuid(id)
    ensures CashRewrite(CommittedCashFile, id) == CashFileFor(id)
    ensures CashCheck(CashRewrite(CommittedCashFile, id), id) == Success(())
    ensures RealOrderRewrite(CommittedCashFile, id) == CashFileFor(id)
    ensures HardcodedRewrite(CommittedCashFile) == CashFileFor(HardcodedOrderId)
  {
    CommittedCashFileIsWrittenForDefaultId();
    DefaultCashIdIsUuid();
    CashUpdateRewritesFile(DefaultCashOrderId, id);
    RealOrderUpdateRewritesFile(DefaultCashOrderId, id);
    HardcodedUpdateRewritesFile(DefaultCashOrderId);
  }

  /** `updateTestData` puts the id into both factory URLs, whatever ids they held, keeps the two
      `placeholder` URLs of the default record, and its check passes. */
  lemma TestDataUpdateRewritesFile(r: string, s: string, id: string)
    requires IsUuid(r) && IsUuid(s) && IsUuid(id)
    ensures TestDataRewrite(PaymentFixtureText(UrlPrefix(r) + ReviewPath, UrlPrefix(s) + StatusPath, DefaultPaymentTestData), id)
      == TestDataFileFor(id)
    ensures CountMatches(TestDataFileFor(id), UrlPrefix(id)) == 2
    ensures CountMatches(TestDataFileFor(id), Placeholder) == 2
    ensures TestDataCheck(TestDataFileFor(id), id) == Success(())
  {
    DefaultPaymentIsPlaceholderRecord();
    PaymentFixtureFits(r, s, DefaultPaymentTestData, id);
    var t := PaymentFixtureText(UrlPrefix(r) + ReviewPath, UrlPrefix(s) + StatusPath, DefaultPaymentTestData);
    StripNoK(t);
    UrlMatchIncludesId(TestDataFileFor(id), id);
  }

  /** On the committed `test-data.ts`, `updateTestData` with a valid id leaves the file for that
      id and succeeds; running it again changes nothing. */
  lemma CommittedTestDataFileUpdates(id: string)
    requires IsUuid(id)
    ensures TestDataRewrite(CommittedTestDataFile, id) == TestDataFileFor(id)
    ensures TestDataCheck(TestDataRewrite(CommittedTestDataFile, id), id) == Success(())
    ensures TestDataRewrite(TestDataFileFor(id), id) == TestDataFileFor(id)
  {
    FixedIdsAreUuids();
    TestDataUpdateRewritesFile(FixedReviewOrderId, FixedSuccessOrderId, id);
    TestDataUpdateRewritesFile(id, id, id);
  }
}
