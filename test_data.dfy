/**
 * The test-data records the page tests read and the fixture updaters rewrite: the cash
 * payment record, whose four page URLs are built from its order id, the card payment record,
 * whose URLs are fixed, their defaults before an order exists, the cash-code expectations and
 * the homepage URL pattern.
 */
module TestData {
  import opened Wrappers
  import opened JsText
  import opened Uuid
  import opened FixtureSync
  import opened BasePage

  // ---------------------------------------------------------------------------------------
  // Cash payment data
  // ---------------------------------------------------------------------------------------

  datatype CashPaymentData = CashPaymentData(
    orderId: string,
    sendAmount: string,
    beneficiaryAmount: string,
    paymentReviewUrl: string,
    barcodeUrl: string,
    storeSelectionUrl: string,
    paymentMethodsUrl: string)

  const CashSendAmount := "$60.00"
  const CashBeneficiaryAmount := "$450.00"

  /** What follows `https://test.pay.felixpago.com/<orderId>/` in each of the four URLs. */
  const ReviewPath := "payment/review?overseer=true"
  const BarcodePath := "payment/barcode?overseer=true"
  const StoreSelectionPath := "new-cash/3" + "?only_user_info=false&overseer=true"
  const PaymentMethodsPath := "payment/change-payment-method" + "?overseer=true"

  /** `createCashPaymentTestData(orderId)`: the id is kept, the amounts are fixed and every
      URL is a page of the payment host under that id. */
  function CreateCashPaymentTestData(orderId: string): (d: CashPaymentData)
    ensures d.orderId == orderId
    ensures d.sendAmount == CashSendAmount && d.beneficiaryAmount == CashBeneficiaryAmount
    ensures forall u :: u in CashUrls(d) ==> OccursAt(u, 0, UrlPrefix(orderId))
  {
    var d := CashPaymentData(
      orderId,
      CashSendAmount,
      CashBeneficiaryAmount,
      UrlPrefix(orderId) + ReviewPath,
      UrlPrefix(orderId) + BarcodePath,
      UrlPrefix(orderId) + StoreSelectionPath,
      UrlPrefix(orderId) + PaymentMethodsPath);
    PrefixOccurs(UrlPrefix(orderId), ReviewPath);
    PrefixOccurs(UrlPrefix(orderId), BarcodePath);
    PrefixOccurs(UrlPrefix(orderId), StoreSelectionPath);
    PrefixOccurs(UrlPrefix(orderId), PaymentMethodsPath);
    d
  }

  /** The four page URLs of a record, in the order the record lists them. */
  function CashUrls(d: CashPaymentData): seq<string>
  {
    [d.paymentReviewUrl, d.barcodeUrl, d.storeSelectionUrl, d.paymentMethodsUrl]
  }

  lemma PrefixOccurs(p: string, rest: string)
    ensures OccursAt(p + rest, 0, p)
  {
    assert (p + rest)[..|p|] == p;
  }

  /** The id a payment URL names: the 36 characters after `https://test.pay.felixpago.com/`. */
  function UrlOrderId(url: string): Option<string>
  {
    var start := |HostBase| + 1;
    if |url| < start + 36 then None else Some(url[start..start + 36])
  }

  /** The record determines its order id, and each of its URLs names that id again. */
  lemma CashUrlsNameTheOrder(orderId: string)
    requires IsUuid(orderId)
    ensures forall u :: u in CashUrls(CreateCashPaymentTestData(orderId)) ==> UrlOrderId(u) == Some(orderId)
  {
    var d := CreateCashPaymentTestData(orderId);
    forall path | path in [ReviewPath, BarcodePath, StoreSelectionPath, PaymentMethodsPath]
      ensures UrlOrderId(UrlPrefix(orderId) + path) == Some(orderId)
    {
      IdAfterHost(HostBase, orderId, "/" + path);
      SeqAppendAssoc(HostBase + "/" + orderId, "/", path);
    }
  }

  lemma IdAfterHost(host: string, id: string, rest: string)
    ensures (host + "/" + id + rest)[|host| + 1..|host| + 1 + |id|] == id
  {
  }

  /** For an id of UUID shape the payment-host prefix is longer than any of the paths, so it
      occurs exactly once in each URL. */
  lemma {:induction false} CashUrlCountsOnce(orderId: string, path: string)
    requires IsUuid(orderId) && |path| < 68
    ensures CountMatches(UrlPrefix(orderId) + path, UrlPrefix(orderId)) == 1
  {
    CountMatchesOfPrefix(UrlPrefix(orderId), path);
  }

  /** The four URLs, one per line, hold exactly four payment URLs for the record's id. */
  lemma {:induction false} CashUrlsCountFour(orderId: string)
    requires IsUuid(orderId)
    ensures CountMatches(Join(CashUrls(CreateCashPaymentTestData(orderId))), UrlPrefix(orderId)) == 4
  {
    var p := UrlPrefix(orderId);
    NoLineFeedInPrefix(orderId);
    CashUrlCountsOnce(orderId, ReviewPath);
    CashUrlCountsOnce(orderId, BarcodePath);
    CashUrlCountsOnce(orderId, StoreSelectionPath);
    CashUrlCountsOnce(orderId, PaymentMethodsPath);
    var u := CashUrls(CreateCashPaymentTestData(orderId));
    JoinFour(u[0], u[1], u[2], u[3]);
    CountMatchesSplit(u[2], '\n', u[3], p);
    CountMatchesSplit(u[1], '\n', u[2] + ['\n'] + u[3], p);
    CountMatchesSplit(u[0], '\n', u[1] + ['\n'] + (u[2] + ['\n'] + u[3]), p);
  }

  /** Hence they pass the updaters' check, which wants the id and at least three of them. */
  lemma {:induction false} CashUrlsPassTheCheck(orderId: string)
    requires IsUuid(orderId)
    ensures CashCheck(Join(CashUrls(CreateCashPaymentTestData(orderId))), orderId) == Success(())
  {
    CashUrlsCountFour(orderId);
    var u := CashUrls(CreateCashPaymentTestData(orderId));
    var text := Join(u);
    JoinFour(u[0], u[1], u[2], u[3]);
    IdAfterHost(HostBase, orderId, "/" + ReviewPath + ['\n'] + (u[1] + ['\n'] + (u[2] + ['\n'] + u[3])));
    SeqAppendAssoc(HostBase + "/" + orderId, "/", ReviewPath);
    assert OccursAt(text, |HostBase| + 1, orderId);
  }

  lemma NoLineFeedInPrefix(id: string)
    requires IsUuid(id)
    ensures '\n' !in UrlPrefix(id)
  {
    IsUuidChars(id);
    assert !UuidChar('\n');
  }

  lemma {:induction false} JoinFour(a: string, b: string, c: string, d: string)
    ensures Join([a, b, c, d]) == a + ['\n'] + (b + ['\n'] + (c + ['\n'] + d))
  {
    assert [a, b, c, d][1..] == [b, c, d];
    assert [b, c, d][1..] == [c, d];
    assert [c, d][1..] == [d];
    assert Join([c, d]) == c + "\n" + d;
    assert Join([b, c, d]) == b + "\n" + Join([c, d]);
    assert Join([a, b, c, d]) == a + "\n" + Join([b, c, d]);
  }

  /** The id of `defaultCashPaymentTestData`, `fe2cb863-128d-4066-8855-f02b1b9001e5`. */
  const DefaultCashOrderId := UuidText("fe2cb863", "128d", "4066", "8855", "f02b1b9001e5")

  /** `defaultCashPaymentTestData`: its literal URLs, with the id they spell out written as
      `DefaultCashOrderId`. */
  const DefaultCashPaymentTestData := CashPaymentData(
    DefaultCashOrderId,
    "$60.00",
    "$450.00",
    "https://test.pay.felixpago.com" + "/" + DefaultCashOrderId + "/" +
      "payment/review?overseer=true",
    "https://test.pay.felixpago.com" + "/" + DefaultCashOrderId + "/" +
      "payment/barcode?overseer=true",
    "https://test.pay.felixpago.com" + "/" + DefaultCashOrderId + "/" +
      "new-cash/3" + "?only_user_info=false&overseer=true",
    "https://test.pay.felixpago.com" + "/" + DefaultCashOrderId + "/" +
      "payment/change-payment-method" + "?overseer=true")

  /** The default record is the record built for its own id, field by field, and that id is
      of UUID shape. */
  lemma DefaultCashIsCreated()
    ensures DefaultCashPaymentTestData == CreateCashPaymentTestData(DefaultCashOrderId)
  {
    var p := UrlPrefix(DefaultCashOrderId);
    SeqAppendAssoc(p, "new-cash/3", "?only_user_info=false&overseer=true");
    SeqAppendAssoc(p, "payment/change-payment-method", "?overseer=true");
  }

  lemma DefaultCashIdIsUuid()
    ensures IsUuid(DefaultCashOrderId)
  {
    UuidTextIsUuid("fe2cb863", "128d", "4066", "8855", "f02b1b9001e5");
  }

  /** The default record's four URLs hold four payment URLs for its id: enough for the check. */
  lemma {:induction false} DefaultCashUrlsPassTheCheck()
    ensures var text := Join(CashUrls(DefaultCashPaymentTestData));
      CountMatches(text, UrlPrefix(DefaultCashOrderId)) == 4 && CashCheck(text, DefaultCashOrderId) == Success(())
  {
    DefaultCashIsCreated();
    DefaultCashIdIsUuid();
    CashUrlsCountFour(DefaultCashOrderId);
    CashUrlsPassTheCheck(DefaultCashOrderId);
  }

  datatype CashPaymentValidations = CashPaymentValidations(
    headerText: string, finalLegend: string, codeLength: int, walgreensLogo: bool)

  const CashHeaderText := "Enseña este código"
  const CashFinalLegend := "Toma una captura para tener" + " el código a la mano. Recuerda que" +
    " siempre puedes crear uno nuevo."

  /** `cashPaymentValidations`. */
  const CashValidations := CashPaymentValidations(CashHeaderText, CashFinalLegend, 30, true)

  /** The expected code length is that of a 30-digit payment code: such a code passes the
      page's length check, and a code of another number of digits fails it. */
  lemma DigitCodeMeetsCodeLength(code: string)
    requires forall k :: 0 <= k < |code| ==> '0' <= code[k] <= '9'
    ensures ValidateCodeLength(Some(code), CashValidations.codeLength) <==> |code| == 30
  {
    CodeLengthCounts(Some(code), CashValidations.codeLength);
  }

  // ---------------------------------------------------------------------------------------
  // Card payment data
  // ---------------------------------------------------------------------------------------

  datatype PaymentData = PaymentData(
    orderId: string,
    sendAmount: string,
    beneficiaryAmount: string,
    cvv: string,
    paymentReviewUrl: string,
    successUrlPattern: string,
    homepageUrl: string)

  const CardSendAmount := "$60.00"
  const CardBeneficiaryAmount := "$1113.00"
  const Cvv := "123"
  const HomepageUrl := "https://www.felixpago.com/"
  const StatusPath := "payment/status" + "?status=APPROVED&overseer=true"

  /** The UUIDs `createPaymentTestData` writes into its two URLs whatever id it is given. */
  const FixedReviewOrderId := UuidText("34ac41b2", "e898", "4073", "98dc", "f9811e04c0f2")
  const FixedSuccessOrderId := UuidText("28c837fb", "3f63", "4893", "8910", "5134ed4c5ba2")
  const FixedReviewUrl := UrlPrefix(FixedReviewOrderId) + ReviewPath
  const FixedSuccessUrl := UrlPrefix(FixedSuccessOrderId) + StatusPath

  /** `createPaymentTestData(orderId)`: only the id comes from the argument. */
  function CreatePaymentTestData(orderId: string): (d: PaymentData)
    ensures d.orderId == orderId
  {
    PaymentData(orderId, CardSendAmount, CardBeneficiaryAmount, Cvv, FixedReviewUrl, FixedSuccessUrl, HomepageUrl)
  }

  /** Everything but the id is the same whatever id the record is built for; in particular
      its two URLs do not name the order. */
  lemma PaymentUrlsIgnoreOrderId(a: string, b: string)
    ensures CreatePaymentTestData(a).(orderId := b) == CreatePaymentTestData(b)
    ensures CreatePaymentTestData(a).paymentReviewUrl == CreatePaymentTestData(b).paymentReviewUrl
    ensures CreatePaymentTestData(a).successUrlPattern == CreatePaymentTestData(b).successUrlPattern
  {
  }

  /** `defaultPaymentTestData`. */
  const DefaultPaymentTestData := PaymentData(
    "",
    "$60.00",
    "$1113.00",
    "123",
    PlaceholderUrl(ReviewPath),
    PlaceholderUrl(StatusPath),
    "https://www.felixpago.com/")

  /** The default record has an empty id, `placeholder` in place of the id in both URLs, and
      the same amounts, CVV and homepage as every built record. */
  lemma DefaultPaymentHasPlaceholders(orderId: string)
    ensures DefaultPaymentTestData.orderId == ""
    ensures OccursAt(DefaultPaymentTestData.paymentReviewUrl, |HostBase| + 1, Placeholder)
    ensures OccursAt(DefaultPaymentTestData.successUrlPattern, |HostBase| + 1, Placeholder)
    ensures var d := CreatePaymentTestData(orderId);
      DefaultPaymentTestData.sendAmount == d.sendAmount &&
      DefaultPaymentTestData.beneficiaryAmount == d.beneficiaryAmount &&
      DefaultPaymentTestData.cvv == d.cvv && DefaultPaymentTestData.homepageUrl == d.homepageUrl
  {
    PlaceholderAfterHost(ReviewPath);
    PlaceholderAfterHost(StatusPath);
  }

  lemma PlaceholderAfterHost(path: string)
    ensures OccursAt(PlaceholderUrl(path), |HostBase| + 1, Placeholder)
  {
    var u := PlaceholderUrl(path);
    assert u[|HostBase| + 1..|HostBase| + 12] == Placeholder;
  }

  lemma FixedIdsAreUuids()
    ensures IsUuid(FixedReviewOrderId) && IsUuid(FixedSuccessOrderId)
  {
    UuidTextIsUuid("34ac41b2", "e898", "4073", "98dc", "f9811e04c0f2");
    UuidTextIsUuid("28c837fb", "3f63", "4893", "8910", "5134ed4c5ba2");
  }

  // ---------------------------------------------------------------------------------------
  // Homepage data
  // ---------------------------------------------------------------------------------------

  const ExpectedHomepageTitle := "Envíos de dinero en segundos" + " desde WhatsApp - Félix Pago"

  /** The literal part of `/https:\/\/www\.felixpago\.com\/?.*\/`. */
  const HomepageHost := "https://www.felixpago.com"

  /** `expectedUrlPattern` matches at `i` when the host is spelled out there; the optional
      slash and `.*` may match nothing. */
  predicate HomepagePatternAt(s: string, i: nat)
  {
    OccursAt(s, i, HomepageHost)
  }

  /** `expectedUrlPattern.test(s)`: the pattern has no anchor, so any start will do. */
  predicate HomepagePatternTest(s: string)
  {
    exists i: nat :: i <= |s| && HomepagePatternAt(s, i)
  }

  /** The pattern accepts exactly the texts that contain the host, wherever it stands and
      whatever follows; the homepage URL is one of them. */
  lemma HomepagePatternIsUnanchored(before: string, after: string)
    ensures HomepagePatternTest(before + HomepageHost + after)
    ensures HomepagePatternTest(HomepageUrl)
    ensures forall s :: HomepagePatternTest(s) <==> Includes(s, HomepageHost)
  {
    var s := before + HomepageHost + after;
    assert s[|before|..|before| + |HomepageHost|] == HomepageHost;
    assert HomepagePatternAt(s, |before|);
    assert HomepageUrl == HomepageHost + "/";
    PrefixOccurs(HomepageHost, "/");
    assert HomepagePatternAt(HomepageUrl, 0);
    forall t ensures HomepagePatternTest(t) <==> Includes(t, HomepageHost) {
      if HomepagePatternTest(t) {
        var i: nat :| i <= |t| && HomepagePatternAt(t, i);
        assert i <= |t| - |HomepageHost| && OccursAt(t, i, HomepageHost);
      }
      if Includes(t, HomepageHost) {
        var i: nat :| i <= |t| - |HomepageHost| && OccursAt(t, i, HomepageHost);
        assert HomepagePatternAt(t, i);
      }
    }
  }
}
