/**
 * Construction of the order document sent to the Overseer service: a fixed mapping of the
 * creation data onto the document's sub-records, with constant enum codes, and one timestamp
 * taken once and shared by every sub-record. Amounts and the exchange rate are passed through
 * unchanged; they are `real` here.
 */
module OrderGenerator {
  import opened Wrappers
  import opened JsNumber

  // Enum codes of the Overseer entities.
  const CountryUnknown := 0
  const CountryUnitedStates := 1
  const CountryMexico := 2

  const CurrencyUnknown := 0
  const CurrencyMxn := 1
  const CurrencyUsd := 2

  const OrderTypeRemittance := 1

  const CreationSourceChat := 1

  const DeliveryDefault := 0
  const DeliveryCash := 1
  const DeliveryBank := 2

  datatype DeliveryKind = Bank | Cash

  datatype OrderCreationData = OrderCreationData(
    phoneNumber: string,
    phoneCountryCode: string,
    conversationId: string,
    userId: string,
    beneficiaryId: string,
    deliveryMethodId: string,
    originAmount: real,
    destinationAmount: real,
    finalAmount: real,
    deliveryMethodType: DeliveryKind,
    fxRate: real,
    promotionId: Option<string>)

  /** A protobuf timestamp: whole seconds, as the decimal string the SDK takes, and nanos. */
  datatype Timestamp = Timestamp(seconds: string, nanos: int)

  datatype BaseCustomer = BaseCustomer(
    userId: string, phoneNumber: string, phoneCountryCode: string, originCountry: int,
    createdAt: Timestamp, lastModifiedDate: Timestamp)

  datatype BaseBeneficiary = BaseBeneficiary(
    beneficiaryId: string, beneficiaryCountry: int, createdAt: Timestamp, lastModifiedDate: Timestamp)

  datatype OrderInformation = OrderInformation(
    originAmount: real, originCurrency: int, originCountry: int,
    destinationCountry: int, destinationCurrency: int, destinationAmount: real,
    finalAmount: real, nonPromotionalFee: real, createdAt: Timestamp, lastModifiedDate: Timestamp)

  datatype BaseDeliveryMethod = BaseDeliveryMethod(
    id: string, deliveryMethodType: int, createdAt: Timestamp, lastModifiedDate: Timestamp)

  datatype FxRate = FxRate(
    felixRate: real, orderRate: real, originCurrency: int, destinationCurrency: int,
    createdAt: Timestamp, lastModifiedDate: Timestamp)

  /** Entries of the document's `fees` and `promotions` lists; the builder leaves both empty. */
  datatype Fee = Fee(code: string)
  datatype Promotion = Promotion(code: string)

  datatype OrderDocument = OrderDocument(
    orderType: int,
    conversationId: string,
    baseCustomer: BaseCustomer,
    baseBeneficiary: BaseBeneficiary,
    orderInformation: OrderInformation,
    baseDeliveryMethod: BaseDeliveryMethod,
    creationSource: int,
    fxRate: FxRate,
    promotionId: Option<string>,
    fees: seq<Fee>,
    promotions: seq<Promotion>)

  /** `createTimestamp` for a clock reading of `ms` milliseconds since the epoch:
      `Math.floor(ms / 1000).toString()` and the truncating `(ms % 1000) * 1000000`. */
  function CreateTimestamp(ms: int): (t: Timestamp)
    ensures -1000000000 < t.nanos < 1000000000 && t.nanos % 1000000 == 0
  {
    Timestamp(IntToString(ms / 1000), JsRem(ms, 1000) * 1000000)
  }

  /** The whole seconds the timestamp denotes. */
  function SecondsOf(ms: int): int
  {
    ms / 1000
  }

  /** From 1970 on, the timestamp splits the reading exactly: nanos in range and
      `seconds * 10^9 + nanos == ms * 10^6`. Before 1970, a reading that is not a whole second
      gets negative nanos and the pair is one second short. */
  lemma TimestampSplitsMillis(ms: int)
    ensures var t := CreateTimestamp(ms);
      t.seconds == IntToString(SecondsOf(ms)) &&
      (ms >= 0 ==> 0 <= t.nanos < 1000000000 && SecondsOf(ms) * 1000000000 + t.nanos == ms * 1000000)
    ensures var t := CreateTimestamp(ms);
      ms < 0 && ms % 1000 != 0 ==>
        t.nanos < 0 && SecondsOf(ms) * 1000000000 + t.nanos == ms * 1000000 - 1000000000
  {
    var q, r := ms / 1000, ms % 1000;
    assert ms == q * 1000 + r;
    if ms < 0 && r != 0 {
      var q', r' := (-ms) / 1000, (-ms) % 1000;
      assert -ms == q' * 1000 + r';
      assert r' == 1000 - r && q' == -q - 1;
    }
  }

  /** Readings in distinct seconds give distinct `seconds` strings. */
  lemma TimestampSecondsDistinct(ms1: int, ms2: int)
    requires CreateTimestamp(ms1).seconds == CreateTimestamp(ms2).seconds
    ensures SecondsOf(ms1) == SecondsOf(ms2)
  {
    IntToStringInjective(ms1 / 1000, ms2 / 1000);
  }

  function CreateBaseCustomer(data: OrderCreationData, now: Timestamp): BaseCustomer
  {
    BaseCustomer(data.userId, data.phoneNumber, data.phoneCountryCode, CountryMexico, now, now)
  }

  function CreateBaseBeneficiary(data: OrderCreationData, now: Timestamp): BaseBeneficiary
  {
    BaseBeneficiary(data.beneficiaryId, CountryMexico, now, now)
  }

  function CreateOrderInformation(data: OrderCreationData, now: Timestamp): OrderInformation
  {
    OrderInformation(
      data.originAmount, CurrencyUsd, CountryUnitedStates, CountryMexico, CurrencyMxn,
      data.destinationAmount, data.finalAmount, 0.0, now, now)
  }

  /** Always a bank delivery, whatever `deliveryMethodType` the data names. */
  function CreateBaseDeliveryMethod(data: OrderCreationData, now: Timestamp): BaseDeliveryMethod
  {
    BaseDeliveryMethod(data.deliveryMethodId, DeliveryBank, now, now)
  }

  function CreateFxRate(data: OrderCreationData, now: Timestamp): FxRate
  {
    FxRate(data.fxRate, data.fxRate, CurrencyUsd, CurrencyMxn, now, now)
  }

  /** `createOrderDocument` with the clock at `ms`. */
  function CreateOrderDocument(data: OrderCreationData, ms: int): (d: OrderDocument)
    ensures d.orderType == OrderTypeRemittance && d.creationSource == CreationSourceChat
    ensures d.fees == [] && d.promotions == []
    ensures d.baseDeliveryMethod.deliveryMethodType == DeliveryBank
    ensures d.baseCustomer.originCountry == CountryMexico && d.baseBeneficiary.beneficiaryCountry == CountryMexico
    ensures d.orderInformation.originCurrency == CurrencyUsd && d.orderInformation.originCountry == CountryUnitedStates
    ensures d.orderInformation.destinationCurrency == CurrencyMxn && d.orderInformation.destinationCountry == CountryMexico
    ensures d.orderInformation.nonPromotionalFee == 0.0
    ensures d.fxRate.felixRate == d.fxRate.orderRate == data.fxRate
    ensures d.fxRate.originCurrency == CurrencyUsd && d.fxRate.destinationCurrency == CurrencyMxn
  {
    var now := CreateTimestamp(ms);
    OrderDocument(
      OrderTypeRemittance,
      data.conversationId,
      CreateBaseCustomer(data, now),
      CreateBaseBeneficiary(data, now),
      CreateOrderInformation(data, now),
      CreateBaseDeliveryMethod(data, now),
      CreationSourceChat,
      CreateFxRate(data, now),
      data.promotionId,
      [],
      [])
  }

  /** The creation data a document carries, with the delivery kind supplied from outside
      (the document does not record it). */
  function CreationDataOf(d: OrderDocument, kind: DeliveryKind): OrderCreationData
  {
    OrderCreationData(
      d.baseCustomer.phoneNumber,
      d.baseCustomer.phoneCountryCode,
      d.conversationId,
      d.baseCustomer.userId,
      d.baseBeneficiary.beneficiaryId,
      d.baseDeliveryMethod.id,
      d.orderInformation.originAmount,
      d.orderInformation.destinationAmount,
      d.orderInformation.finalAmount,
      kind,
      d.fxRate.felixRate,
      d.promotionId)
  }

  /** Every input field but the delivery kind is copied into the document and can be read
      back from it. */
  lemma DocumentKeepsCreationData(data: OrderCreationData, ms: int)
    ensures CreationDataOf(CreateOrderDocument(data, ms), data.deliveryMethodType) == data
  {
  }

  /** The delivery kind of the input has no effect on the document. */
  lemma DeliveryKindIgnored(data: OrderCreationData, kind: DeliveryKind, ms: int)
    ensures CreateOrderDocument(data.(deliveryMethodType := kind), ms) == CreateOrderDocument(data, ms)
  {
  }

  /** Every sub-record is stamped with the one timestamp taken for the document. */
  lemma OneTimestampForAll(data: OrderCreationData, ms: int)
    ensures var d := CreateOrderDocument(data, ms); var now := CreateTimestamp(ms);
      d.baseCustomer.createdAt == now && d.baseCustomer.lastModifiedDate == now &&
      d.baseBeneficiary.createdAt == now && d.baseBeneficiary.lastModifiedDate == now &&
      d.orderInformation.createdAt == now && d.orderInformation.lastModifiedDate == now &&
      d.baseDeliveryMethod.createdAt == now && d.baseDeliveryMethod.lastModifiedDate == now &&
      d.fxRate.createdAt == now && d.fxRate.lastModifiedDate == now
  {
  }
}
